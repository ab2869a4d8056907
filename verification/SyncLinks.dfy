/** The steps of a run linked to each other: what each reaches, touches and leaves current. */
module SyncLinks {
  import opened Values
  import opened MispWorld
  import opened SharingGroups
  import opened SyncItems
  import opened SyncSteps
  import opened SyncPosts
  import opened SyncRun
  import opened SyncSwept
  import SyncGroups
  import SyncWarm

  /** No key appears twice in the file; the names of `taxonomies` may. */
  ghost predicate DistinctConfig(config: Config) {
    && DistinctRefs(RoleItems(config)) && DistinctRefs(OrgItems(config)) && DistinctRefs(TagItems(map[], config))
    && DistinctRefs(UserItems(map[], config.teams)) && DistinctRefs(ServerItems(map[], config.teams))
    && (config.warninglists.Some? ==> DistinctRefs(ListItems(config.warninglists.value)))
    && SyncGroups.DistinctGroups(config.groups)
  }

  // ---- The items of a team, whatever the snapshot -------------------------------------------

  ghost predicate SameRefs(a: seq<Item>, b: seq<Item>) {
    |a| == |b| && forall k :: 0 <= k < |a| ==> ItemRef(a[k]) == ItemRef(b[k])
  }

  lemma SameRefsConcat(a: seq<Item>, b: seq<Item>, c: seq<Item>, d: seq<Item>)
    requires SameRefs(a, b) && SameRefs(c, d)
    ensures SameRefs(a + c, b + d)
  {
  }

  lemma {:induction false} TeamRefs(seen: Table, seen': Table, teams: seq<Team>)
    ensures SameRefs(TeamTags(seen, teams), TeamTags(seen', teams))
    ensures SameRefs(UserItems(seen, teams), UserItems(seen', teams))
    ensures SameRefs(ServerItems(seen, teams), ServerItems(seen', teams))
    decreases teams
  {
    if teams != [] {
      var t, rest := teams[0], teams[1..];
      TeamRefs(seen, seen', rest);
      OneTeam(seen, seen', t);
      SameRefsConcat(TagsOf(seen, t), TagsOf(seen', t), TeamTags(seen, rest), TeamTags(seen', rest));
      SameRefsConcat(UsersOf(seen, t), UsersOf(seen', t), UserItems(seen, rest), UserItems(seen', rest));
      SameRefsConcat(ServersOf(seen, t), ServersOf(seen', t), ServerItems(seen, rest), ServerItems(seen', rest));
    }
  }

  lemma OneTeam(seen: Table, seen': Table, t: Team)
    ensures SameRefs(TagsOf(seen, t), TagsOf(seen', t)) && SameRefs(UsersOf(seen, t), UsersOf(seen', t))
    ensures SameRefs(ServersOf(seen, t), ServersOf(seen', t))
  {
    hide TeamOrg;
  }

  lemma SameRefsDistinct(a: seq<Item>, b: seq<Item>)
    requires SameRefs(a, b) && DistinctRefs(a)
    ensures DistinctRefs(b)
  {
  }

  lemma SameRefsTouch(a: seq<Item>, b: seq<Item>)
    requires SameRefs(a, b)
    ensures Refs(a) == Refs(b)
  {
    forall q ensures MayTouch(a, q) <==> MayTouch(b, q) {
      if MayTouch(a, q) { var k :| 0 <= k < |a| && ItemRef(a[k]) == q; assert b[k] in b; }
      if MayTouch(b, q) { var k :| 0 <= k < |b| && ItemRef(b[k]) == q; assert a[k] in a; }
    }
  }

  predicate HasOrg(i: Item) {
    match i
    case TagItem(_, org) => org.Some?
    case UserItem(_, org) => org.Some?
    case ServerItem(_, org) => org.Some?
    case _ => true
  }

  lemma TeamOrgStable(seen: Table, seen': Table, team: Team)
    requires Extends(seen, seen') && TeamOrg(seen, team).Some?
    ensures TeamOrg(seen', team) == TeamOrg(seen, team)
  {
  }

  lemma {:induction false} TeamTagsStable(seen: Table, seen': Table, teams: seq<Team>)
    requires Extends(seen, seen') && forall i <- TeamTags(seen, teams) :: HasOrg(i)
    ensures TeamTags(seen', teams) == TeamTags(seen, teams)
    decreases teams
  {
    if teams != [] {
      var t := teams[0];
      if t.tags != [] {
        assert TeamTags(seen, teams)[0] == TagItem(t.tags[0], TeamOrg(seen, t)) && TeamTags(seen, teams)[0] in TeamTags(seen, teams);
        TeamOrgStable(seen, seen', t);
      }
      TeamTagsStable(seen, seen', teams[1..]);
    }
  }

  lemma {:induction false} UsersStable(seen: Table, seen': Table, teams: seq<Team>)
    requires Extends(seen, seen') && forall i <- UserItems(seen, teams) :: HasOrg(i)
    ensures UserItems(seen', teams) == UserItems(seen, teams)
    decreases teams
  {
    if teams != [] {
      var t := teams[0];
      if t.users != [] {
        assert UserItems(seen, teams)[0] == UserItem(t.users[0], TeamOrg(seen, t)) && UserItems(seen, teams)[0] in UserItems(seen, teams);
        TeamOrgStable(seen, seen', t);
      }
      UsersStable(seen, seen', teams[1..]);
    }
  }

  lemma {:induction false} ServersStable(seen: Table, seen': Table, teams: seq<Team>)
    requires Extends(seen, seen') && forall i <- ServerItems(seen, teams) :: HasOrg(i)
    ensures ServerItems(seen', teams) == ServerItems(seen, teams)
    decreases teams
  {
    if teams != [] {
      var t := teams[0];
      if t.servers != [] {
        assert ServerItems(seen, teams)[0] == ServerItem(t.servers[0], TeamOrg(seen, t)) && ServerItems(seen, teams)[0] in ServerItems(seen, teams);
        TeamOrgStable(seen, seen', t);
      }
      ServersStable(seen, seen', teams[1..]);
    }
  }

  lemma HeldHasOrg(m: Misp, sent: map<string, string>, items: seq<Item>)
    requires forall i <- items :: Held(m, sent, i)
    ensures forall i <- items :: HasOrg(i)
  {
    forall i | i in items ensures HasOrg(i) { assert Held(m, sent, i); }
  }

  lemma ItemKinds(config: Config, seen: Table)
    ensures OfKind(RoleItems(config), Role) && OfKind(OrgItems(config), Org) && OfKind(TagItems(seen, config), Tag)
    ensures OfKind(UserItems(seen, config.teams), User) && OfKind(ServerItems(seen, config.teams), Server)
    ensures forall i <- RoleItems(config) :: !i.ServerItem?
    ensures forall i <- OrgItems(config) :: !i.ServerItem?
    ensures forall i <- TagItems(seen, config) :: !i.ServerItem?
    ensures forall i <- UserItems(seen, config.teams) :: !i.ServerItem?
  {
    SyncWarm.TeamItemKinds(seen, config.teams);
  }

  // ---- One step after the other ------------------------------------------------------------

  /** What later steps leave of what earlier ones reached. */
  lemma StillHeld(m: Misp, m': Misp, others: seq<Item>, items: seq<Item>)
    requires Frame(m, m', others) && AllHeld(m, items)
    requires forall i <- items :: !MayTouch(others, ItemRef(i))
    ensures AllHeld(m', items)
  {
    forall i | i in items ensures Held(m', m'.sent, i) {
      HeldStable(m, m.sent, m', m'.sent, others, i);
    }
  }

  /** A step over named items of one kind, with or without a refresh after it. */
  lemma NamedStep(env: Env, run: Run, items: seq<Item>, kind: Kind, stale: set<Kind>)
    requires Fresh(run, stale) && OfKind(items, kind) && kind !in stale && kind !in {NoRecord, Server}
    requires forall i <- items :: !i.ServerItem?
    ensures var s := Do(env, run, items);
      && DidStep(run, s.run, items, kind, stale)
      && (s.ok && DistinctRefs(items) ==> AllHeld(s.run.misp, items))
  {
    DoStep(env, run, items, kind, stale);
    var s := Do(env, run, items);
    if s.ok && DistinctRefs(items) {
      DoReaches(env, run, items, kind, stale);
      SentIrrelevant(s.run.misp, items, s.run.sent);
    }
  }

  lemma SentIrrelevant(m: Misp, items: seq<Item>, sent: map<string, string>)
    requires forall i <- items :: Held(m, sent, i) && !i.ServerItem?
    ensures AllHeld(m, items)
  {
    forall i | i in items ensures Held(m, m.sent, i) { assert Held(m, sent, i); }
  }

  lemma RefreshKeeps(run: Run, run1: Run, items: seq<Item>, kind: Kind, stale: set<Kind>)
    requires DidStep(run, run1, items, kind, stale)
    ensures DidStep(run, Refresh(run1, kind), items, kind, stale)
    ensures Refresh(run1, kind).misp == run1.misp
    ensures Fresh(Refresh(run1, kind), stale - {kind})
  {
    RefreshSeen(run1, kind);
  }

  /** The servers' step reads the row of sent keys before and writes it after. */
  lemma ServerStepReaches(env: Env, run: Run, config: Config, stale: set<Kind>)
    requires Fresh(run, stale) && Server !in stale
    ensures var s, items := ServerStep(env, run, config), ServerItems(run.seen, config.teams);
      && Fresh(s.run, stale + {Server}) && KeepsSeen(run, s.run, Server)
      && Frame(run.misp, s.run.misp, items) && GroupsKept(run, s.run)
      && (forall r :: !MayTouch(items, r) && SeenSame(run, r) ==> SeenSame(s.run, r))
      && (s.ok && DistinctRefs(items) ==> AllHeld(s.run.misp, items))
  {
    hide Do, Frame, SentFrame, Held, DistinctRefs, ServerItems;
    var run1, items := run.(sent := run.misp.sent), ServerItems(run.seen, config.teams);
    ItemKinds(config, run.seen);
    var did := Do(env, run1, items);
    DoStep(env, run1, items, Server, stale);
    var s := ServerStep(env, run, config);
    SentWritten(run.misp, did.run.misp, did.run.sent, items);
    assert s.run == did.run.(misp := did.run.misp.(sent := did.run.sent));
    if s.ok && DistinctRefs(items) {
      DoReaches(env, run1, items, Server, stale);
      HeldByRecords(did.run.misp, s.run.misp, did.run.sent, items);
    }
  }

  /** Whether an entry is held depends on the records, the API keys and the row only. */
  lemma HeldByRecords(m: Misp, m': Misp, sent: map<string, string>, items: seq<Item>)
    requires m' == m.(sent := sent) && forall i <- items :: Held(m, sent, i)
    ensures AllHeld(m', items)
  {
    forall i | i in items ensures Held(m', m'.sent, i) { assert Held(m, sent, i); }
  }

  lemma SentWritten(m: Misp, m1: Misp, sent: map<string, string>, items: seq<Item>)
    requires Frame(m, m1, items) && SentFrame(m.sent, sent, items)
    ensures Frame(m, m1.(sent := sent), items)
  {
    var m' := m1.(sent := sent);
    assert m1.Valid() ==> m'.Valid();
    forall q, f | q in m.records && !MayEdit(items, q, f) ensures SameField(m.records[q], m'.records[q], f) {}
  }

  // ---- The steps of a run, linked -----------------------------------------------------------

  /** A step over items of one kind: what it touches, and of which kinds it leaves the snapshot stale. */
  ghost predicate Link(run: Run, run': Run, items: seq<Item>, kind: Kind, stale: set<Kind>) {
    && Fresh(run', stale)
    && Frame(run.misp, run'.misp, items) && OfKind(items, kind)
    && KeepsSeen(run, run', kind)
    && (kind != NoRecord ==> GroupsKept(run, run'))
  }

  /** The items of each step of a run, those of its sweeps included. */
  datatype Work = Work(roles: seq<Item>, orgs: seq<Item>, tags: seq<Item>, users: seq<Item>, servers: seq<Item>,
                       taxonomies: seq<Item>, sweptTaxonomies: seq<Item>, lists: seq<Item>, sweptLists: seq<Item>,
                       groups: seq<Item>, sweptUsers: seq<Item>, sweptServers: seq<Item>)

  ghost predicate SeenBut(run: Run, run': Run, items: seq<Item>) {
    forall r :: !MayTouch(items, r) && SeenSame(run, r) ==> SeenSame(run', r)
  }

  ghost predicate HeldAfter(s: Step, items: seq<Item>) {
    s.ok && DistinctRefs(items) ==> AllHeld(s.run.misp, items)
  }

  /** The steps of the named records are linked, and each reaches what it is for if it succeeds. */
  ghost predicate NamedLinks(m: Misp, t: Trace, config: Config, w: Work) {
    && w.roles == RoleItems(config) && w.orgs == OrgItems(config) && w.tags == TagItems(t.orgs.run.seen, config)
    && w.users == UserItems(t.tags.run.seen, config.teams) && w.servers == ServerItems(t.users.run.seen, config.teams)
    && Link(Fetch(m), t.roles.run, w.roles, Role, {Role})
    && Link(t.roles.run, t.orgs.run, w.orgs, Org, {Role, Org})
    && Link(t.orgs.run, t.tags.run, w.tags, Tag, {Role, Org})
    && Link(t.tags.run, t.users.run, w.users, User, {Role, Org})
    && Link(t.users.run, t.servers.run, w.servers, Server, {Role, Org, Server})
    && SeenBut(t.users.run, t.servers.run, w.servers)
    && HeldAfter(t.roles, w.roles) && HeldAfter(t.orgs, w.orgs) && HeldAfter(t.tags, w.tags)
    && HeldAfter(t.users, w.users) && HeldAfter(t.servers, w.servers)
  }

  lemma RefreshLink(env: Env, run: Run, items: seq<Item>, kind: Kind, stale: set<Kind>)
    requires Fresh(run, stale) && OfKind(items, kind) && kind !in stale && kind !in {NoRecord, Server}
    requires forall i <- items :: !i.ServerItem?
    ensures var s, r := DoAndRefresh(env, run, items, kind), Refresh(Do(env, run, items).run, kind);
      && Link(run, s.run, items, kind, stale + {kind}) && Fresh(s.run, stale + {kind})
      && HeldAfter(s, items)
      && Link(run, r, items, kind, stale) && Fresh(r, stale)
      && HeldAfter(Step(r, Do(env, run, items).ok), items)
  {
    hide Frame, SentFrame, AllHeld, DistinctRefs, Each;
    NamedStep(env, run, items, kind, stale);
    RefreshKeeps(run, Do(env, run, items).run, items, kind, stale);
    assert (stale + {kind}) - {kind} == stale;
    FreshRefresh(Do(env, run, items).run, stale + {kind}, kind);
    DoAndRefreshIs(env, run, items, kind);
  }

  lemma DoAndRefreshIs(env: Env, run: Run, items: seq<Item>, kind: Kind)
    ensures var s, done := DoAndRefresh(env, run, items, kind), Do(env, run, items);
      s.ok == done.ok && (s.run == done.run || s.run == Refresh(done.run, kind))
  {
  }

  lemma ServerLink(env: Env, run: Run, config: Config, stale: set<Kind>)
    requires Fresh(run, stale) && Server !in stale
    ensures var s, items := ServerStep(env, run, config), ServerItems(run.seen, config.teams);
      Link(run, s.run, items, Server, stale + {Server}) && Fresh(s.run, stale + {Server}) && HeldAfter(s, items)
      && SeenBut(run, s.run, items)
  {
    hide Frame, SentFrame, AllHeld, DistinctRefs, Do, ServerStep, ServerItems;
    ServerStepReaches(env, run, config, stale);
    ItemKinds(config, run.seen);
  }

  lemma NamedSteps(env: Env, config: Config, ldap: bool, m: Misp) returns (w: Work)
    ensures NamedLinks(m, Steps(env, config, ldap, m), config, w)
  {
    hide HeldAfter, SeenBut, DoAndRefresh, ServerStep, TaxonomyStep, ListStep, Disable, Do, Link, Fresh, OfKind,
         RoleItems, OrgItems, TagItems, UserItems, ServerItems;
    var t, r0 := Steps(env, config, ldap, m), Fetch(m);
    w := Work(RoleItems(config), OrgItems(config), TagItems(t.orgs.run.seen, config),
              UserItems(t.tags.run.seen, config.teams), ServerItems(t.users.run.seen, config.teams),
              [], [], [], [], [], [], []);
    FetchFresh(m);
    forall seen { ItemKinds(config, seen); }
    RefreshLink(env, r0, w.roles, Role, {});
    assert {} + {Role} == {Role} && {Role} + {Org} == {Role, Org} && {Role, Org} + {Server} == {Role, Org, Server};
    RefreshLink(env, t.roles.run, w.orgs, Org, {Role});
    RefreshLink(env, t.orgs.run, w.tags, Tag, {Role, Org});
    RefreshLink(env, t.tags.run, w.users, User, {Role, Org});
    ServerLink(env, t.users.run, config, {Role, Org});
  }

  lemma FetchFresh(m: Misp)
    ensures Fresh(Fetch(m), {})
  {
  }

  // ---- The later steps ---------------------------------------------------------------------

  function TaxonomyNames(config: Config): seq<Item> {
    if config.taxonomies.None? then [] else TaxonomyItems(config.taxonomies.value)
  }

  function ListNames(config: Config): seq<Item> {
    if config.warninglists.None? then [] else ListItems(config.warninglists.value)
  }

  /** The taxonomies' step, as far as its sweep, and the warninglists'. */
  ghost predicate TaxonomyLink(env: Env, run: Run, s: Step, config: Config, items: seq<Item>, swept: seq<Item>,
                               stale: set<Kind>)
  {
    && Link(run, s.run, items + swept, Taxonomy, stale + {Taxonomy}) && At(s.run, stale + {Taxonomy})
    && items == (if config.taxonomies.None? then [] else TaxonomyWork(config.taxonomies.value, env.shipped))
    && (forall i <- swept :: SweepOf(run.misp, i, Taxonomy, Refs(TaxonomyNames(config))))
    && (config.taxonomies.None? || !LoadAndEnable(env, run, config.taxonomies.value).ok ==> swept == [])
    && (s.ok && config.taxonomies.Some? ==>
          && AllHeld(s.run.misp, TaxonomyNames(config))
          && NothingToSweep(s.run.misp, Taxonomy, Refs(TaxonomyNames(config))))
  }

  ghost predicate ListLink(env: Env, run: Run, s: Step, config: Config, items: seq<Item>, swept: seq<Item>,
                           stale: set<Kind>)
  {
    && Link(run, s.run, items + swept, Warninglist, stale + {Warninglist}) && At(s.run, stale + {Warninglist})
    && items == ListNames(config)
    && (forall i <- swept :: SweepOf(run.misp, i, Warninglist, Refs(items)))
    && (config.warninglists.None? || !Do(env, run, items).ok ==> swept == [])
    && (s.ok && config.warninglists.Some? ==>
          (DistinctRefs(items) ==> AllHeld(s.run.misp, items)) && NothingToSweep(s.run.misp, Warninglist, Refs(items)))
  }

  ghost predicate At(run: Run, stale: set<Kind>) { Fresh(run, stale) && run.misp.Valid() }

  lemma AtIs(run: Run, stale: set<Kind>)
    ensures At(run, stale) <==> Fresh(run, stale) && run.misp.Valid()
  {
  }

  lemma NoLink(run: Run, kind: Kind, stale: set<Kind>)
    requires At(run, stale)
    ensures Link(run, run, [] + [], kind, stale + {kind}) && At(run, stale + {kind})
  {
    FrameSelf(run.misp, []);
  }

  lemma SweepingLink(run: Run, s: Step, items: seq<Item>, swept: seq<Item>, kind: Kind, named: set<Ref>,
                     stale: set<Kind>)
    requires SweepingStep(run, s, items, swept, kind, named, stale) && run.misp.Valid()
    ensures Link(run, s.run, items + swept, kind, stale + {kind}) && At(s.run, stale + {kind})
  {
    hide SweepOf, NothingToSweep;
  }

  lemma TaxonomyLinked(env: Env, run: Run, config: Config, stale: set<Kind>)
    returns (items: seq<Item>, swept: seq<Item>)
    requires At(run, stale) && Taxonomy !in stale
    ensures TaxonomyLink(env, run, TaxonomyStep(env, run, config), config, items, swept, stale)
  {
    hide Link, Fresh, SweepOf, NothingToSweep, AllHeld, LoadAndEnable, LoadStep, SweepItems, Do, Frame;
    if config.taxonomies.None? {
      items, swept := [], [];
      NoLink(run, Taxonomy, stale);
    } else {
      items := TaxonomyWork(config.taxonomies.value, env.shipped);
      swept := TaxonomyStepReaches(env, run, config, stale);
      SweepingLink(run, TaxonomyStep(env, run, config), items, swept, Taxonomy, Refs(TaxonomyNames(config)), stale);
    }
  }

  lemma ListLinked(env: Env, run: Run, config: Config, stale: set<Kind>)
    returns (items: seq<Item>, swept: seq<Item>)
    requires At(run, stale) && Warninglist !in stale
    ensures ListLink(env, run, ListStep(env, run, config), config, items, swept, stale)
  {
    hide Link, Fresh, SweepOf, NothingToSweep, AllHeld, SweepItems, Do, ListItems, Refs;
    items := ListNames(config);
    if config.warninglists.None? {
      swept := [];
      NoLink(run, Warninglist, stale);
    } else {
      swept := ListStepReaches(env, run, config, stale);
      SweepingLink(run, ListStep(env, run, config), items, swept, Warninglist, Refs(items), stale);
    }
  }

  lemma GroupLinked(env: Env, run: Run, config: Config, stale: set<Kind>)
    requires At(run, stale)
    ensures var s := Do(env, run, GroupItems(config));
      Link(run, s.run, GroupItems(config), NoRecord, stale + {NoRecord}) && At(s.run, stale + {NoRecord})
  {
    var items, run' := GroupItems(config), Do(env, run, GroupItems(config)).run;
    EachFrame(env, run, items);
    forall r: Ref | r.kind != NoRecord
      ensures !MayTouch(items, r) && (SeenSame(run, r) ==> SeenSame(run', r))
    {
      KindTouches(items, NoRecord, r);
    }
  }

  /** A sweep at the end of a run. */
  ghost predicate DisableLink(run: Run, s: Step, after: bool, swept: seq<Item>, kind: Kind, named: set<Ref>,
                              stale: set<Kind>)
  {
    && Link(run, s.run, swept, kind, stale + {kind}) && At(s.run, stale + {kind})
    && (forall i <- swept :: SweepOf(run.misp, i, kind, named))
    && (forall q <- named :: !MayTouch(swept, q))
    && (!after ==> swept == [])
    && (s.ok && after ==> NothingToSweep(s.run.misp, kind, named))
  }

  lemma DisableLinked(env: Env, run: Run, after: bool, kind: Kind, named: set<Ref>, stale: set<Kind>)
    returns (swept: seq<Item>)
    requires At(run, stale) && kind != NoRecord
    requires forall q: Ref :: q.kind == kind && q !in named ==> SeenSame(run, q)
    ensures DisableLink(run, Disable(env, run, after, kind, named), after, swept, kind, named, stale)
  {
    hide *;
    AtIs(run, stale);
    var s := Disable(env, run, after, kind, named);
    swept := DisableItems(run, after, kind, named);
    DisableCases(env, run, after, kind, named);
    if after {
      SweepFrame(env, run, kind, named, stale);
      SweepsAreDue(run, kind, named);
      if s.ok { SweepsHold(env, run, kind, named, stale); }
    } else {
      NoSweep(run, kind, named, stale);
      FreshMore(run, stale, kind);
    }
    DisableComposed(run, s, after, swept, kind, named, stale);
  }

  function DisableItems(run: Run, after: bool, kind: Kind, named: set<Ref>): seq<Item> {
    if after then SweepItems(run.seen, run.misp.order, kind, named) else []
  }

  lemma DisableCases(env: Env, run: Run, after: bool, kind: Kind, named: set<Ref>)
    ensures after ==>
      && DisableItems(run, after, kind, named) == SweepItems(run.seen, run.misp.order, kind, named)
      && Disable(env, run, after, kind, named) == Do(env, run, DisableItems(run, after, kind, named))
    ensures !after ==> DisableItems(run, after, kind, named) == [] && Disable(env, run, after, kind, named) == Step(run, true)
  {
  }

  lemma FreshMore(run: Run, stale: set<Kind>, kind: Kind)
    requires Fresh(run, stale)
    ensures Fresh(run, stale + {kind})
  {
  }

  lemma SweepsAreDue(run: Run, kind: Kind, named: set<Ref>)
    requires forall q: Ref :: q.kind == kind && q !in named ==> SeenSame(run, q)
    ensures forall i <- SweepItems(run.seen, run.misp.order, kind, named) :: SweepOf(run.misp, i, kind, named)
  {
    SweepItemsAre(run.seen, run.misp.order, kind, named);
    forall i | i in SweepItems(run.seen, run.misp.order, kind, named) ensures SweepOf(run.misp, i, kind, named) {
      assert SweepFor(i, run.seen, kind, named) && SeenSame(run, i.ref);
    }
  }

  lemma DisableComposed(run: Run, s: Step, after: bool, swept: seq<Item>, kind: Kind, named: set<Ref>,
                        stale: set<Kind>)
    requires DidStep(run, s.run, swept, kind, stale) && OfKind(swept, kind) && run.misp.Valid()
    requires after ==> forall i <- swept :: SweepOf(run.misp, i, kind, named)
    requires forall q <- named :: !MayTouch(swept, q)
    requires !after ==> swept == []
    requires s.ok && after ==> NothingToSweep(s.run.misp, kind, named)
    ensures DisableLink(run, s, after, swept, kind, named, stale)
  {
    hide SweepOf, NothingToSweep, SentFrame;
  }
}
