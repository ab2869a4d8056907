/** A run that exits 0 leaves MISP as the file asks, so that the next run only reads. */
module SyncConverge {
  import opened Values
  import opened MispWorld
  import opened SharingGroups
  import opened SyncItems
  import opened SyncSteps
  import opened SyncRun
  import opened SyncSwept
  import opened SyncLinks
  import SyncGroups
  import SyncWarm

  function NamedUsers(m: Misp, config: Config): set<Ref> { Refs(UserItems(m.records, config.teams)) }

  function NamedServers(m: Misp, config: Config): set<Ref> { Refs(ServerItems(m.records, config.teams)) }

  /** The kinds of which the snapshot is stale once the servers are done. */
  const Stale: set<Kind> := {Role, Org, Server}

  /** The steps after the servers' are linked. */
  ghost predicate LaterLinks(env: Env, m: Misp, t: Trace, config: Config, ldap: bool, w: Work) {
    && TaxonomyLink(env, t.servers.run, t.taxonomies, config, w.taxonomies, w.sweptTaxonomies, Stale)
    && ListLink(env, t.taxonomies.run, t.lists, config, w.lists, w.sweptLists, Stale + {Taxonomy})
    && w.groups == GroupItems(config)
    && Link(t.lists.run, t.groups.run, w.groups, NoRecord, Stale + {Taxonomy} + {Warninglist} + {NoRecord})
    && DisableLink(t.groups.run, t.sweptUsers, t.users.ok && !ldap, w.sweptUsers, User, NamedUsers(m, config),
                   Stale + {Taxonomy} + {Warninglist} + {NoRecord})
    && DisableLink(t.sweptUsers.run, t.sweptServers, t.servers.ok, w.sweptServers, Server, NamedServers(m, config),
                   Stale + {Taxonomy} + {Warninglist} + {NoRecord} + {User})
  }

  lemma LinkValid(run: Run, run': Run, items: seq<Item>, kind: Kind, stale: set<Kind>)
    requires Link(run, run', items, kind, stale) && run.misp.Valid()
    ensures run'.misp.Valid() && At(run', stale)
  {
  }

  lemma NamedValid(m: Misp, t: Trace, config: Config, w: Work)
    requires m.Valid() && NamedLinks(m, t, config, w)
    ensures At(t.servers.run, Stale)
  {
    hide Fresh, HeldAfter, SeenBut, Link, RoleItems, OrgItems, TagItems, UserItems, ServerItems;
    LinkValid(Fetch(m), t.roles.run, w.roles, Role, {Role});
    LinkValid(t.roles.run, t.orgs.run, w.orgs, Org, {Role, Org});
    LinkValid(t.orgs.run, t.tags.run, w.tags, Tag, {Role, Org});
    LinkValid(t.tags.run, t.users.run, w.users, User, {Role, Org});
    LinkValid(t.users.run, t.servers.run, w.servers, Server, {Role, Org, Server});
  }

  lemma SeenLater(run: Run, run': Run, items: seq<Item>, kind: Kind, stale: set<Kind>, q: Ref)
    requires Link(run, run', items, kind, stale) && q.kind != kind && SeenSame(run, q)
    ensures SeenSame(run', q)
  {
  }

  /** Before the last sweep the snapshot still holds the unnamed servers as they are. */
  lemma ServersSeen(env: Env, m: Misp, t: Trace, config: Config, w: Work, q: Ref)
    requires NamedLinks(m, t, config, w) && q.kind == Server && q !in NamedServers(m, config)
    requires TaxonomyLink(env, t.servers.run, t.taxonomies, config, w.taxonomies, w.sweptTaxonomies, Stale)
    requires ListLink(env, t.taxonomies.run, t.lists, config, w.lists, w.sweptLists, Stale + {Taxonomy})
    requires Link(t.lists.run, t.groups.run, w.groups, NoRecord, Stale + {Taxonomy} + {Warninglist} + {NoRecord})
    requires Link(t.groups.run, t.sweptUsers.run, w.sweptUsers, User,
                  Stale + {Taxonomy} + {Warninglist} + {NoRecord} + {User})
    ensures SeenSame(t.sweptUsers.run, q)
  {
    hide Link, SweepOf, AllHeld, NothingToSweep, Refs, HeldAfter, SeenSame;
    TeamRefs(t.users.run.seen, m.records, config.teams);
    SameRefsTouch(w.servers, ServerItems(m.records, config.teams));
    assert SeenSame(t.servers.run, q) by { UsersFresh(t, w, q); }
    SeenLater(t.servers.run, t.taxonomies.run, w.taxonomies + w.sweptTaxonomies, Taxonomy, Stale + {Taxonomy}, q);
    SeenLater(t.taxonomies.run, t.lists.run, w.lists + w.sweptLists, Warninglist,
              Stale + {Taxonomy} + {Warninglist}, q);
    SeenLater(t.lists.run, t.groups.run, w.groups, NoRecord, Stale + {Taxonomy} + {Warninglist} + {NoRecord}, q);
    SeenLater(t.groups.run, t.sweptUsers.run, w.sweptUsers, User,
              Stale + {Taxonomy} + {Warninglist} + {NoRecord} + {User}, q);
  }

  lemma UsersFresh(t: Trace, w: Work, q: Ref)
    requires Link(t.tags.run, t.users.run, w.users, User, {Role, Org}) && SeenBut(t.users.run, t.servers.run, w.servers)
    requires q.kind == Server && q !in Refs(w.servers)
    ensures SeenSame(t.servers.run, q)
  {
  }

  lemma UsersSeen(run: Run, stale: set<Kind>)
    requires At(run, stale) && User !in stale
    ensures forall q: Ref :: q.kind == User ==> SeenSame(run, q)
  {
  }

  lemma LaterSteps(env: Env, config: Config, ldap: bool, m: Misp, named: Work) returns (w: Work)
    requires m.Valid() && NamedLinks(m, Steps(env, config, ldap, m), config, named)
    ensures var t := Steps(env, config, ldap, m); NamedLinks(m, t, config, w) && LaterLinks(env, m, t, config, ldap, w)
  {
    hide Link, At, Fresh, HeldAfter, SeenBut, SeenSame, SweepOf, AllHeld, NothingToSweep, Refs, Do, DoAndRefresh, Disable,
         ServerStep, TaxonomyStep, ListStep, RoleItems, OrgItems, TagItems, UserItems, ServerItems, GroupItems;
    var t := Steps(env, config, ldap, m);
    NamedValid(m, t, config, named);
    w := named;
    w := w.(groups := GroupItems(config));
    var items, swept := TaxonomyLinked(env, t.servers.run, config, Stale);
    w := w.(taxonomies := items, sweptTaxonomies := swept);
    items, swept := ListLinked(env, t.taxonomies.run, config, Stale + {Taxonomy});
    w := w.(lists := items, sweptLists := swept);
    var stale := Stale + {Taxonomy} + {Warninglist};
    GroupLinked(env, t.lists.run, config, stale);
    UsersSeen(t.groups.run, stale + {NoRecord});
    swept := DisableLinked(env, t.groups.run, t.users.ok && !ldap, User, NamedUsers(m, config), stale + {NoRecord});
    w := w.(sweptUsers := swept);
    forall q: Ref | q.kind == Server && q !in NamedServers(m, config) ensures SeenSame(t.sweptUsers.run, q) {
      ServersSeen(env, m, t, config, w, q);
    }
    swept := DisableLinked(env, t.sweptUsers.run, t.servers.ok, Server, NamedServers(m, config),
                           stale + {NoRecord} + {User});
    w := w.(sweptServers := swept);
  }

  // ---- What a step reached stays reached ----------------------------------------------------

  /** From m to m' only steps over these kinds were made. */
  ghost predicate Later(m: Misp, m': Misp, kinds: set<Kind>) {
    exists items :: Frame(m, m', items) && OfKinds(items, kinds)
  }

  ghost predicate OfKinds(items: seq<Item>, kinds: set<Kind>) { forall i <- items :: ItemRef(i).kind in kinds }

  lemma LinkLater(run: Run, run': Run, items: seq<Item>, kind: Kind, stale: set<Kind>)
    requires Link(run, run', items, kind, stale)
    ensures Later(run.misp, run'.misp, {kind})
    ensures kind != NoRecord ==> GroupsKept(run, run')
  {
    assert OfKinds(items, {kind});
  }

  lemma LaterTrans(m: Misp, m1: Misp, m2: Misp, a: set<Kind>, b: set<Kind>)
    requires Later(m, m1, a) && Later(m1, m2, b)
    ensures Later(m, m2, a + b)
  {
    var x :| Frame(m, m1, x) && OfKinds(x, a);
    var y :| Frame(m1, m2, y) && OfKinds(y, b);
    FrameTrans(m, m1, m2, x, y);
    assert OfKinds(x + y, a + b);
  }

  lemma LaterGrows(m: Misp, m': Misp, kinds: set<Kind>)
    requires Later(m, m', kinds)
    ensures Extends(m.records, m'.records)
  {
  }

  lemma LaterHeld(m: Misp, m': Misp, kinds: set<Kind>, items: seq<Item>, kind: Kind)
    requires Later(m, m', kinds) && AllHeld(m, items) && OfKind(items, kind) && kind !in kinds
    ensures AllHeld(m', items)
  {
    var others :| Frame(m, m', others) && OfKinds(others, kinds);
    forall i | i in items ensures !MayTouch(others, ItemRef(i)) {}
    StillHeld(m, m', others, items);
  }

  lemma LaterSwept(m: Misp, m': Misp, kinds: set<Kind>, kind: Kind, named: set<Ref>)
    requires Later(m, m', kinds) && NothingToSweep(m, kind, named) && kind !in kinds
    ensures NothingToSweep(m', kind, named)
  {
    var others :| Frame(m, m', others) && OfKinds(others, kinds);
    forall q | q in m'.records && q.kind == kind && q !in named ensures !SweepDue(kind, m'.records[q]) {
      assert !MayTouch(others, q);
    }
  }

  /** The kinds of the steps after the servers'. */
  const LateKinds: set<Kind> := {Taxonomy, Warninglist, NoRecord, User, Server}

  lemma Laters(env: Env, m: Misp, t: Trace, config: Config, ldap: bool, w: Work)
    requires NamedLinks(m, t, config, w) && LaterLinks(env, m, t, config, ldap, w)
    ensures var end := t.sweptServers.run.misp;
      && Later(t.roles.run.misp, end, {Org, Tag} + LateKinds)
      && Later(t.orgs.run.misp, end, {Tag} + LateKinds)
      && Later(t.tags.run.misp, end, LateKinds)
      && Later(t.users.run.misp, t.groups.run.misp, LateKinds - {User})
      && Later(t.servers.run.misp, t.sweptUsers.run.misp, LateKinds - {Server})
      && Later(t.taxonomies.run.misp, end, LateKinds - {Taxonomy})
      && Later(t.lists.run.misp, end, {NoRecord, User, Server})
      && Later(t.groups.run.misp, end, {User, Server}) && SameGroups(t.groups.run.misp, end)
      && Later(t.sweptUsers.run.misp, end, {Server})
      && GroupsKept(Fetch(m), t.lists.run)
  {
    hide *;
    StepsLater(env, m, t, config, ldap, w);
    KindSums();
    var (o, g, u, s) := (t.orgs.run.misp, t.tags.run.misp, t.users.run.misp, t.servers.run.misp);
    var (x, l, p, d, end) := (t.taxonomies.run.misp, t.lists.run.misp, t.groups.run.misp, t.sweptUsers.run.misp,
                              t.sweptServers.run.misp);
    LaterTrans(p, d, end, {User}, {Server});
    LaterTrans(l, p, end, {NoRecord}, {User} + {Server});
    LaterTrans(x, l, end, {Warninglist}, {NoRecord} + ({User} + {Server}));
    LaterTrans(s, x, end, {Taxonomy}, {Warninglist} + ({NoRecord} + ({User} + {Server})));
    LaterTrans(u, s, end, {Server}, LateKinds);
    LaterTrans(g, u, end, {User}, LateKinds);
    LaterTrans(o, g, end, {Tag}, LateKinds);
    LaterTrans(t.roles.run.misp, o, end, {Org}, {Tag} + LateKinds);
    LaterTrans(x, l, p, {Warninglist}, {NoRecord});
    LaterTrans(s, x, p, {Taxonomy}, {Warninglist} + {NoRecord});
    LaterTrans(u, s, p, {Server}, {Taxonomy} + ({Warninglist} + {NoRecord}));
    LaterTrans(s, p, d, {Taxonomy} + ({Warninglist} + {NoRecord}), {User});
  }

  lemma KindSums()
    ensures {User} + {Server} == {User, Server}
    ensures {NoRecord} + ({User} + {Server}) == {NoRecord, User, Server}
    ensures {Warninglist} + ({NoRecord} + ({User} + {Server})) == LateKinds - {Taxonomy}
    ensures {Taxonomy} + ({Warninglist} + ({NoRecord} + ({User} + {Server}))) == LateKinds
    ensures {Server} + LateKinds == LateKinds && {User} + LateKinds == LateKinds
    ensures {Org} + ({Tag} + LateKinds) == {Org, Tag} + LateKinds
    ensures {Server} + ({Taxonomy} + ({Warninglist} + {NoRecord})) == LateKinds - {User}
    ensures {Taxonomy} + ({Warninglist} + {NoRecord}) + {User} == LateKinds - {Server}
  {
  }

  lemma StepsLater(env: Env, m: Misp, t: Trace, config: Config, ldap: bool, w: Work)
    requires NamedLinks(m, t, config, w) && LaterLinks(env, m, t, config, ldap, w)
    ensures Later(t.roles.run.misp, t.orgs.run.misp, {Org})
    ensures Later(t.orgs.run.misp, t.tags.run.misp, {Tag})
    ensures Later(t.tags.run.misp, t.users.run.misp, {User})
    ensures Later(t.users.run.misp, t.servers.run.misp, {Server})
    ensures Later(t.servers.run.misp, t.taxonomies.run.misp, {Taxonomy})
    ensures Later(t.taxonomies.run.misp, t.lists.run.misp, {Warninglist})
    ensures Later(t.lists.run.misp, t.groups.run.misp, {NoRecord})
    ensures Later(t.groups.run.misp, t.sweptUsers.run.misp, {User})
    ensures Later(t.sweptUsers.run.misp, t.sweptServers.run.misp, {Server})
    ensures GroupsKept(Fetch(m), t.lists.run) && SameGroups(t.groups.run.misp, t.sweptServers.run.misp)
    ensures Later(m, t.roles.run.misp, {Role})
  {
    hide At, HeldAfter, SeenBut, SweepOf, AllHeld, NothingToSweep, Later, Link, Refs, RoleItems, OrgItems, TagItems,
         UserItems, ServerItems, DistinctRefs, MayTouch;
    var stale := Stale + {Taxonomy} + {Warninglist};
    LinkLater(Fetch(m), t.roles.run, w.roles, Role, {Role});
    LinkLater(t.roles.run, t.orgs.run, w.orgs, Org, {Role, Org});
    LinkLater(t.orgs.run, t.tags.run, w.tags, Tag, {Role, Org});
    LinkLater(t.tags.run, t.users.run, w.users, User, {Role, Org});
    LinkLater(t.users.run, t.servers.run, w.servers, Server, {Role, Org, Server});
    LinkLater(t.servers.run, t.taxonomies.run, w.taxonomies + w.sweptTaxonomies, Taxonomy, Stale + {Taxonomy});
    LinkLater(t.taxonomies.run, t.lists.run, w.lists + w.sweptLists, Warninglist, stale);
    LinkLater(t.lists.run, t.groups.run, w.groups, NoRecord, stale + {NoRecord});
    LinkLater(t.groups.run, t.sweptUsers.run, w.sweptUsers, User, stale + {NoRecord} + {User});
    LinkLater(t.sweptUsers.run, t.sweptServers.run, w.sweptServers, Server,
              stale + {NoRecord} + {User} + {Server});
  }

  lemma ListsValid(env: Env, m: Misp, t: Trace, config: Config, ldap: bool, w: Work)
    requires LaterLinks(env, m, t, config, ldap, w)
    ensures t.lists.run.misp.Valid()
  {
    hide Link, Fresh, SweepOf, AllHeld, NothingToSweep, Refs, DistinctRefs, TaxonomyLink, DisableLink;
  }

  // ---- The end of a run that exits 0 --------------------------------------------------------

  /** The premises of convergence, and what they make of a run. */
  ghost predicate Exits0(env: Env, config: Config, ldap: bool, m: Misp) {
    && m.Valid() && DistinctConfig(config) && !IsEmpty(config)
    && Apply(env, config, ldap, m).1.Ok()
  }

  lemma AllOk(env: Env, config: Config, ldap: bool, m: Misp)
    requires !IsEmpty(config) && Apply(env, config, ldap, m).1.Ok()
    ensures var t := Steps(env, config, ldap, m);
      && t.roles.ok && t.orgs.ok && t.tags.ok && t.users.ok && t.servers.ok && t.taxonomies.ok && t.lists.ok
      && t.groups.ok && t.sweptUsers.ok && t.sweptServers.ok
      && Apply(env, config, ldap, m).0 == t.sweptServers.run.misp
  {
    hide Do, DoAndRefresh, Disable, ServerStep, TagStep, UserStep, LoadStep, SweepStep;
    var t := Steps(env, config, ldap, m);
    assert t.orgs.ok;
    var s := Apply(env, config, ldap, m).1;
    assert s.roles == ReportOf(t.roles) && s.tags == ReportOf(t.tags) && s.users == ReportOf(t.users);
    assert s.servers == ReportOf(t.servers) && s.groups == ReportOf(t.groups);
    assert s.sweptUsers == ReportOf(t.sweptUsers) && s.sweptServers == ReportOf(t.sweptServers);
    assert config.taxonomies.Some? ==> s.taxonomies == ReportOf(t.taxonomies);
    assert config.warninglists.Some? ==> s.lists == ReportOf(t.lists);
  }

  lemma TagsAtEnd(config: Config, seen: Table, m: Misp)
    requires Extends(seen, m.records) && AllHeld(m, TagItems(seen, config))
    ensures TagItems(m.records, config) == TagItems(seen, config)
  {
    HeldHasOrg(m, m.sent, TagItems(seen, config));
    forall i | i in TeamTags(seen, config.teams) ensures HasOrg(i) { assert i in TagItems(seen, config); }
    TeamTagsStable(seen, m.records, config.teams);
  }

  lemma TeamItemsAtEnd(config: Config, seen: Table, m: Misp)
    requires Extends(seen, m.records)
    ensures AllHeld(m, UserItems(seen, config.teams)) ==>
              UserItems(m.records, config.teams) == UserItems(seen, config.teams)
    ensures AllHeld(m, ServerItems(seen, config.teams)) ==>
              ServerItems(m.records, config.teams) == ServerItems(seen, config.teams)
  {
    if AllHeld(m, UserItems(seen, config.teams)) {
      HeldHasOrg(m, m.sent, UserItems(seen, config.teams));
      UsersStable(seen, m.records, config.teams);
    }
    if AllHeld(m, ServerItems(seen, config.teams)) {
      HeldHasOrg(m, m.sent, ServerItems(seen, config.teams));
      ServersStable(seen, m.records, config.teams);
    }
  }

  lemma Distinctness(config: Config, seen: Table)
    requires DistinctConfig(config)
    ensures DistinctRefs(RoleItems(config)) && DistinctRefs(OrgItems(config)) && DistinctRefs(TagItems(seen, config))
    ensures DistinctRefs(UserItems(seen, config.teams)) && DistinctRefs(ServerItems(seen, config.teams))
    ensures DistinctRefs(ListNames(config)) && SyncGroups.DistinctGroups(config.groups)
  {
    TeamRefs(map[], seen, config.teams);
    var global := seq(|config.tags|, i requires 0 <= i < |config.tags| => TagItem(config.tags[i], Some(0)));
    SameRefsConcat(global, global, TeamTags(map[], config.teams), TeamTags(seen, config.teams));
    SameRefsDistinct(TagItems(map[], config), TagItems(seen, config));
    SameRefsDistinct(UserItems(map[], config.teams), UserItems(seen, config.teams));
    SameRefsDistinct(ServerItems(map[], config.teams), ServerItems(seen, config.teams));
  }

  lemma NamedAtEnd(env: Env, config: Config, ldap: bool, m: Misp, w: Work)
    requires Exits0(env, config, ldap, m)
    requires var t := Steps(env, config, ldap, m);
      NamedLinks(m, t, config, w) && LaterLinks(env, m, t, config, ldap, w)
    ensures var end := Apply(env, config, ldap, m).0;
      && AllHeld(end, w.roles) && AllHeld(end, w.orgs) && AllHeld(end, w.tags)
      && AllHeld(end, w.users) && AllHeld(end, w.servers)
  {
    hide Do, DoAndRefresh, Disable, ServerStep, TaxonomyStep, ListStep, Link, SeenBut, SweepOf, AllHeld, Refs, Apply, At,
         RoleItems, OrgItems, TagItems, UserItems, ServerItems, GroupItems, TaxonomyLink, ListLink, NothingToSweep,
         DistinctRefs, Later, Steps;
    var t := Steps(env, config, ldap, m);
    var end := t.sweptServers.run.misp;
    AllOk(env, config, ldap, m);
    Laters(env, m, t, config, ldap, w);
    StepsHeld(m, t, config, w);
    LaterHeld(t.roles.run.misp, end, {Org, Tag} + LateKinds, w.roles, Role);
    LaterHeld(t.orgs.run.misp, end, {Tag} + LateKinds, w.orgs, Org);
    LaterHeld(t.tags.run.misp, end, LateKinds, w.tags, Tag);
    LaterHeld(t.users.run.misp, t.groups.run.misp, LateKinds - {User}, w.users, User);
    LaterHeld(t.servers.run.misp, t.sweptUsers.run.misp, LateKinds - {Server}, w.servers, Server);
    SweptApart(m, t, config, w);
    LinkHeld(t.groups.run, t.sweptUsers.run, w.sweptUsers, User, Stale + {Taxonomy} + {Warninglist} + {NoRecord} + {User}, w.users);
    LaterHeld(t.sweptUsers.run.misp, end, {Server}, w.users, User);
    LinkHeld(t.sweptUsers.run, t.sweptServers.run, w.sweptServers, Server,
             Stale + {Taxonomy} + {Warninglist} + {NoRecord} + {User} + {Server}, w.servers);
  }

  lemma StepsHeld(m: Misp, t: Trace, config: Config, w: Work)
    requires NamedLinks(m, t, config, w) && DistinctConfig(config)
    requires t.roles.ok && t.orgs.ok && t.tags.ok && t.users.ok && t.servers.ok
    ensures AllHeld(t.roles.run.misp, w.roles) && AllHeld(t.orgs.run.misp, w.orgs) && AllHeld(t.tags.run.misp, w.tags)
    ensures AllHeld(t.users.run.misp, w.users) && AllHeld(t.servers.run.misp, w.servers)
    ensures OfKind(w.roles, Role) && OfKind(w.orgs, Org) && OfKind(w.tags, Tag) && OfKind(w.users, User)
    ensures OfKind(w.servers, Server)
  {
    hide Link, SeenBut, AllHeld, RoleItems, OrgItems, TagItems, UserItems, ServerItems, DistinctRefs, DistinctConfig;
    Distinctness(config, t.orgs.run.seen);
    Distinctness(config, t.tags.run.seen);
    Distinctness(config, t.users.run.seen);
    ItemKinds(config, t.orgs.run.seen);
    ItemKinds(config, t.tags.run.seen);
    ItemKinds(config, t.users.run.seen);
  }

  lemma LinkHeld(run: Run, run': Run, swept: seq<Item>, kind: Kind, stale: set<Kind>, items: seq<Item>)
    requires Link(run, run', swept, kind, stale) && AllHeld(run.misp, items)
    requires forall i <- items :: !MayTouch(swept, ItemRef(i))
    ensures AllHeld(run'.misp, items)
  {
    StillHeld(run.misp, run'.misp, swept, items);
  }

  lemma SweptApart(m: Misp, t: Trace, config: Config, w: Work)
    requires NamedLinks(m, t, config, w)
    requires forall q <- NamedUsers(m, config) :: !MayTouch(w.sweptUsers, q)
    requires forall q <- NamedServers(m, config) :: !MayTouch(w.sweptServers, q)
    ensures forall i <- w.users :: !MayTouch(w.sweptUsers, ItemRef(i))
    ensures forall i <- w.servers :: !MayTouch(w.sweptServers, ItemRef(i))
  {
    TeamRefs(t.tags.run.seen, m.records, config.teams);
    TeamRefs(t.users.run.seen, m.records, config.teams);
    SameRefsTouch(w.users, UserItems(m.records, config.teams));
    SameRefsTouch(w.servers, ServerItems(m.records, config.teams));
    forall i | i in w.users ensures ItemRef(i) in NamedUsers(m, config) {}
    forall i | i in w.servers ensures ItemRef(i) in NamedServers(m, config) {}
  }

  lemma {:induction false} DesiredOrgsStable(seen: Table, seen': Table, orgs: seq<OrgRef>)
    requires Extends(seen, seen') && DesiredOrgs(seen, orgs).Some?
    ensures DesiredOrgs(seen', orgs) == DesiredOrgs(seen, orgs)
    decreases orgs
  {
    if orgs != [] { DesiredOrgsStable(seen, seen', orgs[..|orgs| - 1]); }
  }

  lemma GroupStillSettled(m: Misp, m': Misp, seen: Table, def: GroupDef)
    requires GroupSettled(m, def, seen) && SameGroups(m, m') && Extends(seen, m'.records)
    ensures GroupSettled(m', def, m'.records)
  {
    DesiredOrgsStable(seen, m'.records, def.orgs);
  }

  /** The sharing groups at the end of a run that exits 0. */
  lemma GroupsAtEnd(env: Env, config: Config, ldap: bool, m: Misp, w: Work)
    requires Exits0(env, config, ldap, m) && Walks(env)
    requires SyncGroups.DistinctTargets(m.groups, m.groupOrder, config.groups)
    requires var t := Steps(env, config, ldap, m);
      NamedLinks(m, t, config, w) && LaterLinks(env, m, t, config, ldap, w)
    ensures var end := Apply(env, config, ldap, m).0; forall def <- config.groups :: GroupSettled(end, def, end.records)
  {
    hide Do, Each, DoAndRefresh, Disable, ServerStep, TaxonomyStep, ListStep, Link, SeenBut, SweepOf, AllHeld, Refs, Apply,
         At, RoleItems, OrgItems, TagItems, UserItems, ServerItems, TaxonomyLink, ListLink, NothingToSweep,
         DistinctRefs, Later, Steps, GroupSettled, SyncGroups.DistinctTargets, SyncGroups.DistinctGroups;
    var t := Steps(env, config, ldap, m);
    var end := t.sweptServers.run.misp;
    AllOk(env, config, ldap, m);
    Laters(env, m, t, config, ldap, w);
    GroupStep(env, config, ldap, m, w);
    LaterGrows(t.groups.run.misp, end, {User, Server});
    forall def | def in config.groups ensures GroupSettled(end, def, end.records) {
      GroupStillSettled(t.groups.run.misp, end, t.lists.run.seen, def);
    }
  }

  lemma GroupStep(env: Env, config: Config, ldap: bool, m: Misp, w: Work)
    requires Walks(env) && DistinctConfig(config) && Steps(env, config, ldap, m).groups.ok
    requires SyncGroups.DistinctTargets(m.groups, m.groupOrder, config.groups)
    requires var t := Steps(env, config, ldap, m);
      LaterLinks(env, m, t, config, ldap, w) && GroupsKept(Fetch(m), t.lists.run)
    ensures var t := Steps(env, config, ldap, m);
      && (forall def <- config.groups :: GroupSettled(t.groups.run.misp, def, t.lists.run.seen))
      && Extends(t.lists.run.seen, t.groups.run.misp.records)
  {
    hide Each, DoAndRefresh, Disable, ServerStep, TaxonomyStep, ListStep, SeenBut, SweepOf, AllHeld, Refs,
         RoleItems, OrgItems, TagItems, UserItems, ServerItems, TaxonomyLink, DisableLink, NothingToSweep,
         DistinctRefs, Later, GroupSettled, SyncGroups.DistinctTargets, SyncGroups.DistinctGroups, Frame;
    var t := Steps(env, config, ldap, m);
    assert GroupItems(config) == SyncGroups.Items(config.groups);
    SyncGroups.GroupStepSettles(env, t.lists.run, config.groups);
    FrameGrows(t.lists.run, t.groups.run, w.groups);
  }

  lemma FrameGrows(run: Run, run': Run, items: seq<Item>)
    requires Frame(run.misp, run'.misp, items) && Extends(run.seen, run.misp.records)
    ensures Extends(run.seen, run'.misp.records)
  {
  }

  /** The sweeps at the end of a run that exits 0. */
  lemma SweptAtEnd(env: Env, config: Config, ldap: bool, m: Misp, w: Work)
    requires m.Valid() && !IsEmpty(config) && Apply(env, config, ldap, m).1.Ok()
    requires var t := Steps(env, config, ldap, m);
      NamedLinks(m, t, config, w) && LaterLinks(env, m, t, config, ldap, w)
    ensures var end := Apply(env, config, ldap, m).0;
      && (config.taxonomies.Some? ==> NothingToSweep(end, Taxonomy, Refs(TaxonomyNames(config))))
      && (config.warninglists.Some? ==> NothingToSweep(end, Warninglist, Refs(ListNames(config))))
      && (ldap || NothingToSweep(end, User, NamedUsers(m, config)))
      && NothingToSweep(end, Server, NamedServers(m, config))
  {
    hide Do, DoAndRefresh, Disable, ServerStep, TaxonomyStep, ListStep, Link, SeenBut, SweepOf, AllHeld, Refs, Apply, At,
         RoleItems, OrgItems, TagItems, UserItems, ServerItems, GroupItems, NothingToSweep, DistinctRefs, Later, Steps,
         TaxonomyItems, ListItems;
    var t := Steps(env, config, ldap, m);
    var end := t.sweptServers.run.misp;
    AllOk(env, config, ldap, m);
    Laters(env, m, t, config, ldap, w);
    if config.taxonomies.Some? {
      LaterSwept(t.taxonomies.run.misp, end, LateKinds - {Taxonomy}, Taxonomy, Refs(TaxonomyNames(config)));
    }
    if config.warninglists.Some? {
      LaterSwept(t.lists.run.misp, end, {NoRecord, User, Server}, Warninglist, Refs(ListNames(config)));
    }
    if !ldap { LaterSwept(t.sweptUsers.run.misp, end, {Server}, User, NamedUsers(m, config)); }
  }

  /** Taxonomies and warninglists at the end of a run that exits 0. */
  lemma ListsAtEnd(env: Env, config: Config, ldap: bool, m: Misp, w: Work)
    requires Exits0(env, config, ldap, m)
    requires var t := Steps(env, config, ldap, m);
      NamedLinks(m, t, config, w) && LaterLinks(env, m, t, config, ldap, w)
    ensures var end := Apply(env, config, ldap, m).0;
      && (config.taxonomies.Some? ==> AllHeld(end, TaxonomyNames(config)))
      && (config.warninglists.Some? ==> AllHeld(end, ListNames(config)))
  {
    hide Do, DoAndRefresh, Disable, ServerStep, TaxonomyStep, ListStep, Link, SeenBut, SweepOf, AllHeld, Refs, Apply, At,
         RoleItems, OrgItems, TagItems, UserItems, ServerItems, GroupItems, NothingToSweep, DistinctRefs, Later, Steps,
         TaxonomyItems, ListItems;
    var t := Steps(env, config, ldap, m);
    var end := t.sweptServers.run.misp;
    AllOk(env, config, ldap, m);
    Laters(env, m, t, config, ldap, w);
    Distinctness(config, m.records);
    assert OfKind(TaxonomyNames(config), Taxonomy) by { TaxonomyKinds(config); }
    assert OfKind(ListNames(config), Warninglist) by {
      if config.warninglists.Some? { ListItemKinds(config.warninglists.value); }
    }
    if config.taxonomies.Some? {
      LaterHeld(t.taxonomies.run.misp, end, LateKinds - {Taxonomy}, TaxonomyNames(config), Taxonomy);
    }
    if config.warninglists.Some? {
      LaterHeld(t.lists.run.misp, end, {NoRecord, User, Server}, ListNames(config), Warninglist);
    }
  }

  lemma TaxonomyKinds(config: Config)
    ensures OfKind(TaxonomyNames(config), Taxonomy)
  {
  }

  /** Apart from the sharing groups, which no other step looks at, a run that exits 0 leaves all as the file asks. */
  ghost predicate RecordsSettled(m: Misp, config: Config, ldap: bool) {
    Settled(m, config.(groups := []), ldap)
  }

  lemma RecordsConverge(env: Env, config: Config, ldap: bool, m: Misp)
    requires Exits0(env, config, ldap, m)
    ensures RecordsSettled(Apply(env, config, ldap, m).0, config, ldap)
  {
    hide Do, DoAndRefresh, Disable, ServerStep, TaxonomyStep, ListStep, Link, SeenBut, SweepOf, AllHeld, Refs, Apply, At,
         RoleItems, OrgItems, TagItems, UserItems, ServerItems, NothingToSweep, DistinctRefs, Later, Steps, IsEmpty,
         TaxonomyItems, ListItems, GroupItems, GroupSettled, DistinctConfig, TaxonomyLink, ListLink, DisableLink, HeldAfter;
    var t, end := Steps(env, config, ldap, m), Apply(env, config, ldap, m).0;
    var named := NamedSteps(env, config, ldap, m);
    var w := LaterSteps(env, config, ldap, m, named);
    NamedAtEnd(env, config, ldap, m, w);
    ListsAtEnd(env, config, ldap, m, w);
    SweptAtEnd(env, config, ldap, m, w);
    TableGrows(env, config, ldap, m, w);
    TagsAtEnd(config, t.orgs.run.seen, end);
    TeamItemsAtEnd(config, t.tags.run.seen, end);
    TeamItemsAtEnd(config, t.users.run.seen, end);
    TeamRefs(m.records, end.records, config.teams);
    SameRefsTouch(UserItems(m.records, config.teams), UserItems(end.records, config.teams));
    SameRefsTouch(ServerItems(m.records, config.teams), ServerItems(end.records, config.teams));
    SameItems(config, config.(groups := []), end);
  }

  lemma SameItems(config: Config, other: Config, m: Misp)
    requires other == config.(groups := other.groups)
    ensures RoleItems(other) == RoleItems(config) && OrgItems(other) == OrgItems(config)
    ensures TagItems(m.records, other) == TagItems(m.records, config)
  {
  }

  lemma GroupsToo(m: Misp, config: Config, ldap: bool)
    requires RecordsSettled(m, config, ldap)
    ensures Settled(m, config, ldap) <==> forall def <- config.groups :: GroupSettled(m, def, m.records)
  {
    hide AllHeld, NothingToSweep, GroupSettled, UserItems, ServerItems, TaxonomyItems, ListItems, RoleItems, OrgItems,
         TagItems;
    SameItems(config, config.(groups := []), m);
  }

  /** Convergence: a run that exits 0 leaves MISP as the file asks, whatever state it started from. No two
      entries may share a key, and no two sharing groups of the file may find the same group. */
  lemma Converges(env: Env, config: Config, ldap: bool, m: Misp)
    requires Walks(env) && m.Valid() && DistinctConfig(config) && !IsEmpty(config)
    requires SyncGroups.DistinctTargets(m.groups, m.groupOrder, config.groups)
    requires Apply(env, config, ldap, m).1.Ok()
    ensures Settled(Apply(env, config, ldap, m).0, config, ldap)
  {
    hide Apply, Steps, IsEmpty, GroupSettled, DistinctConfig, SyncGroups.DistinctTargets, RecordsSettled, NamedLinks,
         LaterLinks, Settled;
    var named := NamedSteps(env, config, ldap, m);
    var w := LaterSteps(env, config, ldap, m, named);
    RecordsConverge(env, config, ldap, m);
    GroupsAtEnd(env, config, ldap, m, w);
    GroupsToo(Apply(env, config, ldap, m).0, config, ldap);
  }

  lemma TableGrows(env: Env, config: Config, ldap: bool, m: Misp, w: Work)
    requires Exits0(env, config, ldap, m)
    requires var t := Steps(env, config, ldap, m);
      NamedLinks(m, t, config, w) && LaterLinks(env, m, t, config, ldap, w)
    ensures var t, end := Steps(env, config, ldap, m), Apply(env, config, ldap, m).0;
      && Extends(t.orgs.run.seen, end.records) && Extends(t.tags.run.seen, end.records)
      && Extends(t.users.run.seen, end.records)
  {
    hide Do, DoAndRefresh, Disable, ServerStep, TaxonomyStep, ListStep, SeenBut, SweepOf, AllHeld, Refs, Apply, At,
         RoleItems, OrgItems, TagItems, UserItems, ServerItems, NothingToSweep, DistinctRefs, Later, Steps,
         TaxonomyLink, ListLink, DisableLink, HeldAfter, Frame, KeepsSeen, OfKind;
    var t, end := Steps(env, config, ldap, m), Apply(env, config, ldap, m).0;
    AllOk(env, config, ldap, m);
    Laters(env, m, t, config, ldap, w);
    LaterGrows(t.orgs.run.misp, end, {Tag} + LateKinds);
    LaterGrows(t.tags.run.misp, end, LateKinds);
    LaterTrans(t.users.run.misp, t.groups.run.misp, end, LateKinds - {User}, {User, Server});
    LaterGrows(t.users.run.misp, end, (LateKinds - {User}) + {User, Server});
  }

  /** The run after a run that exits 0 only reads, under any oracle of its own. */
  lemma SecondRunOnlyReads(env: Env, again: Env, config: Config, ldap: bool, m: Misp)
    requires Walks(env) && Walks(again) && m.Valid() && DistinctConfig(config)
    requires SyncGroups.DistinctTargets(m.groups, m.groupOrder, config.groups)
    requires Apply(env, config, ldap, m).1.Ok()
    ensures var (m', summary) := Apply(env, config, ldap, m);
      var (m'', summary') := Apply(again, config, ldap, m');
      m'' == m' && summary'.Ok()
  {
    hide Steps, Settled, DistinctConfig, SyncGroups.DistinctTargets;
    if !IsEmpty(config) {
      Converges(env, config, ldap, m);
      SyncWarm.WarmRunOnlyReads(again, config, ldap, Apply(env, config, ldap, m).0);
    }
  }

  /** A run that succeeds without a post is one over a settled MISP, and the other way round. */
  lemma QuietIffSettled(env: Env, config: Config, ldap: bool, m: Misp)
    requires Walks(env) && m.Valid() && DistinctConfig(config) && !IsEmpty(config)
    requires SyncGroups.DistinctTargets(m.groups, m.groupOrder, config.groups)
    ensures Settled(m, config, ldap) <==>
            var (m', summary) := Apply(env, config, ldap, m); m' == m && summary.Ok()
  {
    hide Apply, Settled, DistinctConfig, SyncGroups.DistinctTargets;
    if Settled(m, config, ldap) { SyncWarm.WarmRunOnlyReads(env, config, ldap, m); }
    if Apply(env, config, ldap, m).0 == m && Apply(env, config, ldap, m).1.Ok() { Converges(env, config, ldap, m); }
  }
}
