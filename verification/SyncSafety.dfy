/** What a run may post and change, whichever of its posts MISP refuses. */
module SyncSafety {
  import opened Values
  import opened MispWorld
  import opened SharingGroups
  import opened SyncItems
  import opened SyncSteps
  import opened SyncRun
  import opened SyncSwept
  import opened SyncLinks
  import opened SyncConverge
  import opened SyncGroupPosts
  import SyncGroups

  /** The entries of the file, as the steps that the run reached resolve them. */
  function NamedItems(config: Config, t: Trace): seq<Item> {
    RoleItems(config) + OrgItems(config) +
    if !t.orgs.ok then [] else
      TagItems(t.orgs.run.seen, config) + UserItems(t.tags.run.seen, config.teams)
      + ServerItems(t.users.run.seen, config.teams) + TaxonomyNames(config) + ListNames(config) + GroupItems(config)
  }

  /** The step of the named records of a kind ran, and no item of it failed. */
  predicate StepSucceeded(env: Env, config: Config, ldap: bool, t: Trace, kind: Kind) {
    match kind
    case User => t.users.ok && !ldap
    case Server => t.servers.ok
    case Taxonomy => config.taxonomies.Some? && LoadAndEnable(env, t.servers.run, config.taxonomies.value).ok
    case Warninglist => config.warninglists.Some? && Do(env, t.taxonomies.run, ListNames(config)).ok
    case _ => false
  }

  function NamedOf(config: Config, m: Misp, kind: Kind): set<Ref> {
    match kind
    case User => NamedUsers(m, config)
    case Server => NamedServers(m, config)
    case Taxonomy => Refs(TaxonomyNames(config))
    case Warninglist => Refs(ListNames(config))
    case _ => {}
  }

  /** A record that the run may disable: the file does not name it, it was due when the run began, and the
      step of its kind succeeded. */
  ghost predicate MaySweep(env: Env, config: Config, ldap: bool, m: Misp, q: Ref) {
    var t := Steps(env, config, ldap, m);
    && t.orgs.ok
    && q in m.records && SweepDue(q.kind, m.records[q])
    && q !in NamedOf(config, m, q.kind)
    && StepSucceeded(env, config, ldap, t, q.kind)
  }

  /** What a run applies the sharing groups of the file against. */
  function RunView(env: Env, config: Config, ldap: bool, m: Misp): View {
    View(m.groups, m.groupOrder, Steps(env, config, ldap, m).lists.run.seen)
  }

  /** A post about a record of the file, or one that disables a record that may be; or a post of a sharing group
      of the file, to the group it means and as it asks. */
  ghost predicate Legitimate(env: Env, config: Config, ldap: bool, m: Misp, p: Post) {
    if GroupPost(p) then
      Steps(env, config, ldap, m).orgs.ok && PostOfOne(RunView(env, config, ldap, m), config.groups, p)
    else
      || Targeted(NamedItems(config, Steps(env, config, ldap, m)), p)
      || (p.Edit? && MaySweep(env, config, ldap, m, p.ref) && p.fields == SweepFields(p.ref.kind))
  }

  // ---- The run as one frame ----------------------------------------------------------------

  function Early(w: Work): seq<Item> { w.roles + w.orgs }

  function Everything(w: Work): seq<Item> {
    w.roles + w.orgs + w.tags + w.users + w.servers + (w.taxonomies + w.sweptTaxonomies) + (w.lists + w.sweptLists)
    + w.groups + w.sweptUsers + w.sweptServers
  }

  lemma LinkFrame(m: Misp, run: Run, run': Run, before: seq<Item>, items: seq<Item>, kind: Kind, stale: set<Kind>)
    requires Frame(m, run.misp, before) && Link(run, run', items, kind, stale)
    ensures Frame(m, run'.misp, before + items)
  {
    FrameTrans(m, run.misp, run'.misp, before, items);
  }

  lemma FirstFrame(m: Misp, t: Trace, config: Config, w: Work)
    requires NamedLinks(m, t, config, w)
    ensures Frame(m, t.roles.run.misp, w.roles) && Frame(m, t.orgs.run.misp, Early(w))
  {
    hide SeenBut, HeldAfter, RoleItems, OrgItems, TagItems, UserItems, ServerItems;
    LinkFrame(m, t.roles.run, t.orgs.run, w.roles, w.orgs, Org, {Role, Org});
  }

  lemma WholeFrame(env: Env, m: Misp, t: Trace, config: Config, ldap: bool, w: Work)
    requires NamedLinks(m, t, config, w) && LaterLinks(env, m, t, config, ldap, w)
    ensures Frame(m, t.sweptServers.run.misp, Everything(w))
  {
    hide SeenBut, HeldAfter, RoleItems, OrgItems, TagItems, UserItems, ServerItems, Frame, Link, AllHeld, SweepOf,
         NothingToSweep, Refs, MayTouch, At, DistinctRefs;
    FirstFrame(m, t, config, w);
    var so_far := Early(w);
    LinkFrame(m, t.orgs.run, t.tags.run, so_far, w.tags, Tag, {Role, Org});
    so_far := so_far + w.tags;
    LinkFrame(m, t.tags.run, t.users.run, so_far, w.users, User, {Role, Org});
    so_far := so_far + w.users;
    LinkFrame(m, t.users.run, t.servers.run, so_far, w.servers, Server, {Role, Org, Server});
    so_far := so_far + w.servers;
    var stale := Stale + {Taxonomy};
    LinkFrame(m, t.servers.run, t.taxonomies.run, so_far, w.taxonomies + w.sweptTaxonomies, Taxonomy, stale);
    so_far := so_far + (w.taxonomies + w.sweptTaxonomies);
    LinkFrame(m, t.taxonomies.run, t.lists.run, so_far, w.lists + w.sweptLists, Warninglist, stale + {Warninglist});
    so_far := so_far + (w.lists + w.sweptLists);
    stale := stale + {Warninglist} + {NoRecord};
    LinkFrame(m, t.lists.run, t.groups.run, so_far, w.groups, NoRecord, stale);
    so_far := so_far + w.groups;
    LinkFrame(m, t.groups.run, t.sweptUsers.run, so_far, w.sweptUsers, User, stale + {User});
    so_far := so_far + w.sweptUsers;
    LinkFrame(m, t.sweptUsers.run, t.sweptServers.run, so_far, w.sweptServers, Server, stale + {User} + {Server});
  }

  // ---- A record due for a sweep was due when the run began -----------------------------------

  /** The record is as it was, if it is there. */
  ghost predicate Spared(m: Misp, m': Misp, q: Ref) {
    q in m'.records ==> q in m.records && m.records[q] == m'.records[q]
  }

  lemma LinkSpares(run: Run, run': Run, items: seq<Item>, kind: Kind, stale: set<Kind>, q: Ref)
    requires Link(run, run', items, kind, stale) && (q.kind != kind || !MayTouch(items, q))
    ensures Spared(run.misp, run'.misp, q)
  {
  }

  lemma NamedSpare(m: Misp, t: Trace, config: Config, w: Work, q: Ref)
    requires NamedLinks(m, t, config, w) && q.kind in {User, Server, Taxonomy, Warninglist}
    requires q !in NamedOf(config, m, q.kind)
    ensures Spared(m, t.servers.run.misp, q)
  {
    hide SeenBut, HeldAfter, Link, AllHeld, MayTouch, Frame;
    TeamRefs(t.tags.run.seen, m.records, config.teams);
    TeamRefs(t.users.run.seen, m.records, config.teams);
    SameRefsTouch(w.users, UserItems(m.records, config.teams));
    SameRefsTouch(w.servers, ServerItems(m.records, config.teams));
    LinkSpares(Fetch(m), t.roles.run, w.roles, Role, {Role}, q);
    LinkSpares(t.roles.run, t.orgs.run, w.orgs, Org, {Role, Org}, q);
    LinkSpares(t.orgs.run, t.tags.run, w.tags, Tag, {Role, Org}, q);
    LinkSpares(t.tags.run, t.users.run, w.users, User, {Role, Org}, q);
    LinkSpares(t.users.run, t.servers.run, w.servers, Server, {Role, Org, Server}, q);
  }

  lemma LaterSpare(env: Env, m: Misp, t: Trace, config: Config, ldap: bool, w: Work, q: Ref)
    requires NamedLinks(m, t, config, w) && LaterLinks(env, m, t, config, ldap, w)
    requires q !in NamedOf(config, m, q.kind) && q.kind in {User, Server, Taxonomy, Warninglist}
    ensures Spared(m, t.servers.run.misp, q)
    ensures q.kind != Taxonomy ==> Spared(m, t.taxonomies.run.misp, q)
    ensures q.kind in {User, Server} ==> Spared(m, t.groups.run.misp, q)
    ensures q.kind == Server ==> Spared(m, t.sweptUsers.run.misp, q)
  {
    hide SeenBut, HeldAfter, Link, AllHeld, MayTouch, Frame, NamedOf, SweepOf, NothingToSweep, At, Refs;
    NamedSpare(m, t, config, w, q);
    var stale := Stale + {Taxonomy};
    if q.kind != Taxonomy {
      LinkSpares(t.servers.run, t.taxonomies.run, w.taxonomies + w.sweptTaxonomies, Taxonomy, stale, q);
    }
    if q.kind in {User, Server} {
      LinkSpares(t.taxonomies.run, t.lists.run, w.lists + w.sweptLists, Warninglist, stale + {Warninglist}, q);
      LinkSpares(t.lists.run, t.groups.run, w.groups, NoRecord, stale + {Warninglist} + {NoRecord}, q);
    }
    if q.kind == Server {
      LinkSpares(t.groups.run, t.sweptUsers.run, w.sweptUsers, User, stale + {Warninglist} + {NoRecord} + {User}, q);
    }
  }

  function AllSwept(w: Work): seq<Item> { w.sweptTaxonomies + w.sweptLists + w.sweptUsers + w.sweptServers }

  ghost predicate SweepsOnly(env: Env, config: Config, ldap: bool, m: Misp, i: Item) {
    i.Sweep? && i.fields == SweepFields(i.ref.kind) && MaySweep(env, config, ldap, m, i.ref)
  }

  lemma SweepsAreDue(env: Env, config: Config, ldap: bool, m: Misp, w: Work)
    requires var t := Steps(env, config, ldap, m);
      NamedLinks(m, t, config, w) && LaterLinks(env, m, t, config, ldap, w) && t.orgs.ok
    ensures forall i <- AllSwept(w) :: SweepsOnly(env, config, ldap, m, i)
  {
    hide Steps, NamedLinks, Link, At, SweepDue, LoadAndEnable, Do, AllHeld, NothingToSweep, Refs, ListNames, TaxonomyNames;
    var t := Steps(env, config, ldap, m);
    forall i | i in AllSwept(w) ensures SweepsOnly(env, config, ldap, m, i) {
      LaterSpare(env, m, t, config, ldap, w, i.ref);
    }
  }

  // ---- The theorem -------------------------------------------------------------------------

  /** The records a run may touch: those the file names, those a sweep may disable, and the taxonomies that a
      load may bring in. */
  lemma WorkIs(env: Env, config: Config, ldap: bool, m: Misp, w: Work, i: Item)
    requires var t := Steps(env, config, ldap, m);
      NamedLinks(m, t, config, w) && LaterLinks(env, m, t, config, ldap, w) && t.orgs.ok
    requires i in Everything(w)
    ensures i in NamedItems(config, Steps(env, config, ldap, m)) || SweepsOnly(env, config, ldap, m, i)
            || (i.Loaded? && i in LoadedItems(env.shipped))
  {
    hide Steps, Link, At, SweepDue, LoadAndEnable, Do, AllHeld, NothingToSweep, Refs, SweepsOnly, SweepOf, DistinctRefs,
         RoleItems, OrgItems, TagItems, UserItems, ServerItems, GroupItems, TaxonomyItems, ListItems, HeldAfter;
    SweepsAreDue(env, config, ldap, m, w);
    if i in LoadedItems(env.shipped) {}
  }

  ghost predicate MayGo(env: Env, config: Config, ldap: bool, m: Misp, work: seq<Item>) {
    forall i <- work ::
      || i in NamedItems(config, Steps(env, config, ldap, m)) || SweepsOnly(env, config, ldap, m, i)
      || (i.Loaded? && i in LoadedItems(env.shipped))
  }

  lemma RunWork(env: Env, config: Config, ldap: bool, m: Misp) returns (work: seq<Item>)
    requires m.Valid() && !IsEmpty(config)
    ensures Frame(m, Apply(env, config, ldap, m).0, work) && MayGo(env, config, ldap, m, work)
  {
    hide Steps, Link, At, LoadAndEnable, Do, Frame, NamedLinks, LaterLinks, SweepsOnly;
    var t := Steps(env, config, ldap, m);
    var named := NamedSteps(env, config, ldap, m);
    FirstFrame(m, t, config, named);
    if t.orgs.ok {
      var w := LaterSteps(env, config, ldap, m, named);
      WholeFrame(env, m, t, config, ldap, w);
      work := Everything(w);
      forall i | i in work { WorkIs(env, config, ldap, m, w, i); }
    } else {
      work := Early(named);
      EarlyIs(m, t, config, named);
    }
  }

  lemma EarlyIs(m: Misp, t: Trace, config: Config, w: Work)
    requires NamedLinks(m, t, config, w)
    ensures forall i <- Early(w) :: i in NamedItems(config, t)
  {
    hide Link, HeldAfter, SeenBut;
  }

  // ---- The posts of the sharing groups -------------------------------------------------------

  lemma LaterPosts(m: Misp, m': Misp, kinds: set<Kind>)
    requires Later(m, m', kinds) && NoRecord !in kinds
    ensures m.posts <= m'.posts
    ensures forall i :: |m.posts| <= i < |m'.posts| ==> !GroupPost(m'.posts[i])
  {
    var items :| Frame(m, m', items) && OfKinds(items, kinds);
    forall i | |m.posts| <= i < |m'.posts| ensures !GroupPost(m'.posts[i]) {
      assert Targeted(items, m'.posts[i]);
      var item :| item in items && TargetedBy(item, m'.posts[i]);
      assert ItemRef(item).kind in kinds;
    }
  }

  const EarlyKinds: set<Kind> := {Role, Org, Tag, User, Server, Taxonomy, Warninglist}

  /** Up to the sharing groups a run makes no step over them. */
  lemma BeforeGroups(env: Env, m: Misp, t: Trace, config: Config, ldap: bool, w: Work)
    requires NamedLinks(m, t, config, w) && LaterLinks(env, m, t, config, ldap, w)
    ensures Later(m, t.orgs.run.misp, {Role} + {Org})
    ensures Later(m, t.lists.run.misp, EarlyKinds)
  {
    hide *;
    StepsLater(env, m, t, config, ldap, w);
    LaterTrans(m, t.roles.run.misp, t.orgs.run.misp, {Role}, {Org});
    LaterTrans(m, t.orgs.run.misp, t.tags.run.misp, {Role} + {Org}, {Tag});
    LaterTrans(m, t.tags.run.misp, t.users.run.misp, {Role} + {Org} + {Tag}, {User});
    LaterTrans(m, t.users.run.misp, t.servers.run.misp, {Role} + {Org} + {Tag} + {User}, {Server});
    LaterTrans(m, t.servers.run.misp, t.taxonomies.run.misp, {Role} + {Org} + {Tag} + {User} + {Server}, {Taxonomy});
    LaterTrans(m, t.taxonomies.run.misp, t.lists.run.misp, {Role} + {Org} + {Tag} + {User} + {Server} + {Taxonomy},
               {Warninglist});
    EarlySum();
  }

  lemma EarlySum()
    ensures {Role} + {Org} + {Tag} + {User} + {Server} + {Taxonomy} + {Warninglist} == EarlyKinds
    ensures NoRecord !in EarlyKinds && NoRecord !in {Role} + {Org} && NoRecord !in {User, Server}
  {
  }

  /** The group step of a run starts from the groups that MISP had. */
  lemma GroupStart(env: Env, config: Config, ldap: bool, m: Misp, w: Work)
    requires m.Valid()
    requires var t := Steps(env, config, ldap, m);
      NamedLinks(m, t, config, w) && LaterLinks(env, m, t, config, ldap, w)
    ensures var run := Steps(env, config, ldap, m).lists.run;
      && ViewOf(run) == RunView(env, config, ldap, m) && Ready(run) && run.groups == run.misp.groups
      && Steps(env, config, ldap, m).groups.run == Each(env, run, SyncGroups.Items(config.groups)).0
  {
    hide Each, DoAndRefresh, Disable, ServerStep, TaxonomyStep, ListStep, TagStep, UserStep, TaxonomyLink, DisableLink,
         Link, AllHeld, SweepOf, NothingToSweep, DistinctRefs, Later, Steps, Refs, SyncUnique.Found;
    var t := Steps(env, config, ldap, m);
    Laters(env, m, t, config, ldap, w);
    SyncUnique.GroupsRun(env, config, ldap, m);
    ListsValid(env, m, t, config, ldap, w);
    ReadyStart(m, t.lists.run);
  }

  lemma ReadyStart(m: Misp, run: Run)
    requires GroupsKept(Fetch(m), run) && run.misp.Valid()
    ensures Ready(run) && run.groups == run.misp.groups == m.groups && run.groupOrder == m.groupOrder
  {
  }

  /** Every post about a sharing group is that of an entry, to the group it means and as it asks. */
  lemma GroupPostsAre(env: Env, config: Config, ldap: bool, m: Misp, k: nat)
    requires Walks(env) && m.Valid() && !IsEmpty(config)
    requires var m' := Apply(env, config, ldap, m).0; |m.posts| <= k < |m'.posts| && GroupPost(m'.posts[k])
    ensures var m' := Apply(env, config, ldap, m).0; var t := Steps(env, config, ldap, m);
      t.orgs.ok && PostOfOne(RunView(env, config, ldap, m), config.groups, m'.posts[k])
  {
    hide Steps, Link, At, Do, Frame, NamedLinks, LaterLinks, GroupPost, IsEmpty, Later, RunView, Each, Ready;
    var t, m' := Steps(env, config, ldap, m), Apply(env, config, ldap, m).0;
    var named := NamedSteps(env, config, ldap, m);
    var w := LaterSteps(env, config, ldap, m, named);
    BeforeGroups(env, m, t, config, ldap, w);
    EarlySum();
    LaterPosts(m, t.orgs.run.misp, {Role} + {Org});
    if t.orgs.ok {
      LaterPosts(m, t.lists.run.misp, EarlyKinds);
      Laters(env, m, t, config, ldap, w);
      LaterPosts(t.groups.run.misp, m', {User, Server});
      GroupStart(env, config, ldap, m, w);
      StepPosts(env, t.lists.run, config.groups);
      assert t.lists.run.misp.posts <= t.groups.run.misp.posts <= m'.posts;
    }
  }

  lemma LegitimateIn(env: Env, config: Config, ldap: bool, m: Misp, work: seq<Item>, p: Post)
    requires MayGo(env, config, ldap, m, work) && Targeted(work, p) && !GroupPost(p)
    ensures Legitimate(env, config, ldap, m, p)
  {
    hide Steps, NamedItems, MaySweep;
    var i :| i in work && TargetedBy(i, p);
  }

  lemma FieldIn(env: Env, config: Config, ldap: bool, m: Misp, work: seq<Item>, q: Ref, f: string)
    requires MayGo(env, config, ldap, m, work) && MayEdit(work, q, f)
    ensures MayEdit(NamedItems(config, Steps(env, config, ldap, m)), q, f)
            || (MaySweep(env, config, ldap, m, q) && f in SweepFields(q.kind))
  {
    hide Steps, NamedItems, MaySweep;
    var i :| i in work && ItemRef(i) == q && f in EditKeys(i);
  }

  lemma RecordIn(env: Env, config: Config, ldap: bool, m: Misp, work: seq<Item>, q: Ref)
    requires MayGo(env, config, ldap, m, work) && MayTouch(work, q) && q !in m.records
    ensures MayTouch(NamedItems(config, Steps(env, config, ldap, m)), q) || (q.kind == Taxonomy && q.key in env.shipped)
  {
    hide Steps, NamedItems, NamedOf, StepSucceeded;
    var i :| i in work && ItemRef(i) == q;
  }

  /** Fail-safety: whichever posts MISP refuses, every post of a run is about a record of the file, or disables a
      record that was due when the run began, that the file does not name, and of whose kind every named item
      succeeded, or is that of a sharing group of the file, to the group it means. After a failed organisations
      step there is none but the roles' and organisations'. */
  lemma EveryPostIsLegitimate(env: Env, config: Config, ldap: bool, m: Misp)
    requires Walks(env) && m.Valid() && !IsEmpty(config)
    ensures var m' := Apply(env, config, ldap, m).0;
      && m.posts <= m'.posts
      && forall k :: |m.posts| <= k < |m'.posts| ==> Legitimate(env, config, ldap, m, m'.posts[k])
  {
    hide Steps, Apply, NamedItems, MayGo, Legitimate, Targeted, GroupPost, RunView;
    var m' := Apply(env, config, ldap, m).0;
    var work := RunWork(env, config, ldap, m);
    forall k | |m.posts| <= k < |m'.posts| ensures Legitimate(env, config, ldap, m, m'.posts[k]) {
      if GroupPost(m'.posts[k]) {
        GroupPostsAre(env, config, ldap, m, k);
        GroupLegitimate(env, config, ldap, m, m'.posts[k]);
      } else {
        LegitimateIn(env, config, ldap, m, work, m'.posts[k]);
      }
    }
  }

  lemma GroupLegitimate(env: Env, config: Config, ldap: bool, m: Misp, p: Post)
    requires GroupPost(p) && Steps(env, config, ldap, m).orgs.ok
    requires PostOfOne(RunView(env, config, ldap, m), config.groups, p)
    ensures Legitimate(env, config, ldap, m, p)
  {
    hide Steps, RunView;
  }

  /** Whatever MISP refuses: of each sharing group that MISP had, a run changes only the fields that an entry which
      finds it sets, and only the members that such an entry wants otherwise; every other group is the new one of
      an entry, with that entry's fields. */
  lemma GroupsStayWithin(env: Env, config: Config, ldap: bool, m: Misp)
    requires Walks(env) && m.Valid() && !IsEmpty(config)
    ensures Bounded(RunView(env, config, ldap, m), Apply(env, config, ldap, m).0, config.groups)
  {
    hide Steps, Link, At, Do, Frame, NamedLinks, LaterLinks, IsEmpty, Later, Each, Ready, SetsField, SetsMember,
         Creates;
    var t, m' := Steps(env, config, ldap, m), Apply(env, config, ldap, m).0;
    var named := NamedSteps(env, config, ldap, m);
    var w := LaterSteps(env, config, ldap, m, named);
    if t.orgs.ok {
      Laters(env, m, t, config, ldap, w);
      GroupStart(env, config, ldap, m, w);
      BoundsStart(t.lists.run);
      StepBounds(env, t.lists.run, [], config.groups);
      assert [] + config.groups == config.groups;
    } else {
      OrgsKeepGroups(m, t, config, named);
    }
  }

  lemma OrgsKeepGroups(m: Misp, t: Trace, config: Config, w: Work)
    requires NamedLinks(m, t, config, w)
    ensures SameGroups(m, t.orgs.run.misp)
  {
    hide Fresh, HeldAfter, SeenBut, Frame, OfKind, KeepsSeen, RoleItems, OrgItems, TagItems, UserItems, ServerItems;
  }

  /** What a run leaves alone: the records that the file does not name and no sweep may disable; of a named
      record, the fields that its entry does not set; of a swept one, all but the fields that disable it. */
  lemma RunLeavesAlone(env: Env, config: Config, ldap: bool, m: Misp, q: Ref, f: string)
    requires m.Valid() && !IsEmpty(config)
    ensures var m', named := Apply(env, config, ldap, m).0, NamedItems(config, Steps(env, config, ldap, m));
      && (q in m.records ==> q in m'.records && m'.records[q].id == m.records[q].id)
      && (q in m.records && !MayEdit(named, q, f)
          && !(MaySweep(env, config, ldap, m, q) && f in SweepFields(q.kind)) ==>
            SameField(m.records[q], m'.records[q], f))
      && (q in m'.records && q !in m.records && !MayTouch(named, q) ==> q.kind == Taxonomy && q.key in env.shipped)
  {
    hide Steps, Apply, NamedItems, MaySweep, MayTouch, MayEdit, MayGo, Targeted;
    var work := RunWork(env, config, ldap, m);
    if MayEdit(work, q, f) { FieldIn(env, config, ldap, m, work, q, f); }
    if MayTouch(work, q) && q !in m.records { RecordIn(env, config, ldap, m, work, q); }
  }

  /** A user that is the first, has an OIDC subject or external auth and is not in the file is left as it is. */
  lemma ProtectedUsers(env: Env, config: Config, ldap: bool, m: Misp, q: Ref)
    requires m.Valid() && !IsEmpty(config) && q.kind == User && q in m.records
    requires !MayTouch(NamedItems(config, Steps(env, config, ldap, m)), q)
    requires var r := m.records[q];
      ldap || r.id == 1 || Field(r.fields, "sub").Truthy() || ValuesEqual(Bool(true), Field(r.fields, "external_auth_required"))
    ensures var m' := Apply(env, config, ldap, m).0; q in m'.records && m'.records[q] == m.records[q]
  {
    NotSwept(env, config, ldap, m, q);
    Untouched(env, config, ldap, m, q);
  }

  lemma NotSwept(env: Env, config: Config, ldap: bool, m: Misp, q: Ref)
    requires q.kind == User && q in m.records
    requires var r := m.records[q];
      ldap || r.id == 1 || Field(r.fields, "sub").Truthy() || ValuesEqual(Bool(true), Field(r.fields, "external_auth_required"))
    ensures !MaySweep(env, config, ldap, m, q)
  {
    hide Steps, Field, ValuesEqual;
  }

  /** A record that the file does not name and no sweep may disable stays as it is. */
  lemma Untouched(env: Env, config: Config, ldap: bool, m: Misp, q: Ref)
    requires m.Valid() && !IsEmpty(config) && q in m.records
    requires !MayTouch(NamedItems(config, Steps(env, config, ldap, m)), q) && !MaySweep(env, config, ldap, m, q)
    ensures var m' := Apply(env, config, ldap, m).0; q in m'.records && m'.records[q] == m.records[q]
  {
    hide Steps, Apply, NamedItems, MaySweep, SameField;
    var m', named := Apply(env, config, ldap, m).0, NamedItems(config, Steps(env, config, ldap, m));
    forall f ensures q in m'.records && SameField(m.records[q], m'.records[q], f) {
      EditTouches(named, q, f);
      RunLeavesAlone(env, config, ldap, m, q, f);
    }
    RunLeavesAlone(env, config, ldap, m, q, "");
    SameRecord(m.records[q], m'.records[q]);
  }

  lemma EditTouches(items: seq<Item>, q: Ref, f: string)
    ensures MayEdit(items, q, f) ==> MayTouch(items, q)
  {
  }

  lemma SameRecord(a: Record, b: Record)
    requires a.id == b.id && forall f :: SameField(a, b, f)
    ensures a == b
  {
    forall f ensures f in a.fields <==> f in b.fields { assert SameField(a, b, f); }
    forall f | f in a.fields ensures a.fields[f] == b.fields[f] { assert SameField(a, b, f); }
    assert a.fields == b.fields;
  }
}
