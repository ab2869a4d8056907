/** Every step that a run reaches attempts every item of it, whichever posts MISP refuses. */
module SyncAttempts {
  import opened Values
  import opened MispWorld
  import opened SharingGroups
  import opened SyncItems
  import opened SyncSteps
  import opened SyncPosts
  import opened SyncRun
  import opened SyncSwept
  import opened SyncLinks
  import opened SyncConverge
  import SyncGroups
  import SyncGroupPosts
  import SyncSafety
  import SyncWarm

  /** From start to m' each item was posted about exactly if its names resolve and its record differed. */
  ghost predicate Attempted(start: Run, m': Misp, items: seq<Item>) {
    forall k :: 0 <= k < |items| ==>
      (PostedAbout(start.misp, m', ItemRef(items[k]))
       <==> Resolves(start.seen, items[k]) && Differs(start.misp, start.sent, items[k]))
  }

  /** From start to m' exactly the unnamed records that were due were posted about. */
  ghost predicate SweptAll(start: Misp, m': Misp, kind: Kind, named: set<Ref>) {
    forall q :: PostedAbout(start, m', q) <==>
      q.kind == kind && q !in named && q in start.records && SweepDue(kind, start.records[q])
  }

  // ---- One step ----------------------------------------------------------------------------

  lemma StepAttempts(env: Env, run: Run, items: seq<Item>, kind: Kind, stale: set<Kind>)
    requires Fresh(run, stale) && kind !in stale && kind != NoRecord && OfKind(items, kind) && DistinctRefs(items)
    requires forall i <- items :: !i.Loaded?
    ensures Attempted(run, Do(env, run, items).run.misp, items)
  {
    hide Each, PostedAbout, Resolves, Differs;
    forall i | i in items ensures SeenAt(run, i) && !i.GroupItem? { assert ItemRef(i).kind == kind; }
    assert OneSort(items) by { KindsApart(items, kind); }
    forall k | 0 <= k < |items|
      ensures PostedAbout(run.misp, Each(env, run, items).0.misp, ItemRef(items[k]))
              <==> Resolves(run.seen, items[k]) && Differs(run.misp, run.sent, items[k])
    {
      EachAttempts(env, run, items, k);
    }
  }

  lemma KindsApart(items: seq<Item>, kind: Kind)
    requires OfKind(items, kind)
    ensures OneSort(items)
  {
    forall i | i in items ensures i.ListItem? ==> kind == Warninglist {}
    forall i | i in items ensures i.Reconciled() ==> kind != Warninglist {}
  }

  lemma PostsOnly(m: Misp, m1: Misp, m2: Misp, ref: Ref)
    requires m1.posts == m2.posts
    ensures PostedAbout(m, m1, ref) <==> PostedAbout(m, m2, ref)
  {
  }

  lemma SamePosts(start: Run, m1: Misp, m2: Misp, items: seq<Item>)
    requires Attempted(start, m1, items) && m1.posts == m2.posts
    ensures Attempted(start, m2, items)
  {
    hide Resolves, Differs, PostedAbout;
    forall k | 0 <= k < |items| { PostsOnly(start.misp, m1, m2, ItemRef(items[k])); }
  }

  /** Taxonomies, whose names may repeat: a record is posted about exactly if an item names it and the snapshot
      has it disabled. */
  lemma {:induction false} EnablesPost(env: Env, run: Run, items: seq<Item>, q: Ref)
    requires forall i <- items :: i.Enable?
    ensures var run' := Each(env, run, items).0;
      && run.misp.posts <= run'.misp.posts
      && (PostedAbout(run.misp, run'.misp, q) <==>
            MayTouch(items, q) && q in run.seen && !SyncItems.Enabled(run.seen[q].fields))
    decreases items
  {
    hide PostedAbout, ApplyOne, MayTouch;
    if items == [] {
      NoPosts(run.misp, q);
    } else {
      var first, rest := items[0], items[1..];
      var run1 := ApplyOne(env, run, first).0;
      assert first in items;
      EnablePosts(env, run, first, q);
      EnablesPost(env, run1, rest, q);
      PostedSum(run.misp, run1.misp, Each(env, run1, rest).0.misp, q);
      assert items == [first] + rest;
      TouchSum([first], rest, q);
      Single(first, q, "", LoadTaxonomies);
    }
  }

  lemma NoPosts(m: Misp, q: Ref)
    ensures !PostedAbout(m, m, q) && !MayTouch([], q)
  {
  }

  lemma EnablePosts(env: Env, run: Run, item: Item, q: Ref)
    requires item.Enable?
    ensures var run1 := ApplyOne(env, run, item).0;
      && run1.seen == run.seen && run.misp.posts <= run1.misp.posts
      && (PostedAbout(run.misp, run1.misp, q) <==>
            item.ref == q && q in run.seen && !SyncItems.Enabled(run.seen[q].fields))
  {
    hide PostedAbout;
    var posts := if item.ref !in run.seen || SyncItems.Enabled(run.seen[item.ref].fields) then []
                 else [Edit(item.ref, map["enabled" := Bool(true)])];
    AppendedPosts(run.misp, ApplyOne(env, run, item).0.misp, posts, q);
    if posts != [] { assert posts[0] in posts; }
  }

  lemma EnablesAttempt(env: Env, run: Run, names: seq<string>, stale: set<Kind>)
    requires Fresh(run, stale) && Taxonomy !in stale
    ensures Attempted(run, Do(env, run, TaxonomyItems(names)).run.misp, TaxonomyItems(names))
  {
    hide Each, PostedAbout;
    var items := TaxonomyItems(names);
    forall k | 0 <= k < |items|
      ensures PostedAbout(run.misp, Each(env, run, items).0.misp, ItemRef(items[k]))
              <==> Resolves(run.seen, items[k]) && Differs(run.misp, run.sent, items[k])
    {
      EnablesPost(env, run, items, ItemRef(items[k]));
      assert items[k] in items && SeenSame(run, ItemRef(items[k]));
    }
  }

  // ---- Sweeps ------------------------------------------------------------------------------

  /** A sweep that runs posts about exactly the records that are due. */
  lemma SweepAttempts(env: Env, run: Run, kind: Kind, named: set<Ref>, stale: set<Kind>)
    requires Fresh(run, stale) && run.misp.Valid() && kind != NoRecord
    requires forall q: Ref :: q.kind == kind && q !in named ==> SeenSame(run, q)
    ensures SweptAll(run.misp, SweepStep(env, Step(run, true), kind, named).run.misp, kind, named)
  {
    hide Each, PostedAbout, SweepDue, Differs;
    var items := SweepItems(run.seen, run.misp.order, kind, named);
    var m' := Each(env, run, items).0.misp;
    SweepItemsAre(run.seen, run.misp.order, kind, named);
    SweepsDistinct(run.seen, run.misp.order, kind, named);
    forall i | i in items ensures SeenAt(run, i) && i.Sweep? { assert SweepFor(i, run.seen, kind, named); }
    forall q ensures PostedAbout(run.misp, m', q) <==>
      q.kind == kind && q !in named && q in run.misp.records && SweepDue(kind, run.misp.records[q])
    {
      SweepPost(env, run, items, kind, named, q);
    }
  }

  lemma SweepPost(env: Env, run: Run, items: seq<Item>, kind: Kind, named: set<Ref>, q: Ref)
    requires run.misp.Valid() && DistinctRefs(items) && items == SweepItems(run.seen, run.misp.order, kind, named)
    requires forall i <- items :: SeenAt(run, i) && i.Sweep? && SweepFor(i, run.seen, kind, named)
    requires q.kind == kind && q !in named ==> SeenSame(run, q)
    ensures PostedAbout(run.misp, Each(env, run, items).0.misp, q) <==>
              q.kind == kind && q !in named && q in run.misp.records && SweepDue(kind, run.misp.records[q])
  {
    hide *;
    if MayTouch(items, q) { SweptPosted(env, run, items, kind, named, q); } else { NotSwept(env, run, items, kind, named, q); }
  }

  lemma SweptPosted(env: Env, run: Run, items: seq<Item>, kind: Kind, named: set<Ref>, q: Ref)
    requires DistinctRefs(items) && MayTouch(items, q)
    requires forall i <- items :: SeenAt(run, i) && i.Sweep? && SweepFor(i, run.seen, kind, named)
    ensures PostedAbout(run.misp, Each(env, run, items).0.misp, q)
    ensures q.kind == kind && q !in named && q in run.misp.records && SweepDue(kind, run.misp.records[q])
  {
    hide Each, PostedAbout, SweepDue;
    var i :| i in items && ItemRef(i) == q;
    var k :| 0 <= k < |items| && items[k] == i;
    EachAttempts(env, run, items, k);
    assert SeenSame(run, q);
  }

  lemma NotSwept(env: Env, run: Run, items: seq<Item>, kind: Kind, named: set<Ref>, q: Ref)
    requires run.misp.Valid() && items == SweepItems(run.seen, run.misp.order, kind, named) && !MayTouch(items, q)
    requires q.kind == kind && q !in named ==> SeenSame(run, q)
    ensures !PostedAbout(run.misp, Each(env, run, items).0.misp, q)
    ensures !(q.kind == kind && q !in named && q in run.misp.records && SweepDue(kind, run.misp.records[q]))
  {
    hide Each, PostedAbout, SweepDue, SweepItems, Frame;
    SweepItemsAre(run.seen, run.misp.order, kind, named);
    EachFrame(env, run, items);
    PostsStayWithin(run.misp, Each(env, run, items).0.misp, items, q);
    assert ItemRef(Sweep(q, SweepFields(kind))) == q;
  }

  // ---- A run -------------------------------------------------------------------------------

  function Sent(run: Run): Run { run.(sent := run.misp.sent) }

  lemma DoPosts(env: Env, run: Run, items: seq<Item>, kind: Kind)
    ensures DoAndRefresh(env, run, items, kind).run.misp == Do(env, run, items).run.misp
    ensures Refresh(Do(env, run, items).run, kind).misp == Do(env, run, items).run.misp
  {
  }

  lemma LinkIsFresh(run: Run, run': Run, items: seq<Item>, kind: Kind, stale: set<Kind>)
    requires Link(run, run', items, kind, stale)
    ensures Fresh(run', stale)
  {
  }

  lemma SentIsFresh(run: Run, stale: set<Kind>)
    requires Fresh(run, stale)
    ensures Fresh(Sent(run), stale)
  {
    forall r: Ref | r.kind !in stale ensures SeenSame(Sent(run), r) { assert SeenSame(run, r); }
  }

  lemma NoneLoaded(config: Config, seen: Table)
    ensures forall i <- RoleItems(config) :: !i.Loaded?
    ensures forall i <- OrgItems(config) :: !i.Loaded?
    ensures forall i <- TagItems(seen, config) :: !i.Loaded?
    ensures forall i <- UserItems(seen, config.teams) :: !i.Loaded?
    ensures forall i <- ServerItems(seen, config.teams) :: !i.Loaded?
    ensures forall i <- ListNames(config) :: !i.Loaded?
  {
    SyncWarm.TeamItemKinds(seen, config.teams);
    if config.warninglists.Some? { ListItemKinds(config.warninglists.value); }
  }

  /** Whatever is refused and whatever fails: every role and organisation of the file, and, once the organisations
      succeeded, every tag, user and server is posted about exactly if its names resolve and its record differed
      when its step began. */
  lemma NamedStepsAttempt(env: Env, config: Config, ldap: bool, m: Misp)
    requires DistinctConfig(config)
    ensures var t := Steps(env, config, ldap, m);
      && Attempted(Fetch(m), t.roles.run.misp, RoleItems(config))
      && Attempted(t.roles.run, t.orgs.run.misp, OrgItems(config))
      && Attempted(t.orgs.run, t.tags.run.misp, TagItems(t.orgs.run.seen, config))
      && Attempted(t.tags.run, t.users.run.misp, UserItems(t.tags.run.seen, config.teams))
      && Attempted(Sent(t.users.run), t.servers.run.misp, ServerItems(t.users.run.seen, config.teams))
  {
    hide Do, DoAndRefresh, Refresh, TaxonomyStep, ListStep, Disable, Link, Fresh, OfKind, Attempted, DistinctRefs,
         DistinctConfig, RoleItems, OrgItems, TagItems, UserItems, ServerItems, GroupItems, HeldAfter, SeenBut;
    var t := Steps(env, config, ldap, m);
    var w := NamedSteps(env, config, ldap, m);
    FetchFresh(m);
    LinkIsFresh(Fetch(m), t.roles.run, w.roles, Role, {Role});
    LinkIsFresh(t.roles.run, t.orgs.run, w.orgs, Org, {Role, Org});
    LinkIsFresh(t.orgs.run, t.tags.run, w.tags, Tag, {Role, Org});
    LinkIsFresh(t.tags.run, t.users.run, w.users, User, {Role, Org});
    StepSorts(config, m.records);
    StepSorts(config, t.orgs.run.seen);
    StepSorts(config, t.tags.run.seen);
    StepSorts(config, t.users.run.seen);
    StepAttempts(env, Fetch(m), w.roles, Role, {});
    DoPosts(env, Fetch(m), w.roles, Role);
    StepAttempts(env, t.roles.run, w.orgs, Org, {Role});
    DoPosts(env, t.roles.run, w.orgs, Org);
    StepAttempts(env, t.orgs.run, w.tags, Tag, {Role, Org});
    DoPosts(env, t.orgs.run, w.tags, Tag);
    StepAttempts(env, t.tags.run, w.users, User, {Role, Org});
    DoPosts(env, t.tags.run, w.users, User);
    SentIsFresh(t.users.run, {Role, Org});
    StepAttempts(env, Sent(t.users.run), w.servers, Server, {Role, Org});
    ServerPosts(env, t.users.run, config);
    SamePosts(Sent(t.users.run), Do(env, Sent(t.users.run), w.servers).run.misp, t.servers.run.misp, w.servers);
  }

  lemma ServerPosts(env: Env, run: Run, config: Config)
    ensures ServerStep(env, run, config).run.misp.posts
            == Do(env, Sent(run), ServerItems(run.seen, config.teams)).run.misp.posts
  {
  }

  lemma StepSorts(config: Config, seen: Table)
    requires DistinctConfig(config)
    ensures OfKind(RoleItems(config), Role) && OfKind(OrgItems(config), Org) && OfKind(TagItems(seen, config), Tag)
    ensures OfKind(UserItems(seen, config.teams), User) && OfKind(ServerItems(seen, config.teams), Server)
    ensures DistinctRefs(RoleItems(config)) && DistinctRefs(OrgItems(config)) && DistinctRefs(TagItems(seen, config))
    ensures DistinctRefs(UserItems(seen, config.teams)) && DistinctRefs(ServerItems(seen, config.teams))
    ensures forall i <- RoleItems(config) :: !i.Loaded?
    ensures forall i <- OrgItems(config) :: !i.Loaded?
    ensures forall i <- TagItems(seen, config) :: !i.Loaded?
    ensures forall i <- UserItems(seen, config.teams) :: !i.Loaded?
    ensures forall i <- ServerItems(seen, config.teams) :: !i.Loaded?
  {
    hide DistinctConfig, DistinctRefs, OfKind, RoleItems, OrgItems, TagItems, UserItems, ServerItems;
    Distinctness(config, seen);
    ItemKinds(config, seen);
    NoneLoaded(config, seen);
  }

  /** Taxonomies and warninglists: the named ones are attempted, and once each of them succeeded exactly the
      unnamed ones that are enabled. */
  ghost predicate ListsAttempted(env: Env, config: Config, run: Run, taxonomies: Step, lists: Step) {
    && (config.taxonomies.Some? ==>
          var names := config.taxonomies.value;
          var loaded := LoadStep(env, run, names);
          var done := Do(env, loaded.run, TaxonomyItems(names));
          loaded.ok ==>
            && Attempted(loaded.run, done.run.misp, TaxonomyItems(names))
            && (if done.ok then SweptAll(done.run.misp, taxonomies.run.misp, Taxonomy, Refs(TaxonomyItems(names)))
                else taxonomies.run == done.run))
    && (config.warninglists.Some? ==>
          var items := ListItems(config.warninglists.value);
          var done := Do(env, taxonomies.run, items);
          && Attempted(taxonomies.run, done.run.misp, items)
          && (if done.ok then SweptAll(done.run.misp, lists.run.misp, Warninglist, Refs(items))
              else lists.run == done.run))
  }

  lemma SweepingSteps(env: Env, run: Run, items: seq<Item>, kind: Kind, stale: set<Kind>)
    requires At(run, stale) && kind !in stale && kind !in {NoRecord, Server} && OfKind(items, kind)
    requires forall i <- items :: !i.ServerItem?
    ensures var done := Do(env, run, items);
      SweptAll(done.run.misp, SweepStep(env, Step(done.run, true), kind, Refs(items)).run.misp, kind, Refs(items))
  {
    hide Each, Do, SweptAll, SweepStep, SentFrame, Frame;
    var done := Do(env, run, items);
    DoStep(env, run, items, kind, stale);
    DoValid(run, done.run, items, kind, stale);
    forall q: Ref | q.kind == kind && q !in Refs(items) ensures SeenSame(done.run, q) {
      assert SeenSame(run, q) && !MayTouch(items, q);
    }
    SweepAttempts(env, done.run, kind, Refs(items), stale + {kind});
  }

  lemma DoValid(run: Run, run': Run, items: seq<Item>, kind: Kind, stale: set<Kind>)
    requires DidStep(run, run', items, kind, stale) && run.misp.Valid()
    ensures run'.misp.Valid()
  {
  }

  lemma TaxonomiesAttempt(env: Env, config: Config, run: Run, stale: set<Kind>)
    requires At(run, stale) && Taxonomy !in stale && config.taxonomies.Some?
    ensures var names := config.taxonomies.value; var s := TaxonomyStep(env, run, config);
      var loaded := LoadStep(env, run, names);
      var done := Do(env, loaded.run, TaxonomyItems(names));
      loaded.ok ==>
        && Attempted(loaded.run, done.run.misp, TaxonomyItems(names))
        && (if done.ok then SweptAll(done.run.misp, s.run.misp, Taxonomy, Refs(TaxonomyItems(names)))
            else s.run == done.run)
  {
    hide Each, LoadStep, Do, SweptAll, Attempted, Refs, Frame;
    var names := config.taxonomies.value;
    var loaded := LoadStep(env, run, names);
    LoadStepFrame(env, run, names, stale);
    FrameValid(run.misp, loaded.run.misp, TaxonomyWork(names, env.shipped));
    EnablesAttempt(env, loaded.run, names, stale);
    SweepingSteps(env, loaded.run, TaxonomyItems(names), Taxonomy, stale);
    SweepOk(env, Do(env, loaded.run, TaxonomyItems(names)), Taxonomy, Refs(TaxonomyItems(names)));
    TaxonomyIs(env, config, run);
  }

  lemma SweepOk(env: Env, done: Step, kind: Kind, named: set<Ref>)
    ensures SweepStep(env, done, kind, named) == if done.ok then SweepStep(env, Step(done.run, true), kind, named) else done
  {
  }

  lemma TaxonomyIs(env: Env, config: Config, run: Run)
    requires config.taxonomies.Some?
    ensures var names := config.taxonomies.value; var loaded := LoadStep(env, run, names);
      TaxonomyStep(env, run, config)
        == if !loaded.ok then loaded
           else SweepStep(env, Do(env, loaded.run, TaxonomyItems(names)), Taxonomy, Refs(TaxonomyItems(names)))
  {
  }

  lemma ListsAttempt(env: Env, config: Config, run: Run, stale: set<Kind>)
    requires At(run, stale) && Warninglist !in stale && DistinctConfig(config) && config.warninglists.Some?
    ensures var items := ListItems(config.warninglists.value); var s := ListStep(env, run, config);
      var done := Do(env, run, items);
      && Attempted(run, done.run.misp, items)
      && (if done.ok then SweptAll(done.run.misp, s.run.misp, Warninglist, Refs(items)) else s.run == done.run)
  {
    hide Each, Do, SweptAll, Attempted, Refs, Frame;
    var items := ListItems(config.warninglists.value);
    ListItemKinds(config.warninglists.value);
    StepAttempts(env, run, items, Warninglist, stale);
    SweepingSteps(env, run, items, Warninglist, stale);
    SweepOk(env, Do(env, run, items), Warninglist, Refs(items));
  }

  /** The steps after the servers': the taxonomies and warninglists with their sweeps, the sharing groups, and the
      sweeps of users and servers, each of them attempted in full once it is reached. */
  lemma LaterStepsAttempt(env: Env, config: Config, ldap: bool, m: Misp)
    requires Walks(env) && m.Valid() && DistinctConfig(config)
    requires SyncGroups.DistinctTargets(m.groups, m.groupOrder, config.groups)
    ensures var t := Steps(env, config, ldap, m);
      && ListsAttempted(env, config, t.servers.run, t.taxonomies, t.lists)
      && (forall k :: 0 <= k < |config.groups| ==>
            var v := SyncSafety.RunView(env, config, ldap, m);
            SyncGroupPosts.PostedOf(v, t.lists.run.misp, t.groups.run.misp, config.groups[k])
            <==> v.Differs(config.groups[k]))
      && (t.users.ok && !ldap ==>
            SweptAll(t.groups.run.misp, t.sweptUsers.run.misp, User, NamedUsers(m, config)))
      && (t.servers.ok ==>
            SweptAll(t.sweptUsers.run.misp, t.sweptServers.run.misp, Server, NamedServers(m, config)))
  {
    hide *;
    var named := NamedSteps(env, config, ldap, m);
    var w := LaterSteps(env, config, ldap, m, named);
    ListedAttempt(env, config, ldap, m, w);
    GroupsAttempt(env, config, ldap, m, w);
    EndSweeps(env, config, ldap, m, w);
  }

  lemma ListedAttempt(env: Env, config: Config, ldap: bool, m: Misp, w: Work)
    requires m.Valid() && DistinctConfig(config)
    requires var t := Steps(env, config, ldap, m);
      NamedLinks(m, t, config, w) && LaterLinks(env, m, t, config, ldap, w)
    ensures var t := Steps(env, config, ldap, m); ListsAttempted(env, config, t.servers.run, t.taxonomies, t.lists)
  {
    hide Do, DoAndRefresh, LoadStep, TagStep, UserStep, ServerStep, TaxonomyStep, ListStep, Disable, Link, At, Attempted,
         SweptAll, DistinctConfig, AllHeld, SweepOf, NothingToSweep, NamedLinks, DisableLink, ListLink, Refs, DistinctRefs;
    var t := Steps(env, config, ldap, m);
    NamedValid(m, t, config, w);
    if config.taxonomies.Some? { TaxonomiesAttempt(env, config, t.servers.run, Stale); }
    if config.warninglists.Some? { ListsAttempt(env, config, t.taxonomies.run, Stale + {Taxonomy}); }
  }

  lemma GroupsAttempt(env: Env, config: Config, ldap: bool, m: Misp, w: Work)
    requires Walks(env) && m.Valid() && DistinctConfig(config)
    requires SyncGroups.DistinctTargets(m.groups, m.groupOrder, config.groups)
    requires var t := Steps(env, config, ldap, m);
      NamedLinks(m, t, config, w) && LaterLinks(env, m, t, config, ldap, w)
    ensures var t := Steps(env, config, ldap, m); var v := SyncSafety.RunView(env, config, ldap, m);
      forall k :: 0 <= k < |config.groups| ==>
        (SyncGroupPosts.PostedOf(v, t.lists.run.misp, t.groups.run.misp, config.groups[k])
         <==> v.Differs(config.groups[k]))
  {
    hide Steps, NamedLinks, LaterLinks, SyncGroupPosts.PostedOf, SyncGroupPosts.Ready, Each, SyncGroups.DistinctTargets,
         SyncGroups.DistinctGroups;
    var t, v := Steps(env, config, ldap, m), SyncSafety.RunView(env, config, ldap, m);
    SyncSafety.GroupStart(env, config, ldap, m, w);
    forall k | 0 <= k < |config.groups|
      ensures SyncGroupPosts.PostedOf(v, t.lists.run.misp, t.groups.run.misp, config.groups[k])
              <==> v.Differs(config.groups[k])
    {
      SyncGroupPosts.StepAttempts(env, t.lists.run, config.groups, k);
    }
  }

  lemma EndSweeps(env: Env, config: Config, ldap: bool, m: Misp, w: Work)
    requires m.Valid()
    requires var t := Steps(env, config, ldap, m);
      NamedLinks(m, t, config, w) && LaterLinks(env, m, t, config, ldap, w)
    ensures var t := Steps(env, config, ldap, m);
      && (t.users.ok && !ldap ==>
            SweptAll(t.groups.run.misp, t.sweptUsers.run.misp, User, NamedUsers(m, config)))
      && (t.servers.ok ==>
            SweptAll(t.sweptUsers.run.misp, t.sweptServers.run.misp, Server, NamedServers(m, config)))
  {
    hide Do, DoAndRefresh, TagStep, UserStep, ServerStep, TaxonomyStep, ListStep, SweepStep, Link, SweptAll, AllHeld,
         SweepOf, NothingToSweep, NamedLinks, Refs, DistinctRefs, Fresh, SeenSame;
    var t := Steps(env, config, ldap, m);
    var stale := Stale + {Taxonomy} + {Warninglist} + {NoRecord};
    LinkValid(t.lists.run, t.groups.run, w.groups, NoRecord, stale);
    AtIs(t.groups.run, stale);
    AtIs(t.sweptUsers.run, stale + {User});
    if t.users.ok && !ldap {
      UsersSeen(t.groups.run, stale);
      SweepAttempts(env, t.groups.run, User, NamedUsers(m, config), stale);
    }
    if t.servers.ok {
      forall q: Ref | q.kind == Server && q !in NamedServers(m, config) ensures SeenSame(t.sweptUsers.run, q) {
        ServersSeen(env, m, t, config, w, q);
      }
      SweepAttempts(env, t.sweptUsers.run, Server, NamedServers(m, config), stale + {User});
    }
  }
}
