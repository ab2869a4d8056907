/** A run in which MISP refuses nothing, over a file whose names resolve, exits 0. */
module SyncProgress {
  import opened Values
  import opened MispWorld
  import opened SharingGroups
  import opened SyncItems
  import opened SyncSteps
  import opened SyncPosts
  import opened SyncRun
  import opened SyncSwept
  import opened SyncLinks
  import opened SyncConverge
  import opened SyncGroups

  /** MISP refuses no post, and its answers name what they created. */
  ghost predicate Smooth(env: Env) { Walks(env) && forall n :: !env.refuse(n) && env.named(n) }

  ghost predicate Known(m: Misp, items: seq<Item>, q: Ref) { q in m.records || MayTouch(items, q) }

  /** Every name in the file is that of a record in MISP, or of an entry of the file itself. */
  ghost predicate Resolvable(env: Env, config: Config, m: Misp) {
    && (forall r <- config.roles :: r.name != "")
    && (forall t <- config.teams :: Lower(t.uuid) == t.uuid)
    && (forall t <- config.teams :: forall u <- t.users :: Known(m, RoleItems(config), Ref(Role, u.role)))
    && (forall t <- config.teams :: forall s <- t.servers :: forall n <- s.pushTags + s.pushTagsExclude ::
          Known(m, TagItems(map[], config), Ref(Tag, n)))
    && (config.taxonomies.Some? ==>
          forall n <- config.taxonomies.value :: Ref(Taxonomy, n) in m.records || n in env.shipped)
    && (config.warninglists.Some? ==>
          forall e <- config.warninglists.value ::
            !e.Other? && (e.BuiltIn? ==> Ref(Warninglist, e.name) in m.records))
    && (forall g <- config.groups ::
          && (g.uuid.Some? ==> IsUuid4(Uuid(g)))
          && forall o <- g.orgs :: Known(m, OrgItems(config), Ref(Org, Lower(o.uuid))))
  }

  // ---- One item ----------------------------------------------------------------------------

  /** The item can be applied: its record is known as it is, and its names resolve. */
  ghost predicate Ready(run: Run, item: Item) {
    !item.GroupItem? && !item.Loaded? && SeenAt(run, item) && Resolves(run.seen, item)
    && (item.Sweep? ==> item.ref in run.misp.records)
  }

  lemma ReconcileSucceeds(env: Env, run: Run, item: Item)
    requires Smooth(env) && item.Reconciled() && SeenAt(run, item) && Resolves(run.seen, item)
    ensures var o := Reconcile(env, run, item).1; o != Failed && (o == Created <==> ItemRef(item) !in run.seen)
  {
    hide Wanted, Secret, Differences, CreateOnly, SetAuthkey;
  }

  lemma ListSucceeds(env: Env, run: Run, list: ListDef)
    requires Smooth(env) && SeenAt(run, ListItem(list))
    ensures ApplyList(env, run, list).1 != Failed
  {
    hide ListData, SameList, SyncItems.Enabled;
  }

  lemma ApplyOneSucceeds(env: Env, run: Run, item: Item)
    requires Smooth(env) && Ready(run, item)
    ensures ApplyOne(env, run, item).1 != Failed
  {
    match item
    case Enable(_) =>
    case Sweep(_, _) =>
    case ListItem(list) => ListSucceeds(env, run, list);
    case Malformed =>
    case GroupItem(_) =>
    case Loaded(_) =>
    case _ => ReconcileSucceeds(env, run, item);
  }

  lemma {:induction false} EachSucceeds(env: Env, run: Run, items: seq<Item>)
    requires Smooth(env) && DistinctRefs(items) && OneSort(items)
    requires forall i <- items :: Ready(run, i) && !i.Sweep?
    ensures Failed !in Each(env, run, items).1
    decreases items
  {
    hide ApplyOne, Resolves, SeenAt;
    if items != [] {
      var (run1, o) := ApplyOne(env, run, items[0]);
      var (run2, os) := Each(env, run1, items[1..]);
      assert items[0] in items;
      ApplyOneSucceeds(env, run, items[0]);
      StillReady(env, run, items);
      EachSucceeds(env, run1, items[1..]);
      assert Each(env, run, items).1 == [o] + os;
    }
  }

  lemma StillReady(env: Env, run: Run, items: seq<Item>)
    requires items != [] && DistinctRefs(items) && OneSort(items)
    requires forall i <- items :: Ready(run, i) && !i.Sweep?
    ensures var run1 := ApplyOne(env, run, items[0]).0;
      DistinctRefs(items[1..]) && OneSort(items[1..]) && forall i <- items[1..] :: Ready(run1, i) && !i.Sweep?
  {
    hide ApplyOne, Resolves, SeenAt;
    RestIsReady(env, run, items);
    forall i | i in items[1..] ensures i in items {}
  }

  lemma {:induction false} SweepsSucceed(env: Env, run: Run, items: seq<Item>)
    requires Smooth(env) && forall i <- items :: i.Sweep? && i.ref in run.misp.records
    ensures Failed !in Each(env, run, items).1
    decreases items
  {
    if items != [] {
      var (run1, o) := ApplyOne(env, run, items[0]);
      var (run2, os) := Each(env, run1, items[1..]);
      assert items[0] in items && o != Failed;
      SweepsSucceed(env, run1, items[1..]);
      assert Each(env, run, items).1 == [o] + os;
    }
  }

  lemma {:induction false} EnablesSucceed(env: Env, run: Run, items: seq<Item>)
    requires Smooth(env) && forall i <- items :: i.Enable? && i.ref in run.seen && i.ref in run.misp.records
    ensures Failed !in Each(env, run, items).1
    decreases items
  {
    if items != [] {
      var (run1, o) := ApplyOne(env, run, items[0]);
      var (run2, os) := Each(env, run1, items[1..]);
      assert items[0] in items && o != Failed;
      EnablesSucceed(env, run1, items[1..]);
      assert Each(env, run, items).1 == [o] + os;
    }
  }

  // ---- The snapshot knows what was created ---------------------------------------------------

  ghost predicate Grows(run: Run, run': Run) { forall q :: q in run.seen ==> q in run'.seen }

  lemma {:induction false} EachGrows(env: Env, run: Run, items: seq<Item>)
    requires Extends(run.seen, run.misp.records)
    ensures var run' := Each(env, run, items).0; Grows(run, run') && Extends(run'.seen, run'.misp.records)
    decreases items
  {
    hide ApplyOne, Frame;
    if items != [] {
      var run1 := ApplyOne(env, run, items[0]).0;
      SeenGrows(env, run, items[0]);
      OneExtends(env, run, items[0]);
      EachGrows(env, run1, items[1..]);
    }
  }

  lemma OneExtends(env: Env, run: Run, item: Item)
    requires Extends(run.seen, run.misp.records)
    ensures var run' := ApplyOne(env, run, item).0; Extends(run'.seen, run'.misp.records)
  {
    hide ApplyOne;
    if item.GroupItem? {
      ApplyOneFrame(env, run, item);
      assert forall i <- [item] :: !i.ListItem?;
    } else {
      ApplyOneSeen(env, run, item);
    }
  }

  lemma RefreshesGrow(run: Run, kind: Kind)
    requires Extends(run.seen, run.misp.records)
    ensures Grows(run, Refresh(run, kind)) && Extends(Refresh(run, kind).seen, run.misp.records)
  {
  }

  /** An item that created nothing found its record. */
  lemma {:induction false} FoundUnlessCreated(env: Env, run: Run, items: seq<Item>)
    requires forall i <- items :: i.Reconciled()
    requires var os := Each(env, run, items).1; Failed !in os && Created !in os
    ensures forall i <- items :: ItemRef(i) in run.seen
    decreases items
  {
    if items != [] {
      var (run1, o) := ApplyOne(env, run, items[0]);
      var (run2, os) := Each(env, run1, items[1..]);
      assert items[0] in items && Each(env, run, items).1 == [o] + os && o in [o] + os;
      forall x | x in os ensures x in [o] + os {}
      FoundOne(env, run, items[0]);
      FoundUnlessCreated(env, run1, items[1..]);
    }
  }

  lemma FoundOne(env: Env, run: Run, item: Item)
    requires item.Reconciled()
    ensures var (run1, o) := ApplyOne(env, run, item);
      run1.seen == run.seen && (o != Failed && o != Created ==> ItemRef(item) in run.seen)
  {
    hide Wanted, Secret, Differences, CreateOnly, SetAuthkey;
  }

  /** After a step that creates records and succeeds, the snapshot knows each of them. */
  lemma SeenAfter(env: Env, run: Run, items: seq<Item>, kind: Kind)
    requires Extends(run.seen, run.misp.records) && OfKind(items, kind)
    requires forall i <- items :: i.Reconciled()
    requires var s := DoAndRefresh(env, run, items, kind); s.ok && AllHeld(s.run.misp, items)
    ensures var s := DoAndRefresh(env, run, items, kind); forall i <- items :: ItemRef(i) in s.run.seen
    ensures Grows(run, DoAndRefresh(env, run, items, kind).run)
  {
    hide ApplyOne, Held;
    var (run', os) := Each(env, run, items);
    var s := DoAndRefresh(env, run, items, kind);
    EachGrows(env, run, items);
    RefreshesGrow(run', kind);
    if Created in os {
      forall i | i in items ensures ItemRef(i) in s.run.seen { HeldIsThere(s.run.misp, i); }
    } else {
      FoundUnlessCreated(env, run, items);
      forall i | i in items ensures ItemRef(i) in s.run.seen {}
    }
  }

  lemma HeldIsThere(m: Misp, i: Item)
    requires Held(m, m.sent, i)
    ensures ItemRef(i) in m.records
  {
  }

  // ---- Sharing groups ------------------------------------------------------------------------

  lemma {:induction false} RemovalsSucceed(env: Env, m: Misp, g: Id, orgs: seq<Id>)
    requires Smooth(env) && g in m.groups && Distinct(orgs) && forall o <- orgs :: o in Members(m, g)
    ensures Play(env, m, Removals(g, orgs)).1
    decreases orgs
  {
    hide Effect;
    if orgs != [] {
      var p := RemoveMember(g, orgs[0]);
      var (m1, answer) := Send(env, m, p);
      SendMember(env, m, g, p);
      Removed(env, m, g, orgs[0]);
      assert Removals(g, orgs)[1..] == Removals(g, orgs[1..]);
      forall o | o in orgs[1..] ensures o in Members(m1, g) {
        var i :| 0 <= i < |orgs[1..]| && orgs[1..][i] == o;
        assert orgs[i + 1] == o && orgs[0] != orgs[i + 1];
      }
      RemovalsSucceed(env, m1, g, orgs[1..]);
    }
  }

  lemma Removed(env: Env, m: Misp, g: Id, o: Id)
    requires Smooth(env) && g in m.groups && o in Members(m, g)
    ensures Send(env, m, RemoveMember(g, o)).1 == Accepted
  {
  }

  lemma Added(env: Env, m: Misp, g: Id, o: Id, extend: bool)
    requires Smooth(env) && g in m.groups
    ensures Send(env, m, AddMember(g, o, extend)).1 != Refused
  {
  }

  lemma {:induction false} AdditionsSucceed(env: Env, m: Misp, g: Id, orgs: seq<Id>, extend: map<Id, bool>)
    requires Smooth(env) && g in m.groups && forall o <- orgs :: o in extend
    ensures Play(env, m, Additions(g, orgs, extend)).1
    decreases orgs
  {
    hide Effect, Send;
    if orgs != [] {
      var p := AddMember(g, orgs[0], extend[orgs[0]]);
      var (m1, answer) := Send(env, m, p);
      SendMember(env, m, g, p);
      Added(env, m, g, orgs[0], extend[orgs[0]]);
      assert Additions(g, orgs, extend)[1..] == Additions(g, orgs[1..], extend);
      AdditionsSucceed(env, m1, g, orgs[1..], extend);
    }
  }

  /** The script of a membership is never refused by MISP itself. */
  lemma ScriptSucceeds(env: Env, m: Misp, g: Id, d: Desired)
    requires Smooth(env) && d.Valid() && g in m.groups
    ensures Play(env, m, Script(env, g, d, Members(m, g))).1
  {
    hide Play, Send;
    var current := Members(m, g);
    var kept := Kept(d, current).Keys;
    assert WalkOf(env, kept);
    var changed := Keep(d.order, ChangedSet(d, current));
    var missing := Keep(d.order, MissingSet(d, current));
    var extra := Keep(env.walk(kept), kept - d.extend.Keys);
    var (a, b, c) := (Removals(g, changed), Additions(g, missing, d.extend), Removals(g, extra));
    assert Script(env, g, d, current) == a + (b + c);
    PlayConcat(env, m, a, b + c);
    RemovalsSucceed(env, m, g, changed);
    PlayPosts(env, m, g, a);
    PlayRemovals(env, m, g, changed);
    assert (set o | o in changed) == ChangedSet(d, current);
    var m1 := Play(env, m, a).0;
    PlayConcat(env, m1, b, c);
    AdditionsSucceed(env, m1, g, missing, d.extend);
    PlayPosts(env, m1, g, b);
    PlayAdditions(env, m1, g, missing, d.extend);
    RemovalsSucceed(env, Play(env, m1, b).0, g, extra);
  }

  /** No group has the UUID of an entry that finds none. */
  lemma UuidIsFree(run: Run, done: seq<GroupDef>, targets: seq<Id>, def: GroupDef, g: Id)
    requires Placed(run.groups, run.groupOrder, run.misp, run.seen, done, targets)
    requires DistinctGroups(done + [def]) && (forall h :: h in run.groups ==> h in run.groupOrder)
    requires Find(run.groups, run.groupOrder, def).None? && def.uuid.Some? && g in run.misp.groups
    ensures Field(run.misp.groups[g].fields, "uuid") != Str(Uuid(def))
  {
    hide Last;
    var groups, order, f := run.groups, run.groupOrder, ByUuid(Uuid(def));
    LastNone(groups, order, f);
    if Field(run.misp.groups[g].fields, "uuid") == Str(Uuid(def)) {
      LowerTwice(Strip(def.uuid.value));
      assert Matches(run.misp.groups[g].fields, Key(def));
      if g in targets {
        var k :| 0 <= k < |targets| && targets[k] == g;
        assert PlacedOne(groups, order, run.misp, run.seen, done[k], g);
        assert (done + [def])[k] == done[k] && (done + [def])[|done|] == def;
        OtherTarget(groups, order, run.misp, run.seen, def, done[k], g);
      }
    }
  }

  lemma ReconcileGroupSucceeds(env: Env, run: Run, done: seq<GroupDef>, targets: seq<Id>, def: GroupDef)
    requires Smooth(env) && run.misp.Valid()
    requires Placed(run.groups, run.groupOrder, run.misp, run.seen, done, targets)
    requires DistinctTargets(run.groups, run.groupOrder, done + [def]) && DistinctGroups(done + [def])
    requires (forall h :: h in run.groups ==> h in run.misp.groups && h in run.groupOrder)
    ensures ReconcileGroup(env, run.misp, run.groups, run.groupOrder, def).1 != Failed
  {
    hide Placed, DistinctTargets, DistinctGroups, Find, Differences, Data;
    TargetIsNew(run, done, targets, def);
    if Find(run.groups, run.groupOrder, def).None? {
      if def.uuid.Some? {
        forall g | g in run.misp.groups ensures Field(run.misp.groups[g].fields, "uuid") != Str(Uuid(def)) {
          UuidIsFree(run, done, targets, def, g);
        }
      }
      AddAccepted(env, run.misp, def);
    }
  }

  lemma AddAccepted(env: Env, m: Misp, def: GroupDef)
    requires Smooth(env)
    requires def.uuid.Some? ==> forall g :: g in m.groups ==> Field(m.groups[g].fields, "uuid") != Str(Uuid(def))
    ensures Send(env, m, AddGroup(Data(def))).1 == Accepted
  {
    assert "uuid" in Data(def) <==> def.uuid.Some?;
    assert def.uuid.Some? ==> Data(def)["uuid"] == Str(Uuid(def));
  }

  lemma GroupSucceeds(env: Env, run: Run, done: seq<GroupDef>, targets: seq<Id>, def: GroupDef)
    requires Smooth(env) && run.misp.Valid()
    requires Placed(run.groups, run.groupOrder, run.misp, run.seen, done, targets)
    requires DistinctTargets(run.groups, run.groupOrder, done + [def]) && DistinctGroups(done + [def])
    requires (forall h :: h in run.groups ==> h in run.misp.groups && h in run.groupOrder)
    requires (def.uuid.Some? ==> IsUuid4(Uuid(def))) && DesiredOrgs(run.seen, def.orgs).Some?
    ensures ApplyOne(env, run, GroupItem(def)).1 != Failed
  {
    hide Placed, DistinctTargets, DistinctGroups, Find, Differences, Data, ReconcileGroup, Play, Script, DesiredOrgs, IsUuid4,
         Holds, OtherFieldsKept;
    TargetIsNew(run, done, targets, def);
    ReconcileGroupSucceeds(env, run, done, targets, def);
    ReconcileGroupReaches(env, run.misp, run.groups, run.groupOrder, def);
    GroupOutcome(env, run, def);
    var m1 := ReconcileGroup(env, run.misp, run.groups, run.groupOrder, def).0;
    var t := Target(run.misp, run.groups, run.groupOrder, def);
    ScriptSucceeds(env, m1, t, DesiredOrgs(run.seen, def.orgs).value);
  }

  lemma {:induction false} GroupsSucceed(env: Env, run: Run, done: seq<GroupDef>, targets: seq<Id>, defs: seq<GroupDef>)
    requires Smooth(env) && run.misp.Valid()
    requires Placed(run.groups, run.groupOrder, run.misp, run.seen, done, targets)
    requires DistinctTargets(run.groups, run.groupOrder, done + defs) && DistinctGroups(done + defs)
    requires (forall h :: h in run.groups ==> h in run.misp.groups && h in run.groupOrder)
    requires forall def <- defs ::
               (def.uuid.Some? ==> IsUuid4(Uuid(def))) && DesiredOrgs(run.seen, def.orgs).Some?
    ensures Failed !in Each(env, run, Items(defs)).1
    decreases defs
  {
    hide ApplyOne, Placed, Find, Target, DesiredOrgs, IsUuid4, DistinctTargets, DistinctGroups;
    if defs != [] {
      var def, rest := defs[0], defs[1..];
      assert def in defs;
      assert Items(defs)[0] == GroupItem(def) && Items(defs)[1..] == Items(rest);
      var (run1, o) := ApplyOne(env, run, GroupItem(def));
      var (run2, os) := Each(env, run1, Items(rest));
      assert Each(env, run, Items(defs)) == (run2, [o] + os);
      assert done + defs == (done + [def]) + rest;
      FirstApart(run, done + [def], rest);
      GroupSucceeds(env, run, done, targets, def);
      PlaceOne(env, run, done, targets, def);
      GroupKeeps(env, run, def);
      GroupsSucceed(env, run1, done + [def], targets + [Target(run.misp, run.groups, run.groupOrder, def)], rest);
    }
  }

  lemma FirstApart(run: Run, a: seq<GroupDef>, b: seq<GroupDef>)
    requires DistinctTargets(run.groups, run.groupOrder, a + b) && DistinctGroups(a + b)
    ensures DistinctTargets(run.groups, run.groupOrder, a) && DistinctGroups(a)
  {
    hide Find;
    forall i, j | 0 <= i < j < |a| ensures (a + b)[i] == a[i] && (a + b)[j] == a[j] {}
    forall i, j | 0 <= i < j < |a| && Find(run.groups, run.groupOrder, a[i]).Some?
      ensures Find(run.groups, run.groupOrder, a[i]) != Find(run.groups, run.groupOrder, a[j])
    {
      assert (a + b)[i] == a[i] && (a + b)[j] == a[j];
    }
  }

  // ---- The steps of a run ------------------------------------------------------------------

  /** A step over records that the snapshot holds as they are, and whose names resolve. */
  lemma StepGoes(env: Env, run: Run, items: seq<Item>, kind: Kind, stale: set<Kind>)
    requires Smooth(env) && Fresh(run, stale) && kind !in stale && kind != NoRecord && OfKind(items, kind)
    requires DistinctRefs(items)
    requires forall i <- items :: !i.Sweep? && !i.Loaded? && Resolves(run.seen, i)
    ensures Do(env, run, items).ok && DoAndRefresh(env, run, items, kind).ok
  {
    hide Each, Resolves;
    forall i | i in items ensures Ready(run, i) && !i.Sweep? { assert ItemRef(i).kind == kind; }
    EachSucceeds(env, run, items);
  }

  lemma SweepGoes(env: Env, run: Run, kind: Kind, named: set<Ref>)
    requires Smooth(env) && Extends(run.seen, run.misp.records)
    ensures SweepStep(env, Step(run, true), kind, named).ok
  {
    hide Each, SweepDue;
    var items := SweepItems(run.seen, run.misp.order, kind, named);
    SweepItemsAre(run.seen, run.misp.order, kind, named);
    forall i | i in items ensures i.Sweep? && i.ref in run.misp.records { assert SweepFor(i, run.seen, kind, named); }
    SweepsSucceed(env, run, items);
  }

  lemma {:induction false} TagsResolve(seen: Table, teams: seq<Team>)
    requires forall t <- teams :: TeamOrg(seen, t).Some?
    ensures forall i <- TeamTags(seen, teams) :: i.TagItem? && Resolves(seen, i)
    decreases teams
  {
    if teams != [] { TagsResolve(seen, teams[1..]); }
  }

  lemma {:induction false} UsersResolve(seen: Table, teams: seq<Team>)
    requires forall t <- teams :: TeamOrg(seen, t).Some? && forall u <- t.users :: Ref(Role, u.role) in seen
    ensures forall i <- UserItems(seen, teams) :: i.UserItem? && Resolves(seen, i)
    decreases teams
  {
    if teams != [] {
      UsersResolve(seen, teams[1..]);
      assert teams[0] in teams;
    }
  }

  lemma {:induction false} TagNamesResolve(seen: Table, names: seq<string>)
    requires forall n <- names :: Ref(Tag, n) in seen
    ensures TagIds(seen, names).Some?
    decreases names
  {
    if names != [] { TagNamesResolve(seen, names[1..]); }
  }

  lemma {:induction false} ServersResolve(seen: Table, teams: seq<Team>)
    requires forall t <- teams ::
               TeamOrg(seen, t).Some?
               && forall s <- t.servers :: forall n <- s.pushTags + s.pushTagsExclude :: Ref(Tag, n) in seen
    ensures forall i <- ServerItems(seen, teams) :: i.ServerItem? && Resolves(seen, i)
    decreases teams
  {
    if teams != [] {
      var t := teams[0];
      ServersResolve(seen, teams[1..]);
      assert t in teams;
      forall s | s in t.servers ensures TagIds(seen, s.pushTags).Some? && TagIds(seen, s.pushTagsExclude).Some? {
        forall n | n in s.pushTags || n in s.pushTagsExclude ensures Ref(Tag, n) in seen {
          assert n in s.pushTags + s.pushTagsExclude;
        }
        TagNamesResolve(seen, s.pushTags);
        TagNamesResolve(seen, s.pushTagsExclude);
      }
    }
  }

  lemma {:induction false} OrgsResolve(seen: Table, orgs: seq<OrgRef>)
    requires forall o <- orgs :: Ref(Org, Lower(o.uuid)) in seen
    ensures DesiredOrgs(seen, orgs).Some?
    decreases orgs
  {
    if orgs != [] {
      assert orgs[|orgs| - 1] in orgs;
      OrgsResolve(seen, orgs[..|orgs| - 1]);
    }
  }

  /** What the snapshot knows once a step is done: what MISP had, and these entries of the file. */
  ghost predicate Knows(run: Run, m: Misp, items: seq<Item>) {
    && (forall q :: q in m.records ==> q in run.seen)
    && forall i <- items :: ItemRef(i) in run.seen
  }

  lemma KnowsGrows(run: Run, run': Run, m: Misp, items: seq<Item>)
    requires Knows(run, m, items) && Grows(run, run')
    ensures Knows(run', m, items)
  {
  }

  lemma KnownIsSeen(run: Run, m: Misp, items: seq<Item>, q: Ref)
    requires Knows(run, m, items) && Known(m, items, q)
    ensures q in run.seen
  {
  }

  /** Roles and organisations succeed, and the snapshot knows them. */
  lemma FirstGo(env: Env, config: Config, ldap: bool, m: Misp)
    requires Smooth(env) && DistinctConfig(config) && Resolvable(env, config, m)
    ensures var t := Steps(env, config, ldap, m);
      && t.roles.ok && t.orgs.ok
      && Knows(t.orgs.run, m, RoleItems(config)) && Knows(t.orgs.run, m, OrgItems(config))
  {
    hide TagStep, UserStep, ServerStep, TaxonomyStep, ListStep, Disable, Do, DoAndRefresh, DistinctRefs, DistinctConfig,
         DistinctGroups, Knows, AllHeld, Link, SeenBut, TagItems, UserItems, ServerItems, Grows;
    var t := Steps(env, config, ldap, m);
    var w := NamedSteps(env, config, ldap, m);
    Distinctness(config, m.records);
    ItemKinds(config, m.records);
    FetchFresh(m);
    NamesResolve(config, m, m.records);
    StepGoes(env, Fetch(m), RoleItems(config), Role, {});
    assert Extends(m.records, m.records);
    SeenAfter(env, Fetch(m), RoleItems(config), Role);
    LinkFresh(Fetch(m), t.roles.run, w.roles, Role, {Role});
    NamesResolve(config, m, t.roles.run.seen);
    StepGoes(env, t.roles.run, OrgItems(config), Org, {Role});
    SeenAfter(env, t.roles.run, OrgItems(config), Org);
    FirstKnows(config, m, t);
  }

  lemma NamesResolve(config: Config, m: Misp, seen: Table)
    requires forall r <- config.roles :: r.name != ""
    ensures forall i <- RoleItems(config) :: i.RoleItem? && Resolves(seen, i)
    ensures forall i <- OrgItems(config) :: i.OrgItem? && Resolves(seen, i)
  {
  }

  lemma LinkFresh(run: Run, run': Run, items: seq<Item>, kind: Kind, stale: set<Kind>)
    requires Link(run, run', items, kind, stale)
    ensures Fresh(run', stale) && Extends(run'.seen, run'.misp.records)
  {
  }

  lemma FirstKnows(config: Config, m: Misp, t: Trace)
    requires Grows(Fetch(m), t.roles.run) && Grows(t.roles.run, t.orgs.run)
    requires forall i <- RoleItems(config) :: ItemRef(i) in t.roles.run.seen
    requires forall i <- OrgItems(config) :: ItemRef(i) in t.orgs.run.seen
    ensures Knows(t.orgs.run, m, RoleItems(config)) && Knows(t.orgs.run, m, OrgItems(config))
  {
    hide RoleItems, OrgItems;
    assert forall q :: q in m.records ==> q in Fetch(m).seen;
  }

  lemma TeamsKnown(config: Config, m: Misp, run: Run)
    requires Knows(run, m, OrgItems(config)) && forall t <- config.teams :: Lower(t.uuid) == t.uuid
    ensures forall t <- config.teams :: TeamOrg(run.seen, t).Some?
  {
    forall t | t in config.teams ensures TeamOrg(run.seen, t).Some? {
      var k :| 0 <= k < |config.teams| && config.teams[k] == t;
      assert OrgItems(config)[k] == OrgItem(t) && OrgItems(config)[k] in OrgItems(config);
    }
  }

  /** A step and the refresh after it. */
  lemma RefreshedGoes(env: Env, run: Run, items: seq<Item>, kind: Kind, stale: set<Kind>)
    requires Smooth(env) && Fresh(run, stale) && kind !in stale && kind != NoRecord && OfKind(items, kind)
    requires DistinctRefs(items)
    requires forall i <- items :: !i.Sweep? && !i.Loaded? && Resolves(run.seen, i)
    ensures Do(env, run, items).ok && Grows(run, Refresh(Do(env, run, items).run, kind))
  {
    hide Each, Resolves, OfKind;
    StepGoes(env, run, items, kind, stale);
    EachGrows(env, run, items);
    RefreshesGrow(Do(env, run, items).run, kind);
  }

  lemma TagsGo(env: Env, config: Config, m: Misp, run: Run)
    requires Smooth(env) && DistinctConfig(config) && Resolvable(env, config, m)
    requires Fresh(run, {Role, Org}) && Knows(run, m, OrgItems(config))
    ensures TagStep(env, run, config).ok && Grows(run, TagStep(env, run, config).run)
  {
    hide Do, DistinctRefs, DistinctConfig, DistinctGroups, Knows, Grows, TeamTags, Fresh, OrgItems;
    TeamsKnown(config, m, run);
    TagsResolve(run.seen, config.teams);
    Distinctness(config, run.seen);
    ItemKinds(config, run.seen);
    RefreshedGoes(env, run, TagItems(run.seen, config), Tag, {Role, Org});
  }

  lemma UsersGo(env: Env, config: Config, m: Misp, run: Run)
    requires Smooth(env) && DistinctConfig(config) && Resolvable(env, config, m)
    requires Fresh(run, {Role, Org}) && Knows(run, m, OrgItems(config)) && Knows(run, m, RoleItems(config))
    ensures UserStep(env, run, config).ok && Grows(run, UserStep(env, run, config).run)
  {
    hide Do, DistinctRefs, DistinctConfig, DistinctGroups, Knows, Grows, UserItems, Fresh, OrgItems, RoleItems, Known;
    TeamsKnown(config, m, run);
    forall t | t in config.teams ensures forall u <- t.users :: Ref(Role, u.role) in run.seen {
      forall u | u in t.users ensures Ref(Role, u.role) in run.seen {
        KnownIsSeen(run, m, RoleItems(config), Ref(Role, u.role));
      }
    }
    UsersResolve(run.seen, config.teams);
    Distinctness(config, run.seen);
    ItemKinds(config, run.seen);
    RefreshedGoes(env, run, UserItems(run.seen, config.teams), User, {Role, Org});
  }

  lemma ServersGo(env: Env, config: Config, m: Misp, run: Run, tags: seq<Item>)
    requires Smooth(env) && DistinctConfig(config) && Resolvable(env, config, m)
    requires Fresh(run, {Role, Org}) && Knows(run, m, OrgItems(config)) && Knows(run, m, tags)
    requires Refs(tags) == Refs(TagItems(map[], config))
    ensures ServerStep(env, run, config).ok && Grows(run, ServerStep(env, run, config).run)
  {
    hide DistinctRefs, DistinctConfig, DistinctGroups, Knows, Grows, ServerItems, Fresh, OrgItems, Known, Each, TagItems;
    TeamsKnown(config, m, run);
    forall t | t in config.teams
      ensures forall s <- t.servers :: forall n <- s.pushTags + s.pushTagsExclude :: Ref(Tag, n) in run.seen
    {
      forall s, n | s in t.servers && n in s.pushTags + s.pushTagsExclude ensures Ref(Tag, n) in run.seen {
        KnownByRefs(m, tags, TagItems(map[], config), Ref(Tag, n));
        KnownIsSeen(run, m, tags, Ref(Tag, n));
      }
    }
    ServersResolve(run.seen, config.teams);
    Distinctness(config, run.seen);
    ItemKinds(config, run.seen);
    var run1 := run.(sent := run.misp.sent);
    SentIsNoMatter(run, run.misp.sent, {Role, Org});
    StepGoes(env, run1, ServerItems(run.seen, config.teams), Server, {Role, Org});
    EachGrows(env, run1, ServerItems(run.seen, config.teams));
    ServerStepGrows(env, run, config);
  }

  lemma SentIsNoMatter(run: Run, sent: map<string, string>, stale: set<Kind>)
    requires Fresh(run, stale)
    ensures Fresh(run.(sent := sent), stale) && Extends(run.seen, run.misp.records)
  {
    forall r: Ref | r.kind !in stale ensures SeenSame(run.(sent := sent), r) { assert SeenSame(run, r); }
  }

  lemma ServerStepGrows(env: Env, run: Run, config: Config)
    requires var run1 := run.(sent := run.misp.sent);
      Grows(run1, Each(env, run1, ServerItems(run.seen, config.teams)).0)
    ensures Grows(run, ServerStep(env, run, config).run)
  {
  }

  lemma KnownByRefs(m: Misp, a: seq<Item>, b: seq<Item>, q: Ref)
    requires Refs(a) == Refs(b) && Known(m, b, q)
    ensures Known(m, a, q)
  {
    assert q in Refs(b) <==> MayTouch(b, q);
    assert q in Refs(a) <==> MayTouch(a, q);
  }

  /** Records of a kind that the snapshot holds as they are, and that MISP holds, are in the snapshot. */
  lemma HeldIsKnown(run: Run, stale: set<Kind>, m: Misp, items: seq<Item>, kind: Kind)
    requires Fresh(run, stale) && kind !in stale && OfKind(items, kind) && AllHeld(run.misp, items)
    requires forall q :: q in m.records ==> q in run.seen
    ensures Knows(run, m, items)
  {
    forall i | i in items ensures ItemRef(i) in run.seen {
      HeldIsThere(run.misp, i);
      assert SeenSame(run, ItemRef(i));
    }
  }

  lemma SameTagRefs(config: Config, seen: Table)
    ensures Refs(TagItems(seen, config)) == Refs(TagItems(map[], config))
  {
    TeamRefs(map[], seen, config.teams);
    var global := seq(|config.tags|, i requires 0 <= i < |config.tags| => TagItem(config.tags[i], Some(0)));
    SameRefsConcat(global, global, TeamTags(seen, config.teams), TeamTags(map[], config.teams));
    SameRefsTouch(TagItems(seen, config), TagItems(map[], config));
  }

  lemma MiddleGo(env: Env, config: Config, ldap: bool, m: Misp)
    requires Smooth(env) && m.Valid() && DistinctConfig(config) && Resolvable(env, config, m)
    ensures var t := Steps(env, config, ldap, m);
      && t.roles.ok && t.orgs.ok && t.tags.ok && t.users.ok && t.servers.ok
      && Knows(t.servers.run, m, OrgItems(config))
  {
    hide TagStep, UserStep, ServerStep, TaxonomyStep, ListStep, Disable, Do, DoAndRefresh, DistinctRefs, DistinctConfig,
         DistinctGroups, Knows, AllHeld, Link, SeenBut, TagItems, UserItems, ServerItems, RoleItems, OrgItems, Grows,
         Resolvable, Fresh, Refs, OfKind;
    var t := Steps(env, config, ldap, m);
    var w := NamedSteps(env, config, ldap, m);
    FirstGo(env, config, ldap, m);
    LinkFresh(t.roles.run, t.orgs.run, w.orgs, Org, {Role, Org});
    TagsGo(env, config, m, t.orgs.run);
    LinkFresh(t.orgs.run, t.tags.run, w.tags, Tag, {Role, Org});
    KnowsGrows(t.orgs.run, t.tags.run, m, OrgItems(config));
    KnowsGrows(t.orgs.run, t.tags.run, m, RoleItems(config));
    Distinctness(config, t.orgs.run.seen);
    ItemKinds(config, t.orgs.run.seen);
    KnowsStart(t.tags.run, m, OrgItems(config));
    HeldIsKnown(t.tags.run, {Role, Org}, m, w.tags, Tag);
    UsersGo(env, config, m, t.tags.run);
    LinkFresh(t.tags.run, t.users.run, w.users, User, {Role, Org});
    KnowsGrows(t.tags.run, t.users.run, m, OrgItems(config));
    KnowsGrows(t.tags.run, t.users.run, m, w.tags);
    SameTagRefs(config, t.orgs.run.seen);
    ServersGo(env, config, m, t.users.run, w.tags);
    KnowsGrows(t.users.run, t.servers.run, m, OrgItems(config));
  }

  lemma KnowsStart(run: Run, m: Misp, items: seq<Item>)
    requires Knows(run, m, items)
    ensures forall q :: q in m.records ==> q in run.seen
  {
  }

  lemma {:induction false} LoadKeeps(m: Misp, shipped: seq<string>)
    ensures Extends(m.records, Load(m, shipped).records)
    ensures forall n <- shipped :: Ref(Taxonomy, n) in Load(m, shipped).records
  {
    LoadFrame(m, shipped);
    FrameExtends(m, Load(m, shipped), LoadedItems(shipped));
  }

  lemma LoadGoes(env: Env, run: Run, names: seq<string>, m: Misp)
    requires Smooth(env) && Extends(run.seen, run.misp.records)
    requires forall q :: q in m.records ==> q in run.seen
    requires forall n <- names :: Ref(Taxonomy, n) in m.records || n in env.shipped
    ensures var s := LoadStep(env, run, names);
      && s.ok && Grows(run, s.run) && forall n <- names :: Ref(Taxonomy, n) in s.run.seen
  {
    if !forall n <- names :: Ref(Taxonomy, n) in run.seen {
      var logged := run.misp.(posts := run.misp.posts + [LoadTaxonomies]);
      LoadKeeps(logged, env.shipped);
      var m' := Load(logged, env.shipped);
      RefreshesGrow(run.(misp := m'), Taxonomy);
    }
  }

  lemma TaxonomiesGo(env: Env, config: Config, m: Misp, run: Run, stale: set<Kind>)
    requires Smooth(env) && Resolvable(env, config, m) && Fresh(run, stale) && Taxonomy !in stale
    requires forall q :: q in m.records ==> q in run.seen
    ensures TaxonomyStep(env, run, config).ok && Grows(run, TaxonomyStep(env, run, config).run)
  {
    hide LoadStep, Each, Known, IsUuid4;
    if config.taxonomies.Some? {
      var names := config.taxonomies.value;
      var items := TaxonomyItems(names);
      LoadGoes(env, run, names, m);
      LoadStepFrame(env, run, names, stale);
      var loaded := LoadStep(env, run, names).run;
      forall i | i in items ensures i.Enable? && i.ref in loaded.seen && i.ref in loaded.misp.records {
        assert SeenSame(loaded, i.ref);
      }
      EnablesSucceed(env, loaded, items);
      EachGrows(env, loaded, items);
      SweepAndGrow(env, Do(env, loaded, items).run, Taxonomy, Refs(items));
    }
  }

  lemma SweepAndGrow(env: Env, run: Run, kind: Kind, named: set<Ref>)
    requires Smooth(env) && Extends(run.seen, run.misp.records)
    ensures var s := SweepStep(env, Step(run, true), kind, named);
      s.ok && Grows(run, s.run) && Extends(s.run.seen, s.run.misp.records)
  {
    hide Each;
    SweepGoes(env, run, kind, named);
    EachGrows(env, run, SweepItems(run.seen, run.misp.order, kind, named));
  }

  lemma ListsGo(env: Env, config: Config, m: Misp, run: Run, stale: set<Kind>)
    requires Smooth(env) && DistinctConfig(config) && Resolvable(env, config, m)
    requires Fresh(run, stale) && Warninglist !in stale && forall q :: q in m.records ==> q in run.seen
    ensures ListStep(env, run, config).ok && Grows(run, ListStep(env, run, config).run)
    ensures var run' := ListStep(env, run, config).run; Extends(run'.seen, run'.misp.records)
  {
    hide Each, Known, IsUuid4, DistinctRefs, SweepStep;
    if config.warninglists.Some? {
      var entries := config.warninglists.value;
      var items := ListItems(entries);
      Distinctness(config, m.records);
      ListItemKinds(entries);
      forall i | i in items ensures !i.Sweep? && !i.Loaded? && Resolves(run.seen, i) {
        var k :| 0 <= k < |entries| && EntryItem(entries[k]) == i;
        assert entries[k] in entries;
      }
      StepGoes(env, run, items, Warninglist, stale);
      EachGrows(env, run, items);
      SweepAndGrow(env, Do(env, run, items).run, Warninglist, Refs(items));
    }
  }

  lemma GroupsGo(env: Env, config: Config, m: Misp, run: Run)
    requires Smooth(env) && DistinctConfig(config) && Resolvable(env, config, m) && run.misp.Valid()
    requires DistinctTargets(run.groups, run.groupOrder, config.groups)
    requires run.groups == run.misp.groups && run.groupOrder == run.misp.groupOrder
    requires Knows(run, m, OrgItems(config)) && Extends(run.seen, run.misp.records)
    ensures var s := Do(env, run, GroupItems(config)); s.ok && Extends(s.run.seen, s.run.misp.records)
  {
    hide Each, Known, IsUuid4, DistinctTargets, DistinctGroups, DistinctRefs, DesiredOrgs, OrgItems, Placed, Knows;
    assert GroupItems(config) == Items(config.groups) && [] + config.groups == config.groups;
    forall def | def in config.groups ensures DesiredOrgs(run.seen, def.orgs).Some? {
      forall o | o in def.orgs ensures Ref(Org, Lower(o.uuid)) in run.seen {
        KnownIsSeen(run, m, OrgItems(config), Ref(Org, Lower(o.uuid)));
      }
      OrgsResolve(run.seen, def.orgs);
    }
    PlacedNone(run.misp, run.seen);
    GroupsSucceed(env, run, [], [], config.groups);
    EachGrows(env, run, GroupItems(config));
  }

  lemma ListedGo(env: Env, config: Config, ldap: bool, m: Misp, w: Work)
    requires Smooth(env) && m.Valid() && DistinctConfig(config) && Resolvable(env, config, m)
    requires var t := Steps(env, config, ldap, m);
      && NamedLinks(m, t, config, w) && LaterLinks(env, m, t, config, ldap, w)
      && Knows(t.servers.run, m, OrgItems(config))
    ensures var t := Steps(env, config, ldap, m);
      && t.taxonomies.ok && t.lists.ok
      && Knows(t.lists.run, m, OrgItems(config)) && Extends(t.lists.run.seen, t.lists.run.misp.records)
  {
    hide TagStep, UserStep, ServerStep, TaxonomyStep, ListStep, Do, DoAndRefresh, DistinctRefs, DistinctConfig,
         DistinctGroups, Knows, AllHeld, Link, SeenBut, TagItems, UserItems, ServerItems, RoleItems, OrgItems, GroupItems,
         Grows, Resolvable, Fresh, Refs, OfKind, DistinctTargets, NothingToSweep, SweepOf, TaxonomyItems, ListItems,
         SweepStep, MayTouch, HeldAfter;
    var t := Steps(env, config, ldap, m);
    LinkFresh(t.users.run, t.servers.run, w.servers, Server, {Role, Org, Server});
    KnowsStart(t.servers.run, m, OrgItems(config));
    TaxonomiesGo(env, config, m, t.servers.run, Stale);
    LinkFresh(t.servers.run, t.taxonomies.run, w.taxonomies + w.sweptTaxonomies, Taxonomy, Stale + {Taxonomy});
    KnowsGrows(t.servers.run, t.taxonomies.run, m, OrgItems(config));
    KnowsStart(t.taxonomies.run, m, OrgItems(config));
    ListsGo(env, config, m, t.taxonomies.run, Stale + {Taxonomy});
    KnowsGrows(t.taxonomies.run, t.lists.run, m, OrgItems(config));
  }

  lemma LaterGo(env: Env, config: Config, ldap: bool, m: Misp)
    requires Smooth(env) && m.Valid() && DistinctConfig(config) && Resolvable(env, config, m)
    requires DistinctTargets(m.groups, m.groupOrder, config.groups)
    ensures var t := Steps(env, config, ldap, m);
      t.taxonomies.ok && t.lists.ok && t.groups.ok && t.sweptUsers.ok && t.sweptServers.ok
  {
    hide *;
    var t := Steps(env, config, ldap, m);
    var named := NamedSteps(env, config, ldap, m);
    var w := LaterSteps(env, config, ldap, m, named);
    MiddleGo(env, config, ldap, m);
    ListedGo(env, config, ldap, m, w);
    Laters(env, m, t, config, ldap, w);
    ListsValid(env, m, t, config, ldap, w);
    GroupsStart(m, t.lists.run);
    GroupsGo(env, config, m, t.lists.run);
    EndsAre(env, config, ldap, m);
    DisableGoes(env, t.groups.run, t.users.ok && !ldap, User, Refs(UserItems(m.records, config.teams)));
    DisableGoes(env, t.sweptUsers.run, t.servers.ok, Server, Refs(ServerItems(m.records, config.teams)));
  }

  lemma GroupsStart(m: Misp, run: Run)
    requires GroupsKept(Fetch(m), run)
    ensures run.groups == run.misp.groups == m.groups && run.groupOrder == run.misp.groupOrder == m.groupOrder
  {
  }

  lemma DisableGoes(env: Env, run: Run, after: bool, kind: Kind, named: set<Ref>)
    requires Smooth(env) && Extends(run.seen, run.misp.records)
    ensures var s := Disable(env, run, after, kind, named); s.ok && Extends(s.run.seen, s.run.misp.records)
  {
    hide SweepStep;
    if after { SweepAndGrow(env, run, kind, named); }
  }

  lemma EndsAre(env: Env, config: Config, ldap: bool, m: Misp)
    ensures var t := Steps(env, config, ldap, m);
      && t.groups == Do(env, t.lists.run, GroupItems(config))
      && t.sweptUsers == Disable(env, t.groups.run, t.users.ok && !ldap, User, Refs(UserItems(m.records, config.teams)))
      && t.sweptServers == Disable(env, t.sweptUsers.run, t.servers.ok, Server, Refs(ServerItems(m.records, config.teams)))
  {
    hide TagStep, UserStep, ServerStep, TaxonomyStep, ListStep, Do, DoAndRefresh, Disable, GroupItems, RoleItems, OrgItems,
         UserItems, ServerItems, Refs;
  }

  /** Progress: when MISP refuses no post and every name in the file resolves, the run exits 0. */
  lemma SmoothRunExits0(env: Env, config: Config, ldap: bool, m: Misp)
    requires Smooth(env) && m.Valid() && DistinctConfig(config) && Resolvable(env, config, m)
    requires DistinctTargets(m.groups, m.groupOrder, config.groups)
    ensures Apply(env, config, ldap, m).1.Ok()
  {
    hide TagStep, UserStep, ServerStep, TaxonomyStep, ListStep, Do, DoAndRefresh, DistinctConfig, Resolvable, DistinctTargets,
         Disable, GroupItems, RoleItems, OrgItems, IsEmpty;
    MiddleGo(env, config, ldap, m);
    LaterGo(env, config, ldap, m);
  }

  /** From any state: a run that nothing refuses brings MISP to what the file asks, and the next one, under any
      refusals, posts nothing. */
  lemma SmoothRunConverges(env: Env, again: Env, config: Config, ldap: bool, m: Misp)
    requires Smooth(env) && Walks(again) && m.Valid() && DistinctConfig(config) && Resolvable(env, config, m)
    requires DistinctTargets(m.groups, m.groupOrder, config.groups) && !IsEmpty(config)
    ensures var m' := Apply(env, config, ldap, m).0;
      && SyncRun.Settled(m', config, ldap)
      && Apply(again, config, ldap, m').0 == m' && Apply(again, config, ldap, m').1.Ok()
  {
    hide Apply, DistinctConfig, Resolvable, DistinctTargets, SyncRun.Settled, IsEmpty;
    SmoothRunExits0(env, config, ldap, m);
    Converges(env, config, ldap, m);
    SecondRunOnlyReads(env, again, config, ldap, m);
  }
}
