/** When sharing groups converge: exactly when no two entries of the file find the same group. */
module SyncUnique {
  import opened Values
  import opened MispWorld
  import opened SharingGroups
  import opened SyncItems
  import opened SyncSteps
  import opened SyncRun
  import opened SyncSwept
  import opened SyncLinks
  import opened SyncConverge
  import opened SyncGroups

  /** MISP holds no two groups of one name or of one UUID. */
  ghost predicate Unique(groups: map<Id, Group>) {
    forall g, h, f :: g in groups && h in groups && Matches(groups[g].fields, f) && Matches(groups[h].fields, f) ==> g == h
  }

  // ---- Which groups a step touches -----------------------------------------------------------

  lemma ReconcileTouches(env: Env, m: Misp, groups: map<Id, Group>, order: seq<Id>, def: GroupDef)
    requires m.next !in m.groups
    requires var g := Find(groups, order, def); g.Some? ==> g.value in m.groups
    ensures var (m1, outcome) := ReconcileGroup(env, m, groups, order, def); var t := Target(m, groups, order, def);
      OnlyGroup(m, m1, t) && (outcome != Failed ==> t in m1.groups)
  {
    if Find(groups, order, def).None? {
      CreateGroupReaches(env, m, Data(def));
    } else {
      var g := Find(groups, order, def).value;
      var p := EditGroup(g, if g in groups then Differences(Data(def), groups[g].fields) else Data(def));
      EditTouches(env, m, g, p.fields);
    }
  }

  lemma EditTouches(env: Env, m: Misp, g: Id, fields: map<string, Value>)
    requires g in m.groups
    ensures var m1 := Send(env, m, EditGroup(g, fields)).0; OnlyGroup(m, m1, g) && g in m1.groups
  {
  }

  lemma ScriptGroup(env: Env, g: Id, d: Desired, current: map<Id, bool>)
    requires d.Valid()
    ensures forall p <- Script(env, g, d, current) :: (p.AddMember? || p.RemoveMember?) && p.group == g
  {
  }

  /** Whatever MISP refuses and whatever the snapshot holds, an entry touches its own group only. */
  lemma ApplyGroupTouches(env: Env, m: Misp, groups: map<Id, Group>, order: seq<Id>, seen: Table, def: GroupDef)
    requires m.next !in m.groups
    requires var g := Find(groups, order, def); g.Some? ==> g.value in m.groups
    ensures OnlyGroup(m, ApplyGroup(env, m, groups, order, seen, def).0, Target(m, groups, order, def))
  {
    var orgs, t := DesiredOrgs(seen, def.orgs), Target(m, groups, order, def);
    ReconcileTouches(env, m, groups, order, def);
    var (m1, outcome) := ReconcileGroup(env, m, groups, order, def);
    if outcome != Failed && orgs.Some? {
      var current := if Find(groups, order, def).Some? && t in groups then groups[t].members else map[];
      ScriptGroup(env, t, orgs.value, current);
      PlayPosts(env, m1, t, Script(env, t, orgs.value, current));
      MembersAfter(m, m1, Play(env, m1, Script(env, t, orgs.value, current)).0, t);
    }
  }

  /** After the step every group but the targets is as the snapshot had it. */
  ghost predicate Touched(run: Run, m: Misp, defs: seq<GroupDef>, targets: seq<Id>) {
    && |targets| == |defs|
    && (forall k :: 0 <= k < |defs| && Find(run.groups, run.groupOrder, defs[k]).Some? ==>
          Find(run.groups, run.groupOrder, defs[k]) == Some(targets[k]))
    && (forall h :: h in m.groups && h !in targets ==> h in run.groups && m.groups[h] == run.groups[h])
    && (forall h :: h in run.groups ==> h in m.groups)
  }

  lemma {:induction false} EachTouches(env: Env, run: Run, done: seq<GroupDef>, targets: seq<Id>, defs: seq<GroupDef>)
    returns (all: seq<Id>)
    requires run.misp.Valid() && Touched(run, run.misp, done, targets)
    ensures Touched(run, Each(env, run, Items(defs)).0.misp, done + defs, all)
    decreases defs
  {
    hide ApplyOne, Find, Target;
    if defs == [] {
      all := targets;
      assert done + defs == done;
    } else {
      var def, rest := defs[0], defs[1..];
      assert Items(defs)[0] == GroupItem(def) && Items(defs)[1..] == Items(rest);
      var run1 := ApplyOne(env, run, GroupItem(def)).0;
      var t := Target(run.misp, run.groups, run.groupOrder, def);
      TouchOne(env, run, done, targets, def);
      GroupKeeps(env, run, def);
      assert done + defs == (done + [def]) + rest;
      all := EachTouches(env, run1, done + [def], targets + [t], rest);
    }
  }

  lemma TouchOne(env: Env, run: Run, done: seq<GroupDef>, targets: seq<Id>, def: GroupDef)
    requires run.misp.Valid() && Touched(run, run.misp, done, targets)
    ensures var m' := ApplyOne(env, run, GroupItem(def)).0.misp;
      var t := Target(run.misp, run.groups, run.groupOrder, def);
      Touched(run, m', done + [def], targets + [t]) && m'.Valid()
  {
    var m' := ApplyOne(env, run, GroupItem(def)).0.misp;
    var t := Target(run.misp, run.groups, run.groupOrder, def);
    GroupOutcome(env, run, def);
    if Find(run.groups, run.groupOrder, def).Some? { FindInGroups(run.groups, run.groupOrder, def); }
    ApplyGroupTouches(env, run.misp, run.groups, run.groupOrder, run.seen, def);
    ApplyGroupFrame(env, run.misp, run.groups, run.groupOrder, run.seen, def);
    var targets' := targets + [t];
    assert t == targets'[|targets|];
    forall h | h in m'.groups && h !in targets' ensures h in run.groups && m'.groups[h] == run.groups[h] {
      assert h != t && h !in targets;
    }
  }

  // ---- Two entries, one group ----------------------------------------------------------------

  /** A settled entry whose group the step did not touch found that group before it. */
  lemma UntouchedWasFound(run: Run, m: Misp, seen: Table, def: GroupDef, g: Id)
    requires Unique(run.groups) && (forall h :: h in run.groups ==> h in run.groupOrder)
    requires GroupHeld(m, g, def, seen) && g in run.groups && m.groups[g] == run.groups[g]
    ensures Find(run.groups, run.groupOrder, def) == Some(g)
  {
    HeldMatches(m, g, def, seen);
    var f := Key(def);
    forall h | h in run.groupOrder && h in run.groups && Matches(run.groups[h].fields, f) ensures h == g {}
    LastUnique(run.groups, run.groupOrder, f, g);
    KeyFinds(run.groups, run.groupOrder, def);
  }

  function Elements(s: seq<Id>): set<Id> { set x | x in s }

  lemma {:induction false} ElementsCount(s: seq<Id>)
    ensures |Elements(s)| <= |s|
    ensures Distinct(s) ==> |Elements(s)| == |s|
    decreases s
  {
    if s != [] {
      var init, last := s[..|s| - 1], s[|s| - 1];
      ElementsCount(init);
      assert Elements(s) == Elements(init) + {last};
      if Distinct(s) { assert last !in init; }
    }
  }

  lemma Repeats(s: seq<Id>, i: nat, j: nat)
    requires i < j < |s| && s[i] == s[j]
    ensures |Elements(s)| < |s|
  {
    var rest := s[..j] + s[j + 1..];
    assert Elements(s) == Elements(rest) by {
      forall x | x in s ensures x in rest {
        var k :| 0 <= k < |s| && s[k] == x;
        if k == j { assert rest[i] == x; } else if k < j { assert rest[k] == x; } else { assert rest[k - 1] == x; }
      }
    }
    ElementsCount(rest);
  }

  lemma Within(a: set<Id>, b: set<Id>)
    requires a <= b
    ensures |a| <= |b|
  {
    assert b == a + (b - a);
  }

  /** The groups that the settled entries find are different ones. */
  lemma SettledApart(m: Misp, seen: Table, defs: seq<GroupDef>, found: seq<Id>)
    requires DistinctGroups(defs) && |found| == |defs|
    requires forall k :: 0 <= k < |defs| ==> GroupHeld(m, found[k], defs[k], seen)
    ensures Distinct(found)
  {
    forall i, j | 0 <= i < j < |found| ensures found[i] != found[j] {
      HeldName(m, found[i], defs[i], seen);
      HeldName(m, found[j], defs[j], seen);
      assert defs[i].name != defs[j].name;
    }
  }

  lemma HeldName(m: Misp, g: Id, def: GroupDef, seen: Table)
    requires GroupHeld(m, g, def, seen)
    ensures Field(m.groups[g].fields, "name").Scalar() && Show(Field(m.groups[g].fields, "name")) == def.name
  {
    HeldMatches(m, g, def, seen);
  }

  /** When two entries find one group, the step cannot settle every entry. */
  lemma SharedGroupNeverSettles(env: Env, run: Run, defs: seq<GroupDef>, seen: Table)
    requires run.misp.Valid() && Unique(run.groups) && DistinctGroups(defs)
    requires run.groups == run.misp.groups && run.groupOrder == run.misp.groupOrder
    requires var m' := Each(env, run, Items(defs)).0.misp; forall def <- defs :: GroupSettled(m', def, seen)
    ensures DistinctTargets(run.groups, run.groupOrder, defs)
  {
    hide Each, Items, GroupHeld, GroupSettled, DistinctGroups, Unique, Find, Found, Touched, Elements;
    var m' := Each(env, run, Items(defs)).0.misp;
    NothingTouched(run);
    var targets := EachTouches(env, run, [], [], defs);
    assert [] + defs == defs;
    AllFound(run, m', seen, defs, targets);
    forall i, j | 0 <= i < j < |defs| && Find(run.groups, run.groupOrder, defs[i]).Some?
      ensures Find(run.groups, run.groupOrder, defs[i]) != Find(run.groups, run.groupOrder, defs[j])
    {
      if Find(run.groups, run.groupOrder, defs[i]) == Find(run.groups, run.groupOrder, defs[j]) {
        TargetsAre(run, m', defs, targets, i);
        TargetsAre(run, m', defs, targets, j);
        Repeats(targets, i, j);
      }
    }
  }

  lemma TargetsAre(run: Run, m: Misp, defs: seq<GroupDef>, targets: seq<Id>, k: nat)
    requires Touched(run, m, defs, targets) && k < |defs| && Find(run.groups, run.groupOrder, defs[k]).Some?
    ensures |targets| == |defs| && Find(run.groups, run.groupOrder, defs[k]) == Some(targets[k])
  {
  }

  /** The settled entries find as many groups as there are entries, all of them targets. */
  lemma AllFound(run: Run, m: Misp, seen: Table, defs: seq<GroupDef>, targets: seq<Id>)
    requires run.misp.Valid() && run.groups == run.misp.groups && run.groupOrder == run.misp.groupOrder
    requires Unique(run.groups) && DistinctGroups(defs) && Touched(run, m, defs, targets)
    requires forall def <- defs :: GroupSettled(m, def, seen)
    ensures |targets| == |defs| <= |Elements(targets)|
  {
    hide GroupHeld, GroupSettled, DistinctGroups, Unique, Find, Found;
    var found := seq(|defs|, k requires 0 <= k < |defs| => Found(m, defs[k]));
    forall k | 0 <= k < |defs| ensures GroupHeld(m, found[k], defs[k], seen) && found[k] in targets {
      assert defs[k] in defs;
      SettledFound(m, defs[k], seen);
      if found[k] !in targets { UntouchedWasFound(run, m, seen, defs[k], found[k]); }
    }
    SettledApart(m, seen, defs, found);
    ElementsCount(found);
    forall x | x in Elements(found) ensures x in Elements(targets) {
      var k :| 0 <= k < |found| && found[k] == x;
    }
    Within(Elements(found), Elements(targets));
  }

  lemma NothingTouched(run: Run)
    requires run.groups == run.misp.groups
    ensures Touched(run, run.misp, [], [])
  {
  }

  lemma SettledFound(m: Misp, def: GroupDef, seen: Table)
    requires GroupSettled(m, def, seen)
    ensures GroupHeld(m, Found(m, def), def, seen) && Found(m, def) in m.groups
  {
  }

  function Found(m: Misp, def: GroupDef): Id {
    var g := Find(m.groups, m.groupOrder, def);
    if g.Some? then g.value else 1
  }

  // ---- Over a run --------------------------------------------------------------------------

  lemma SettledElsewhere(m: Misp, m': Misp, def: GroupDef, seen: Table)
    requires GroupSettled(m', def, seen) && SameGroups(m, m')
    ensures GroupSettled(m, def, seen)
  {
  }

  /** A run that exits 0 settles MISP if and only if no two sharing groups of the file found the same group, one
      by its UUID and the other by its name. The condition is on the state and the file alone. */
  lemma ConvergesIff(env: Env, config: Config, ldap: bool, m: Misp)
    requires Walks(env) && m.Valid() && DistinctConfig(config) && !IsEmpty(config) && Unique(m.groups)
    requires Apply(env, config, ldap, m).1.Ok()
    ensures SyncRun.Settled(Apply(env, config, ldap, m).0, config, ldap)
            <==> DistinctTargets(m.groups, m.groupOrder, config.groups)
  {
    hide Apply, Steps, SyncRun.Settled, DistinctTargets, Unique, DistinctConfig, IsEmpty;
    if DistinctTargets(m.groups, m.groupOrder, config.groups) { Converges(env, config, ldap, m); }
    if SyncRun.Settled(Apply(env, config, ldap, m).0, config, ldap) { SettledMeansApart(env, config, ldap, m); }
  }

  lemma SettledMeansApart(env: Env, config: Config, ldap: bool, m: Misp)
    requires Walks(env) && m.Valid() && DistinctConfig(config) && !IsEmpty(config) && Unique(m.groups)
    requires Apply(env, config, ldap, m).1.Ok()
    requires SyncRun.Settled(Apply(env, config, ldap, m).0, config, ldap)
    ensures DistinctTargets(m.groups, m.groupOrder, config.groups)
  {
    hide Do, Each, DoAndRefresh, Disable, ServerStep, TaxonomyStep, ListStep, Link, SeenBut, SweepOf, AllHeld, Refs, Apply,
         RoleItems, OrgItems, TagItems, UserItems, ServerItems, TaxonomyItems, ListItems, TaxonomyLink, DisableLink,
         NothingToSweep, DistinctRefs, Later, Steps, GroupSettled, DistinctTargets, DistinctGroups, Unique, IsEmpty;
    var t, end := Steps(env, config, ldap, m), Apply(env, config, ldap, m).0;
    var named := NamedSteps(env, config, ldap, m);
    var w := LaterSteps(env, config, ldap, m, named);
    AllOk(env, config, ldap, m);
    Laters(env, m, t, config, ldap, w);
    forall def | def in config.groups ensures GroupSettled(t.groups.run.misp, def, end.records) {
      SettledElsewhere(t.groups.run.misp, end, def, end.records);
    }
    GroupsRun(env, config, ldap, m);
    SharedGroupNeverSettles(env, t.lists.run, config.groups, end.records);
  }

  lemma GroupsRun(env: Env, config: Config, ldap: bool, m: Misp)
    ensures var t := Steps(env, config, ldap, m); t.groups.run == Each(env, t.lists.run, Items(config.groups)).0
  {
    hide Each, DoAndRefresh, Disable, ServerStep, TaxonomyStep, ListStep, RoleItems, OrgItems, TagStep, UserStep;
    assert GroupItems(config) == Items(config.groups);
  }

  // ---- A file that does not converge -----------------------------------------------------------

  const Uuid1 := "00000000-0000-4000-8000-000000000000"

  /** Finds MISP's group by its UUID, and renames it. */
  const Renamed := GroupDef("a", Some(Uuid1), map[], [])

  /** Finds the same group by its name. */
  const Named := GroupDef("b", None, map[], [])

  const OneGroup := map[1 := Group(map["uuid" := Str(Uuid1), "name" := Str("b")], map[])]

  const Start := Misp(map[], [], OneGroup, [1], 2, map[], map[], [])

  const TwoEntries := Config([], [], [], None, None, [Renamed, Named])

  lemma PlainUuid(u: string)
    requires IsUuid4(u)
    ensures Lower(Strip(u)) == u
  {
    forall i | 0 <= i < |u| ensures LowerChar(u[i]) == u[i] && !IsSpace(u[i]) {
      assert if i in {8, 13, 18, 23} then u[i] == '-' else IsHex(u[i]);
    }
  }

  lemma UuidIsOne()
    ensures IsUuid4(Uuid1)
  {
    forall i | 0 <= i < 36 ensures if i in {8, 13, 18, 23} then Uuid1[i] == '-' else IsHex(Uuid1[i]) {
      if i < 13 { FirstHalf(i); } else { SecondHalf(i); }
    }
  }

  lemma FirstHalf(i: nat)
    requires i < 13
    ensures if i == 8 then Uuid1[i] == '-' else IsHex(Uuid1[i])
  {
  }

  lemma SecondHalf(i: nat)
    requires 13 <= i < 36
    ensures if i in {13, 18, 23} then Uuid1[i] == '-' else IsHex(Uuid1[i])
  {
  }

  lemma BothFindIt()
    ensures Find(OneGroup, [1], Renamed) == Some(1) && Find(OneGroup, [1], Named) == Some(1)
    ensures IsUuid4(Uuid(Renamed)) && Unique(OneGroup)
  {
    hide IsUuid4, Lower, Strip;
    UuidIsOne();
    PlainUuid(Uuid1);
    assert Lower(Uuid1) == Uuid1 by { LowerTwice(Strip(Uuid1)); }
    assert Matches(OneGroup[1].fields, ByUuid(Uuid1)) && Matches(OneGroup[1].fields, ByName("b"));
    assert [1][|[1]| - 1] == 1;
  }

  /** An entry without organisations succeeds on a group without members when nothing is refused. */
  lemma PlainGroupSucceeds(env: Env, run: Run, def: GroupDef, g: Id)
    requires Walks(env) && forall n :: !env.refuse(n)
    requires Find(run.groups, run.groupOrder, def) == Some(g) && g in run.misp.groups
    requires g in run.groups && run.groups[g].members == map[] && def.orgs == []
    requires def.uuid.Some? ==> IsUuid4(Uuid(def))
    ensures var (run1, o) := ApplyOne(env, run, GroupItem(def));
      && o != Failed && g in run1.misp.groups && run1 == run.(misp := run1.misp)
  {
    var d := Desired([], map[]);
    assert DesiredOrgs(run.seen, []) == Some(d);
    SyncOfSettledPostsNothing(env, g, d);
    assert Script(env, g, d, run.groups[g].members) == [];
  }

  lemma BothSucceed(env: Env, run: Run)
    requires Walks(env) && (forall n :: !env.refuse(n)) && run.groups == OneGroup && run.groupOrder == [1]
    requires run.misp.groups == OneGroup
    ensures Failed !in Each(env, run, [GroupItem(Renamed), GroupItem(Named)]).1
  {
    hide ApplyOne, Find, IsUuid4, Unique;
    BothFindIt();
    var items := [GroupItem(Renamed), GroupItem(Named)];
    PlainGroupSucceeds(env, run, Renamed, 1);
    var run1 := ApplyOne(env, run, GroupItem(Renamed)).0;
    PlainGroupSucceeds(env, run1, Named, 1);
    var run2 := ApplyOne(env, run1, GroupItem(Named)).0;
    assert items[1..] == [GroupItem(Named)] && items[1..][1..] == [];
    assert Each(env, run2, []) == (run2, []);
  }

  lemma OnlyGroupsRun(env: Env, ldap: bool)
    ensures var t := Steps(env, TwoEntries, ldap, Start);
      && t.roles.ok && t.orgs.ok && t.tags.ok && t.users.ok && t.servers.ok && t.taxonomies.ok && t.lists.ok
      && t.lists.run == Fetch(Start)
  {
    hide ApplyOne;
    assert forall run :: Each(env, run, []) == (run, []);
    assert TagItems(map[], TwoEntries) == [] && RoleItems(TwoEntries) == [] && OrgItems(TwoEntries) == [];
    forall kind { SyncWarm.RefreshIdle(Fetch(Start), kind); }
  }

  lemma AllSucceed(env: Env)
    requires Walks(env) && forall n :: !env.refuse(n)
    ensures Apply(env, TwoEntries, true, Start).1.Ok()
  {
    hide Each, ApplyOne;
    OnlyGroupsRun(env, true);
    BothSucceed(env, Fetch(Start));
    var t := Steps(env, TwoEntries, true, Start);
    assert GroupItems(TwoEntries) == [GroupItem(Renamed), GroupItem(Named)];
    EachFrame(env, t.lists.run, GroupItems(TwoEntries));
    NoSweeps(env, t.groups.run, NamedServers(Start, TwoEntries));
  }

  lemma NoSweeps(env: Env, run: Run, named: set<Ref>)
    requires run.seen == map[]
    ensures SweepStep(env, Step(run, true), Server, named) == Step(run, true)
  {
    var items := SweepItems(run.seen, run.misp.order, Server, named);
    SweepItemsAre(run.seen, run.misp.order, Server, named);
    if items != [] {
      FirstIsSeen(run, items, named);
      assert false;
    }
  }

  lemma FirstIsSeen(run: Run, items: seq<Item>, named: set<Ref>)
    requires items != [] && forall i <- items :: SweepFor(i, run.seen, Server, named)
    ensures items[0].Sweep? && items[0].ref in run.seen
  {
    assert items[0] in items;
  }

  lemma TwoEntriesAreDistinct()
    ensures DistinctConfig(TwoEntries) && Start.Valid() && !IsEmpty(TwoEntries)
  {
  }

  /** Keys may all be distinct, and a run exit 0, without MISP being as the file asks: one entry finds a group by
      its UUID and another finds it by its name. */
  lemma TwoEntriesOneGroup(env: Env)
    requires Walks(env) && forall n :: !env.refuse(n)
    ensures DistinctConfig(TwoEntries) && Start.Valid()
    ensures var (m', summary) := Apply(env, TwoEntries, true, Start);
      summary.Ok() && !SyncRun.Settled(m', TwoEntries, true)
  {
    hide Each, SyncRun.Settled, Find, Unique, IsUuid4, Apply, TeamTags, UserItems, ServerItems;
    BothFindIt();
    AllSucceed(env);
    TwoEntriesAreDistinct();
    var defs := TwoEntries.groups;
    assert !DistinctTargets(OneGroup, [1], defs) by { assert Find(OneGroup, [1], defs[0]) == Find(OneGroup, [1], defs[1]); }
    ConvergesIff(env, TwoEntries, true, Start);
  }
}
