/** The sharing-group step: entries that mean different groups all reach them, and find them again. */
module SyncGroups {
  import opened Values
  import opened MispWorld
  import opened SharingGroups
  import opened SyncItems

  ghost predicate DistinctGroups(defs: seq<GroupDef>) {
    forall i, j :: 0 <= i < j < |defs| ==>
      && defs[i].name != defs[j].name
      && (defs[i].uuid.Some? && defs[j].uuid.Some? ==> Uuid(defs[i]) != Uuid(defs[j]))
  }

  /** No two entries find the same group. */
  ghost predicate DistinctTargets(groups: map<Id, Group>, order: seq<Id>, defs: seq<GroupDef>) {
    forall i, j :: 0 <= i < j < |defs| && Find(groups, order, defs[i]).Some? ==>
      Find(groups, order, defs[i]) != Find(groups, order, defs[j])
  }

  function Items(defs: seq<GroupDef>): seq<Item> {
    seq(|defs|, i requires 0 <= i < |defs| => GroupItem(defs[i]))
  }

  /** The groups of m: those of the snapshot, and for each entry its target as the entry asks. */
  ghost predicate Placed(groups: map<Id, Group>, order: seq<Id>, m: Misp, seen: Table, defs: seq<GroupDef>,
                         targets: seq<Id>)
  {
    && |targets| == |defs|
    && Distinct(targets)
    && (forall k :: 0 <= k < |defs| ==> PlacedOne(groups, order, m, seen, defs[k], targets[k]))
    && (forall h :: h in m.groups && h !in targets ==> h in groups && m.groups[h] == groups[h])
    && order <= m.groupOrder
    && (forall k :: |order| <= k < |m.groupOrder| ==> m.groupOrder[k] in targets && m.groupOrder[k] !in groups)
    && (forall h :: h in m.groups ==> h in m.groupOrder)
  }

  ghost predicate PlacedOne(groups: map<Id, Group>, order: seq<Id>, m: Misp, seen: Table, def: GroupDef, t: Id) {
    && GroupHeld(m, t, def, seen)
    && OtherFieldsKept(m, groups, t, def)
    && (def.uuid.Some? ==> IsUuid4(Uuid(def)))
    && match Find(groups, order, def)
       case Some(g) => t == g && g in groups
       case None => t !in groups
  }

  lemma GroupOutcome(env: Env, run: Run, def: GroupDef)
    ensures var (m', o) := ApplyGroup(env, run.misp, run.groups, run.groupOrder, run.seen, def);
      ApplyOne(env, run, GroupItem(def)) == (run.(misp := m'), o) && (o != Failed && def.uuid.Some? ==> IsUuid4(Uuid(def)))
  {
  }

  lemma GroupKeeps(env: Env, run: Run, def: GroupDef)
    ensures var run1 := ApplyOne(env, run, GroupItem(def)).0; run1 == run.(misp := run1.misp)
  {
  }

  /** One more entry is placed. */
  lemma PlaceOne(env: Env, run: Run, done: seq<GroupDef>, targets: seq<Id>, def: GroupDef)
    requires Walks(env) && run.misp.Valid()
    requires Placed(run.groups, run.groupOrder, run.misp, run.seen, done, targets)
    requires DistinctTargets(run.groups, run.groupOrder, done + [def])
    requires forall h :: h in run.groups ==> h in run.misp.groups
    requires ApplyOne(env, run, GroupItem(def)).1 != Failed
    ensures var m' := ApplyOne(env, run, GroupItem(def)).0.misp;
      var t := Target(run.misp, run.groups, run.groupOrder, def);
      && Placed(run.groups, run.groupOrder, m', run.seen, done + [def], targets + [t])
      && m'.Valid()
      && forall h :: h in run.groups ==> h in m'.groups
  {
    var groups, order, m := run.groups, run.groupOrder, run.misp;
    var t := Target(m, groups, order, def);
    var m' := ApplyOne(env, run, GroupItem(def)).0.misp;
    GroupOutcome(env, run, def);
    TargetIsNew(run, done, targets, def);
    ApplyGroupReaches(env, m, groups, order, run.seen, def);
    ApplyGroupFrame(env, m, groups, order, run.seen, def);
    forall k | 0 <= k < |done| ensures PlacedOne(groups, order, m', run.seen, done[k], targets[k]) {
      assert PlacedOne(groups, order, m, run.seen, done[k], targets[k]) && targets[k] != t;
    }
    assert PlacedOne(groups, order, m', run.seen, def, t);
    PlacedStep(groups, order, m, m', run.seen, done, targets, def, t);
  }

  lemma TargetIsNew(run: Run, done: seq<GroupDef>, targets: seq<Id>, def: GroupDef)
    requires run.misp.Valid()
    requires Placed(run.groups, run.groupOrder, run.misp, run.seen, done, targets)
    requires DistinctTargets(run.groups, run.groupOrder, done + [def])
    requires forall h :: h in run.groups ==> h in run.misp.groups
    ensures var t, g := Target(run.misp, run.groups, run.groupOrder, def), Find(run.groups, run.groupOrder, def);
      && t !in targets && run.misp.next !in run.misp.groups
      && (g.Some? ==> t in run.groups && t in run.misp.groups && run.misp.groups[t] == run.groups[t])
      && (g.None? ==> t !in run.misp.groups)
  {
    var groups, order := run.groups, run.groupOrder;
    var t, g := Target(run.misp, groups, order, def), Find(groups, order, def);
    if g.Some? { FindInGroups(groups, order, def); }
    forall k | 0 <= k < |targets| ensures targets[k] != t {
      assert PlacedOne(groups, order, run.misp, run.seen, done[k], targets[k]);
      assert (done + [def])[k] == done[k] && (done + [def])[|done|] == def;
    }
  }

  lemma FindInGroups(groups: map<Id, Group>, order: seq<Id>, def: GroupDef)
    requires Find(groups, order, def).Some?
    ensures Find(groups, order, def).value in groups
  {
    if def.uuid.Some? { LastInOrder(groups, order, ByUuid(Uuid(def))); }
    LastInOrder(groups, order, ByName(def.name));
  }

  lemma PlacedStep(groups: map<Id, Group>, order: seq<Id>, m: Misp, m': Misp, seen: Table, done: seq<GroupDef>,
                   targets: seq<Id>, def: GroupDef, t: Id)
    requires Placed(groups, order, m, seen, done, targets) && OnlyGroup(m, m', t) && m'.Valid() && t !in targets
    requires forall k :: 0 <= k < |done| ==> PlacedOne(groups, order, m', seen, done[k], targets[k])
    requires PlacedOne(groups, order, m', seen, def, t) && (t !in m.groups ==> t !in groups)
    ensures Placed(groups, order, m', seen, done + [def], targets + [t])
  {
    var targets' := targets + [t];
    assert t == targets'[|targets|];
    forall h | h in m'.groups && h !in targets' ensures h in groups && m'.groups[h] == groups[h] {
      assert h != t && h !in targets;
    }
    forall k | |order| <= k < |m'.groupOrder|
      ensures m'.groupOrder[k] in targets' && m'.groupOrder[k] !in groups
    {
      if k < |m.groupOrder| { assert m'.groupOrder[k] == m.groupOrder[k]; }
    }
  }

  /** A step without failures places every entry. */
  lemma {:induction false} EachPlaces(env: Env, run: Run, done: seq<GroupDef>, targets: seq<Id>, defs: seq<GroupDef>)
    returns (all: seq<Id>)
    requires Walks(env) && run.misp.Valid()
    requires Placed(run.groups, run.groupOrder, run.misp, run.seen, done, targets)
    requires DistinctTargets(run.groups, run.groupOrder, done + defs)
    requires forall h :: h in run.groups ==> h in run.misp.groups
    requires Failed !in Each(env, run, Items(defs)).1
    ensures Placed(run.groups, run.groupOrder, Each(env, run, Items(defs)).0.misp, run.seen, done + defs, all)
    ensures Each(env, run, Items(defs)).0.seen == run.seen
    decreases defs
  {
    hide ApplyOne, Placed, Find, Target;
    if defs == [] {
      all := targets;
      assert done + defs == done;
    } else {
      var def, rest := defs[0], defs[1..];
      assert Items(defs)[0] == GroupItem(def) && Items(defs)[1..] == Items(rest);
      var (run1, outcome) := ApplyOne(env, run, GroupItem(def));
      var (run2, os) := Each(env, run1, Items(rest));
      assert Each(env, run, Items(defs)) == (run2, [outcome] + os);
      assert outcome in [outcome] + os;
      assert done + defs == (done + [def]) + rest;
      forall i, j | 0 <= i < j < |done + [def]| && Find(run.groups, run.groupOrder, (done + [def])[i]).Some?
        ensures Find(run.groups, run.groupOrder, (done + [def])[i]) != Find(run.groups, run.groupOrder, (done + [def])[j])
      {
        assert (done + [def])[i] == (done + defs)[i] && (done + [def])[j] == (done + defs)[j];
      }
      PlaceOne(env, run, done, targets, def);
      GroupKeeps(env, run, def);
      forall o | o in os ensures o != Failed { assert o in [outcome] + os; }
      all := EachPlaces(env, run1, done + [def], targets + [Target(run.misp, run.groups, run.groupOrder, def)], rest);
    }
  }

  // ---- Placed groups are found again -------------------------------------------------------

  lemma LowerTwice(s: string)
    ensures Lower(Lower(s)) == Lower(s)
  {
  }

  /** The finder an entry settles on: its UUID if it has one, else its name. */
  function Key(def: GroupDef): Finder {
    if def.uuid.Some? then ByUuid(Uuid(def)) else ByName(def.name)
  }

  lemma HeldMatches(m: Misp, t: Id, def: GroupDef, seen: Table)
    requires GroupHeld(m, t, def, seen)
    ensures Matches(m.groups[t].fields, Key(def)) && Matches(m.groups[t].fields, ByName(def.name))
  {
    var data, fields := Data(def), m.groups[t].fields;
    assert data["name"] == Str(def.name) && ValuesEqual(data["name"], Field(fields, "name"));
    if def.uuid.Some? {
      LowerTwice(Strip(def.uuid.value));
      assert data["uuid"] == Str(Uuid(def)) && ValuesEqual(data["uuid"], Field(fields, "uuid"));
    }
  }

  /** Another entry's target matches an entry's key only if it did in the snapshot. */
  lemma OtherTarget(groups: map<Id, Group>, order: seq<Id>, m: Misp, seen: Table, def: GroupDef, other: GroupDef, h: Id)
    requires PlacedOne(groups, order, m, seen, other, h)
    requires def.name != other.name && (def.uuid.Some? && other.uuid.Some? ==> Uuid(def) != Uuid(other))
    requires Matches(m.groups[h].fields, Key(def))
    ensures h in groups && Matches(groups[h].fields, Key(def))
  {
    HeldMatches(m, h, other, seen);
    if def.uuid.Some? && other.uuid.None? {
      assert "uuid" !in Data(other);
    }
  }

  /** After the step a group other than the target matches the entry's key only if it did before. */
  lemma Rivals(groups: map<Id, Group>, order: seq<Id>, m: Misp, seen: Table, defs: seq<GroupDef>, targets: seq<Id>,
               k: nat, h: Id)
    requires k < |defs| && DistinctGroups(defs) && Placed(groups, order, m, seen, defs, targets)
    requires h in m.groups && h != targets[k] && Matches(m.groups[h].fields, Key(defs[k]))
    ensures h in groups && Matches(groups[h].fields, Key(defs[k]))
  {
    hide GroupHeld, OtherFieldsKept, Matches, Key, PlacedOne;
    if h in targets {
      var j :| 0 <= j < |targets| && targets[j] == h;
      assert PlacedOne(groups, order, m, seen, defs[j], h);
      OtherTarget(groups, order, m, seen, defs[k], defs[j], h);
    }
  }

  lemma PlacedAt(groups: map<Id, Group>, order: seq<Id>, m: Misp, seen: Table, defs: seq<GroupDef>, targets: seq<Id>,
                 k: nat)
    requires k < |defs| && Placed(groups, order, m, seen, defs, targets)
    ensures var def, t := defs[k], targets[k];
      && t in m.groups && GroupHeld(m, t, def, seen) && Matches(m.groups[t].fields, Key(def))
      && (def.uuid.Some? ==> IsUuid4(Uuid(def)))
      && t in m.groupOrder
      && (if Find(groups, order, def).Some? then Find(groups, order, def).value == t else t !in groups)
      && m.groupOrder == order + m.groupOrder[|order|..]
      && forall h <- m.groupOrder[|order|..] :: h !in groups
  {
    hide Matches, Key, Find, OtherFieldsKept, Holds, DesiredOrgs;
    assert PlacedOne(groups, order, m, seen, defs[k], targets[k]);
    HeldMatches(m, targets[k], defs[k], seen);
    forall h | h in m.groupOrder[|order|..] ensures h !in groups {
      var i :| 0 <= i < |m.groupOrder[|order|..]| && m.groupOrder[|order|..][i] == h;
      assert m.groupOrder[|order| + i] == h;
    }
  }

  lemma KeyFinds(groups: map<Id, Group>, order: seq<Id>, def: GroupDef)
    ensures Last(groups, order, Key(def)).Some? ==> Find(groups, order, def) == Last(groups, order, Key(def))
  {
  }

  /** The step's result finds the target of each entry again. */
  lemma FindsTarget(groups: map<Id, Group>, order: seq<Id>, m: Misp, seen: Table, defs: seq<GroupDef>,
                    targets: seq<Id>, k: nat)
    requires k < |defs| && DistinctGroups(defs) && Placed(groups, order, m, seen, defs, targets)
    requires forall h :: h in groups ==> h in order
    ensures Find(m.groups, m.groupOrder, defs[k]) == Some(targets[k])
  {
    var def, t, f := defs[k], targets[k], Key(defs[k]);
    var more := m.groupOrder[|order|..];
    hide Placed, DistinctGroups, GroupHeld, Matches, Last, Key, Find;
    PlacedAt(groups, order, m, seen, defs, targets, k);
    forall h | h in m.groups && h != t && Matches(m.groups[h].fields, f)
      ensures h in groups && Matches(groups[h].fields, f)
    {
      Rivals(groups, order, m, seen, defs, targets, k, h);
    }
    KeyFinds(groups, order, def);
    KeyFinds(m.groups, m.groupOrder, def);
    if Last(groups, order, f).Some? {
      LastInOrder(groups, order, f);
      LastStable(groups, order, m.groups, f, t);
      LastAppend(m.groups, order, more, f);
    } else {
      LastNone(groups, order, f);
      LastUnique(m.groups, m.groupOrder, f, t);
    }
  }

  lemma PlacedNone(m: Misp, seen: Table)
    requires m.Valid()
    ensures Placed(m.groups, m.groupOrder, m, seen, [], [])
  {
  }

  /** A sharing-group step without failures settles every entry, provided the entries find different groups. */
  lemma GroupStepSettles(env: Env, run: Run, defs: seq<GroupDef>)
    requires Walks(env) && run.misp.Valid()
    requires run.groups == run.misp.groups && run.groupOrder == run.misp.groupOrder
    requires DistinctGroups(defs) && DistinctTargets(run.groups, run.groupOrder, defs)
    requires Failed !in Each(env, run, Items(defs)).1
    ensures var m' := Each(env, run, Items(defs)).0.misp; forall def <- defs :: GroupSettled(m', def, run.seen)
  {
    hide Each, Placed, PlacedOne, DistinctTargets, DistinctGroups, Items, Find, GroupHeld;
    var m' := Each(env, run, Items(defs)).0.misp;
    assert [] + defs == defs;
    PlacedNone(run.misp, run.seen);
    var targets := EachPlaces(env, run, [], [], defs);
    forall def | def in defs ensures GroupSettled(m', def, run.seen) {
      var k :| 0 <= k < |defs| && defs[k] == def;
      FindsTarget(run.groups, run.groupOrder, m', run.seen, defs, targets, k);
      PlacedAt(run.groups, run.groupOrder, m', run.seen, defs, targets, k);
    }
  }
}
