/** What a drop that is cut short leaves: when the record of a copy can outlive a table of it. */
module RolloutCuts {
  import opened Values
  import opened ConfiguredRuns
  import opened Rollout

  /** One more table of the listing dropped by process p, as drop_all does it. */
  function Dropped(s: State, p: Pid, rest: seq<string>): State
    requires In(s, p) && rest != []
  {
    var gone := At(s, p, Dropping(rest[1..])).(tables := s.tables - {rest[0]});
    if rest[0] == Settings then gone.(success := None, row := [], history := [], lost := {})
    else gone.(lost := if Settings in s.tables then s.lost + {rest[0]} else s.lost)
  }

  /** The state of a run of process p over this listing after its first n drops. */
  function Drops(s: State, p: Pid, existing: seq<string>, n: nat): (r: State)
    requires In(s, p) && n <= |existing|
    ensures In(r, p)
  {
    if n == 0 then At(s, p, Dropping(existing)) else Dropped(Drops(s, p, existing, n - 1), p, existing[n - 1..])
  }

  /** A run with FORCE and REPLACE, up to its decision to drop. */
  function Decided(s: State, p: Pid, existing: seq<string>): (r: State)
    ensures In(r, p)
  {
    s.(lock := Some(p), procs := s.procs[p := Proc(Migrate(true, true, {}, []), Copy, Dropping(existing))])
  }

  /** The state in which such a run is when it has dropped n tables and then crashes. */
  function CutState(s: State, p: Pid, existing: seq<string>, n: nat): State
    requires n <= |existing|
  {
    At(Drops(Decided(s, p, existing), p, existing, n), p, Crashed).(lock := None, torn := true)
  }

  /** The record stands over a target without some table of the copy. */
  ghost predicate Misleading(s: State) { s.success.Some? && !Complete(s) }

  /** Some table that the recorded copy needs stands before system_settings in the listing. */
  ghost predicate NeededFirst(s: State, existing: seq<string>)
    requires s.success.Some? && In(s, s.success.value.maker) && s.procs[s.success.value.maker].job.Migrate?
  {
    exists i, j :: 0 <= i < j < |existing| && existing[j] == Settings
                   && existing[i] in Needed(s.procs[s.success.value.maker].job, s.success.value.targets)
  }

  lemma DropsAre(s: State, p: Pid, existing: seq<string>, n: nat)
    requires In(s, p) && n <= |existing|
    ensures var d := Drops(s, p, existing, n);
      && (forall t :: t in d.tables <==> t in s.tables && t !in existing[..n])
      && (forall t :: t in d.tables ==> d.tables[t] == s.tables[t])
      && d.success == (if Settings in existing[..n] then None else s.success)
      && d.procs == s.procs[p := s.procs[p].(pc := Dropping(existing[n..]))] && d.lock == s.lock && d.torn == s.torn
  {
    hide *;
    DropsTables(s, p, existing, n);
    DropsRest(s, p, existing, n);
  }

  lemma {:induction false} DropsTables(s: State, p: Pid, existing: seq<string>, n: nat)
    requires In(s, p) && n <= |existing|
    ensures var d := Drops(s, p, existing, n);
      && (forall t :: t in d.tables <==> t in s.tables && t !in existing[..n])
      && (forall t :: t in d.tables ==> d.tables[t] == s.tables[t])
    decreases n
  {
    if n > 0 {
      hide Drops, Dropped;
      DropsTables(s, p, existing, n - 1);
      DropsNext(s, p, existing, n);
      DroppedIs(Drops(s, p, existing, n - 1), p, existing[n - 1..]);
      assert existing[..n] == existing[..n - 1] + [existing[n - 1]];
    }
  }

  lemma {:induction false} DropsRest(s: State, p: Pid, existing: seq<string>, n: nat)
    requires In(s, p) && n <= |existing|
    ensures var d := Drops(s, p, existing, n);
      && d.success == (if Settings in existing[..n] then None else s.success)
      && d.procs == s.procs[p := s.procs[p].(pc := Dropping(existing[n..]))] && d.lock == s.lock && d.torn == s.torn
    decreases n
  {
    if n > 0 {
      hide Drops, Dropped;
      DropsRest(s, p, existing, n - 1);
      DropsNext(s, p, existing, n);
      DroppedIs(Drops(s, p, existing, n - 1), p, existing[n - 1..]);
      OneMoreDrop(existing, n);
    }
  }

  lemma OneMoreDrop(existing: seq<string>, n: nat)
    requires 0 < n <= |existing|
    ensures existing[n - 1..] != [] && existing[n - 1..][0] == existing[n - 1] && existing[n - 1..][1..] == existing[n..]
    ensures Settings in existing[..n] <==> Settings in existing[..n - 1] || existing[n - 1] == Settings
  {
    assert existing[..n] == existing[..n - 1] + [existing[n - 1]];
  }

  lemma DropsNext(s: State, p: Pid, existing: seq<string>, n: nat)
    requires In(s, p) && 0 < n <= |existing|
    ensures Drops(s, p, existing, n) == Dropped(Drops(s, p, existing, n - 1), p, existing[n - 1..])
  {
  }

  lemma DroppedIs(s: State, p: Pid, rest: seq<string>)
    requires In(s, p) && rest != []
    ensures var d := Dropped(s, p, rest);
      && d.tables == s.tables - {rest[0]} && d.success == (if rest[0] == Settings then None else s.success)
      && d.procs == s.procs[p := s.procs[p].(pc := Dropping(rest[1..]))] && d.lock == s.lock && d.torn == s.torn
  {
  }

  /** The exact condition, on the listing: a run with FORCE and REPLACE over a complete copy has a point at which a
      crash leaves the record over an incomplete target if and only if some needed table is listed before
      system_settings. */
  lemma CutLosesIff(s: State, p: Pid, existing: seq<string>)
    requires Complete(s) && !In(s, p) && Lists(existing, s.tables.Keys) && Settings in s.tables
    ensures (exists n :: 0 <= n <= |existing| && Misleading(CutState(s, p, existing, n))) <==> NeededFirst(s, existing)
  {
    hide CutState, Misleading;
    if NeededFirst(s, existing) {
      var i, j :| 0 <= i < j < |existing| && existing[j] == Settings
                  && existing[i] in Needed(s.procs[s.success.value.maker].job, s.success.value.targets);
      CutAt(s, p, existing, j);
      assert existing[i] in existing[..j] && Settings !in existing[..j] by {
        forall k | 0 <= k < j ensures existing[k] != existing[j] {}
      }
    }
    if n :| 0 <= n <= |existing| && Misleading(CutState(s, p, existing, n)) { CutNeeds(s, p, existing, n); }
  }

  /** After n drops the record misleads exactly if it is still there and a needed table is not. */
  lemma CutAt(s: State, p: Pid, existing: seq<string>, n: nat)
    requires Complete(s) && !In(s, p) && Lists(existing, s.tables.Keys) && n <= |existing|
    ensures Misleading(CutState(s, p, existing, n)) <==>
            Settings !in existing[..n]
            && exists t :: t in Needed(s.procs[s.success.value.maker].job, s.success.value.targets) && t in existing[..n]
  {
    hide Needed, Lists;
    var c := s.success.value;
    var d := CutState(s, p, existing, n);
    DropsAre(Decided(s, p, existing), p, existing, n);
    assert d.procs[c.maker].job == s.procs[c.maker].job;
    forall t | t in Needed(s.procs[c.maker].job, c.targets)
      ensures Filled(d, t, c.maker) <==> t !in existing[..n]
    {
      assert Filled(s, t, c.maker);
    }
  }

  lemma CutNeeds(s: State, p: Pid, existing: seq<string>, n: nat)
    requires Complete(s) && !In(s, p) && Lists(existing, s.tables.Keys) && Settings in s.tables && n <= |existing|
    requires Misleading(CutState(s, p, existing, n))
    ensures NeededFirst(s, existing)
  {
    hide CutState, Misleading;
    CutAt(s, p, existing, n);
    var t :| t in Needed(s.procs[s.success.value.maker].job, s.success.value.targets) && t in existing[..n];
    var i :| 0 <= i < n && existing[i] == t;
    assert Settings in existing;
    var j :| 0 <= j < |existing| && existing[j] == Settings;
    PrefixHas(existing, n, j);
  }

  lemma PrefixHas(s: seq<string>, n: nat, j: nat)
    requires n <= |s| && j < |s|
    ensures j < n ==> s[j] in s[..n]
  {
  }

  // ---- The points are reached ----------------------------------------------------------------

  lemma Append(states: seq<State>, next: State, baseline: set<string>, p: Pid)
    requires Interleaving(states, baseline) && Step(states[|states| - 1], next, p, baseline)
    ensures Interleaving(states + [next], baseline)
  {
    hide Step, Init;
    var all := states + [next];
    forall i | 0 <= i < |all| - 1 ensures Moves(all[i], all[i + 1], baseline) {
      if i < |states| - 1 { assert Moves(states[i], states[i + 1], baseline); }
    }
  }

  /** From any history that ends with the lock free, a run reaches its decision to drop. */
  lemma ReachesDecision(states: seq<State>, baseline: set<string>, p: Pid, existing: seq<string>)
    returns (all: seq<State>)
    requires Interleaving(states, baseline)
    requires var s := states[|states| - 1];
      s.lock.None? && !In(s, p) && s.success.Some? && Settings in s.tables && existing != [] && Lists(existing, s.tables.Keys)
    ensures Interleaving(all, baseline) && states <= all
    ensures all[|all| - 1] == Decided(states[|states| - 1], p, existing)
  {
    hide Step, Lists, Interleaving;
    LastIs(states, baseline);
    var s := states[|states| - 1];
    var job := Migrate(true, true, {}, []);
    var s1 := s.(procs := s.procs[p := Proc(job, Undecided, Acquiring)]);
    var s2 := At(s1, p, Look).(lock := Some(p));
    var s3 := At(s2, p, Listed(existing));
    var s4 := Decided(s, p, existing);
    assert Start(s, s1, p) && Acquire(s1, s2, p) && Decide(s2, s3, p);
    DecidesToDrop(s3, s4, p, existing);
    hide Start, Acquire, Decide;
    StepIs(s, s1, p, baseline);
    StepIs(s1, s2, p, baseline);
    StepIs(s2, s3, p, baseline);
    StepIs(s3, s4, p, baseline);
    Append(states, s1, baseline, p);
    Append(states + [s1], s2, baseline, p);
    Append(states + [s1] + [s2], s3, baseline, p);
    Append(states + [s1] + [s2] + [s3], s4, baseline, p);
    all := states + [s1] + [s2] + [s3] + [s4];
  }

  lemma LastIs(states: seq<State>, baseline: set<string>)
    requires Interleaving(states, baseline)
    ensures states != []
  {
  }

  lemma DecidesToDrop(s: State, s': State, p: Pid, existing: seq<string>)
    requires In(s, p) && s.procs[p] == Proc(Migrate(true, true, {}, []), Undecided, Listed(existing)) && existing != []
    requires s' == s.(procs := s.procs[p := Proc(s.procs[p].job, Copy, Dropping(existing))])
    ensures Decide(s, s', p)
  {
  }

  lemma {:induction false} ReachesDrops(states: seq<State>, baseline: set<string>, s: State, p: Pid,
                                        existing: seq<string>, n: nat)
    returns (all: seq<State>)
    requires Interleaving(states, baseline) && n <= |existing|
    requires !In(s, p) && states[|states| - 1] == Decided(s, p, existing)
    ensures Interleaving(all, baseline) && states <= all
    ensures all[|all| - 1] == Drops(Decided(s, p, existing), p, existing, n)
    decreases n
  {
    hide Step, Interleaving;
    LastIs(states, baseline);
    var start := Decided(s, p, existing);
    if n == 0 {
      all := states;
      assert At(start, p, Dropping(existing)) == start;
    } else {
      var before := ReachesDrops(states, baseline, s, p, existing, n - 1);
      LastIs(before, baseline);
      var d, next := Drops(start, p, existing, n - 1), Drops(start, p, existing, n);
      DropsAre(start, p, existing, n - 1);
      DropStep(d, next, p, existing[n - 1..]);
      StepIs(d, next, p, baseline);
      Append(before, next, baseline, p);
      all := before + [next];
    }
  }

  lemma DropStep(s: State, s': State, p: Pid, rest: seq<string>)
    requires In(s, p) && s.procs[p].pc == Dropping(rest) && rest != [] && s' == Dropped(s, p, rest)
    ensures Drop(s, s', p)
  {
  }

  /** Every such point is reached: after any history, the run may crash there. */
  lemma CutIsReached(states: seq<State>, baseline: set<string>, p: Pid, existing: seq<string>, n: nat)
    returns (all: seq<State>)
    requires Interleaving(states, baseline) && n <= |existing|
    requires var s := states[|states| - 1];
      s.lock.None? && !In(s, p) && s.success.Some? && Settings in s.tables && existing != [] && Lists(existing, s.tables.Keys)
    ensures Interleaving(all, baseline) && states <= all
    ensures all[|all| - 1] == CutState(states[|states| - 1], p, existing, n)
  {
    hide Step, Interleaving, Lists;
    LastIs(states, baseline);
    var s := states[|states| - 1];
    var decided := ReachesDecision(states, baseline, p, existing);
    LastIs(decided, baseline);
    var dropped := ReachesDrops(decided, baseline, s, p, existing, n);
    LastIs(dropped, baseline);
    var d := Drops(Decided(s, p, existing), p, existing, n);
    DropsAre(Decided(s, p, existing), p, existing, n);
    assert Crash(d, CutState(s, p, existing, n), p);
    StepIs(d, CutState(s, p, existing, n), p, baseline);
    Append(dropped, CutState(s, p, existing, n), baseline, p);
    all := dropped + [CutState(s, p, existing, n)];
  }

  /** The next run without REPLACE keeps such a target. */
  lemma MisledRunKeeps(s: State)
    requires Misleading(s) && Settings in s.tables
    ensures forall force :: TargetPlan(|s.tables.Keys|, s.success.Some?, force, false) == Keep
  {
    assert Settings in s.tables.Keys;
  }

  // ---- One history that loses a table --------------------------------------------------------

  const Baseline: set<string> := {Attributes, Settings}

  /** A migrate run from a source with an attributes table into an empty database, its steps one by one. */
  function CopyRun(): (r: seq<State>)
    ensures |r| == 15
  {
    var job := Migrate(false, false, {Attributes}, []);
    var table, filled := Table(0, None), Table(1, Some(0));
    var imported := map[Attributes := table, Settings := table];
    var copied := map[Attributes := filled, Settings := table];
    var s0 := State(None, map[], map[], None, [], [], {}, false);
    var at := (pc: Pc, plan: Plan) => s0.(lock := Some(0), procs := map[0 := Proc(job, plan, pc)]);
    var done := Some(Success(0, Baseline));
    [s0,
     s0.(procs := map[0 := Proc(job, Undecided, Acquiring)]),
     at(Look, Undecided),
     at(Listed([]), Undecided),
     at(Schema, Copy),
     at(Import, Copy),
     at(Updates, Copy).(tables := imported),
     at(Copying(Baseline, [Attributes], false), Copy).(tables := imported),
     at(Copying(Baseline, [Attributes], true), Copy).(tables := imported),
     at(Copying(Baseline, [], false), Copy).(tables := copied),
     at(Recording(Baseline), Copy).(tables := copied),
     at(Clearing, Copy).(tables := copied, success := done),
     at(Files, Copy).(tables := copied, success := done),
     at(Releasing(true), Copy).(tables := copied, success := done),
     at(Exited(true), Copy).(lock := None, tables := copied, success := done)]
  }

  lemma CopyRunSteps(i: nat)
    requires i < 14
    ensures Step(CopyRun()[i], CopyRun()[i + 1], 0, Baseline)
  {
    hide Step;
    if i < 5 { CopyRunBegins(i); } else if i < 9 { CopyRunCopies(i); } else { CopyRunEnds(i); }
  }

  lemma CopyRunBegins(i: nat)
    requires i < 5
    ensures Step(CopyRun()[i], CopyRun()[i + 1], 0, Baseline)
  {
    hide Step;
    var r := CopyRun();
    assert r[0].procs[0 := Proc(Migrate(false, false, {Attributes}, []), Undecided, Acquiring)] == r[1].procs;
    if i == 0 { assert Start(r[0], r[1], 0); }
    if i == 1 { assert Acquire(r[1], r[2], 0); }
    if i == 2 { assert Lists([], {}) && Decide(r[2], r[3], 0); }
    if i == 3 { assert Decide(r[3], r[4], 0); }
    if i == 4 { assert InitSchema(r[4], r[5], 0, Baseline); }
    hide CopyRun;
    AnyStep(r[i], r[i + 1], 0, Baseline);
  }

  lemma CopyRunCopies(i: nat)
    requires 5 <= i < 9
    ensures Step(CopyRun()[i], CopyRun()[i + 1], 0, Baseline)
  {
    hide Step, CopyRun;
    if i == 5 { ImportStep(); }
    if i == 6 { UpdateStep(); }
    if i == 7 { EmptyStep(); }
    if i == 8 { FillStep(); }
  }

  lemma ImportStep()
    ensures Step(CopyRun()[5], CopyRun()[6], 0, Baseline)
  {
    hide Step;
    var r := CopyRun();
    assert r[5].tables == map[];
    assert r[6].tables == r[5].tables + (map t | t in Baseline :: Table(0, None));
    assert InitSchema(r[5], r[6], 0, Baseline);
    hide CopyRun;
    AnyStep(r[5], r[6], 0, Baseline);
  }

  lemma UpdateStep()
    ensures Step(CopyRun()[6], CopyRun()[7], 0, Baseline)
  {
    hide Step;
    var r := CopyRun();
    assert Lists([Attributes], Needed(r[6].procs[0].job, r[7].tables.Keys));
    assert r[7].tables.Keys == Baseline && Evolves(r[6].tables, r[7].tables);
    assert r[7] == At(r[6], 0, Copying(r[7].tables.Keys, [Attributes], false)).(tables := r[7].tables);
    assert Update(r[6], r[7], 0);
    hide CopyRun;
    AnyStep(r[6], r[7], 0, Baseline);
  }

  lemma EmptyStep()
    ensures Step(CopyRun()[7], CopyRun()[8], 0, Baseline)
  {
    hide Step;
    var r := CopyRun();
    assert r[8].tables == r[7].tables[Attributes := Table(0, None)];
    assert CopyTable(r[7], r[8], 0);
    hide CopyRun;
    AnyStep(r[7], r[8], 0, Baseline);
  }

  lemma FillStep()
    ensures Step(CopyRun()[8], CopyRun()[9], 0, Baseline)
  {
    hide Step;
    var r := CopyRun();
    assert r[9].tables == r[8].tables[Attributes := Table(1, Some(0))] && [Attributes][1..] == [];
    assert r[9] == At(r[8], 0, Copying(Baseline, [], false)).(tables := r[8].tables[Attributes := Table(1, Some(0))]);
    assert CopyTable(r[8], r[9], 0);
    hide CopyRun;
    AnyStep(r[8], r[9], 0, Baseline);
  }

  lemma CopyRunEnds(i: nat)
    requires 9 <= i < 14
    ensures Step(CopyRun()[i], CopyRun()[i + 1], 0, Baseline)
  {
    hide Step;
    var r := CopyRun();
    if i < 13 { assert Finish(r[i], r[i + 1], 0); } else { assert Release(r[13], r[14], 0); }
    hide CopyRun;
    AnyStep(r[i], r[i + 1], 0, Baseline);
  }

  lemma AnyStep(s: State, s': State, p: Pid, baseline: set<string>)
    requires Start(s, s', p) || Acquire(s, s', p) || Decide(s, s', p) || InitSchema(s, s', p, baseline)
             || Update(s, s', p) || CopyTable(s, s', p) || Finish(s, s', p) || Release(s, s', p)
    ensures Step(s, s', p, baseline)
  {
    hide Start, Acquire, Decide, Drop, Crash, Fail, Release, InitSchema, Update, Record, CopyTable, Finish, SyncDone, Use;
  }

  /** A history, from an empty database, that ends with a recorded success over a target without its one copied
      table: a copy, then a run with FORCE and REPLACE whose listing has that table first and which crashes after
      its first drop. */
  lemma OneLoss() returns (all: seq<State>)
    ensures Interleaving(all, Baseline) && Misleading(all[|all| - 1])
    ensures all[|all| - 1].lock.None? && Attributes !in all[|all| - 1].tables
  {
    hide Step;
    var r := CopyRun();
    forall i | 0 <= i < |r| - 1 ensures Moves(r[i], r[i + 1], Baseline) { CopyRunSteps(i); }
    assert Interleaving(r, Baseline);
    var s, listing := r[14], [Attributes, Settings];
    assert Complete(s) && Lists(listing, s.tables.Keys);
    all := CutIsReached(r, Baseline, 1, listing, 1);
    assert Attributes in Needed(s.procs[0].job, Baseline) && listing[..1] == [Attributes];
    CutAt(s, 1, listing, 1);
    DropsAre(Decided(s, 1, listing), 1, listing, 1);
  }

  lemma StepIs(s: State, s': State, p: Pid, baseline: set<string>)
    requires Start(s, s', p) || Acquire(s, s', p) || Decide(s, s', p) || Drop(s, s', p) || Crash(s, s', p)
    ensures Step(s, s', p, baseline)
  {
    hide Start, Acquire, Decide, Drop, Crash, Fail, Release, InitSchema, Update, Record, CopyTable, Finish, SyncDone, Use;
  }
}
