/** One configure run and one migrate run as the programs make them: a sequence of effects under
    try, except and finally, each of which is a step that every interleaving allows. */
module RolloutRuns {
  import opened Values
  import opened ConfiguredRuns
  import opened Rollout

  /** Tries for the lock until it is free or the deadline has passed: `free(i)` says whether the i-th try finds
      it free, `clock(i)` when that try is over. */
  method AcquireConfigLock(free: nat -> bool, clock: nat -> int, timeout: nat) returns (tries: nat, got: bool)
    requires forall i: nat :: clock(i + 1) >= clock(i) + 2
    ensures 0 < tries
    ensures got <==> free(tries - 1)
    ensures forall i :: 0 <= i < tries - 1 ==> !free(i) && clock(i) <= clock(0) + timeout
    ensures !got ==> clock(tries - 1) > clock(0) + timeout
    ensures 2 * (tries - 1) <= timeout + 2
  {
    var deadline := clock(0) + timeout;
    tries, got := 1, free(0);
    ghost var last := clock(0);
    while !got && clock(tries - 1) <= deadline
      invariant 0 < tries && got == free(tries - 1)
      invariant forall i :: 0 <= i < tries - 1 ==> !free(i) && clock(i) <= deadline
      invariant clock(tries - 1) >= clock(0) + 2 * (tries - 1)
      invariant 2 * (tries - 1) <= timeout + 2
      decreases deadline - clock(tries - 1) + 2, !got
    {
      assert clock(tries) >= clock(tries - 1) + 2;
      got := free(tries);
      tries := tries + 1;
    }
  }

  /** What a run meets: whether the n-th thing that can fail does, what the updates make of the tables, and how
      the database lists names. */
  datatype Luck = Luck(fails: nat -> bool, evolve: map<string, Table> -> map<string, Table>,
                       todo: set<string> -> seq<string>, rows: nat -> int)

  ghost predicate Lawful(luck: Luck) {
    (forall tables :: Evolves(tables, luck.evolve(tables))) && forall names :: Lists(luck.todo(names), names)
  }

  /** The effects a run is made of. */
  datatype Effect = Starting | Locking | Failing | Unlocking | Initialising | Updating | Noting | Deciding | Removing
                  | Filling | Finishing

  ghost predicate Does(e: Effect, s: State, s': State, p: Pid, baseline: set<string>) {
    match e
    case Starting => Start(s, s', p)
    case Locking => Acquire(s, s', p)
    case Failing => Fail(s, s', p)
    case Unlocking => Release(s, s', p)
    case Initialising => InitSchema(s, s', p, baseline)
    case Updating => Update(s, s', p)
    case Noting => Record(s, s', p)
    case Deciding => Decide(s, s', p)
    case Removing => Drop(s, s', p)
    case Filling => CopyTable(s, s', p)
    case Finishing => Finish(s, s', p)
  }

  lemma EffectIsStep(e: Effect, s: State, s': State, p: Pid, baseline: set<string>)
    requires Does(e, s, s', p, baseline)
    ensures Step(s, s', p, baseline)
  {
    hide Start, Acquire, Fail, Release, InitSchema, Update, Record, Decide, Drop, CopyTable, Finish;
  }

  lemma Holder(s: State, p: Pid)
    requires Inv(s) && In(s, p) && Critical(s.procs[p].pc)
    ensures s.lock == Some(p)
  {
  }

  lemma Right(s: State, p: Pid)
    requires Inv(s) && In(s, p)
    ensures ProcRight(s, p) && (s.success.Some? ==> Settings in s.tables)
  {
  }

  lemma StillComplete(s: State, s': State, p: Pid)
    requires In(s, p) && s' == At(s, p, Files).(row := [], history := [])
    ensures Complete(s) ==> Complete(s')
  {
  }

  lemma SameTrans(a: State, b: State, c: State)
    requires SameDatabase(a, b) && SameDatabase(b, c)
    ensures SameDatabase(a, c) && b.success == a.success
  {
  }

  lemma SameRight(s: State, s': State, job: Job, plan: Plan)
    requires SameDatabase(s, s')
    ensures Rightly(s, job, plan) <==> Rightly(s', job, plan)
  {
  }

  lemma RefusesForeign(s: State, job: Job, plan: Plan)
    ensures job.Migrate? && s.tables != map[] && s.success.None? && !job.force && Rightly(s, job, plan) ==> plan == Refuse
  {
  }

  class Session {
    const me: Pid
    const baseline: set<string>
    const luck: Luck
    var s: State
    // How many things that can fail the run has come to
    var met: nat
    ghost var states: seq<State>

    ghost predicate Valid()
      reads this
    {
      && states != [] && states[|states| - 1] == s && Inv(s)
      && Attributes in baseline && Settings in baseline && Lawful(luck)
      && forall i :: 0 <= i < |states| - 1 ==> Moves(states[i], states[i + 1], baseline)
    }

    /** Nothing that can fail does. */
    ghost predicate Smooth() {
      forall n: nat :: !luck.fails(n)
    }

    /** The run is somewhere in its critical section, or ended. */
    ghost predicate Mine(pc: Pc)
      reads this
    {
      Valid() && In(s, me) && s.procs[me].pc == pc
    }

    constructor (me: Pid, baseline: set<string>, luck: Luck, s: State, ghost states: seq<State>)
      requires states != [] && states[|states| - 1] == s && Inv(s) && Lawful(luck)
      requires Attributes in baseline && Settings in baseline
      requires forall i :: 0 <= i < |states| - 1 ==> Moves(states[i], states[i + 1], baseline)
      ensures Valid() && this.me == me && this.s == s && this.states == states && this.luck == luck && met == 0
    {
      this.me, this.baseline, this.luck, this.s, this.states := me, baseline, luck, s, states;
      met := 0;
    }

    /** Whether the next thing that can fail does: each is asked for once. */
    method Fails() returns (fails: bool)
      requires Valid()
      modifies this`met
      ensures Valid() && fails == luck.fails(old(met)) && met == old(met) + 1
    {
      fails := luck.fails(met);
      met := met + 1;
    }

    method Take(ghost e: Effect, next: State)
      requires Valid() && Does(e, s, next, me, baseline)
      modifies this`s, this`states
      ensures Valid() && s == next && states == old(states) + [next]
    {
      hide Does, Step, Inv;
      EffectIsStep(e, s, next, me, baseline);
      StepKeeps(s, next, me, baseline);
      assert Moves(s, next, baseline);
      s, states := next, states + [next];
    }

    method Begin(job: Job) returns (got: bool)
      requires Valid() && !In(s, me)
      modifies this
      ensures Valid() && In(s, me) && SameDatabase(old(s), s) && old(states) <= states
      ensures s.procs[me] == Proc(job, Undecided, if got then FirstPc(job) else Exited(false))
      ensures got <==> old(s.lock).None?
      ensures got ==> s.lock == Some(me)
      ensures !got ==> s.lock == old(s.lock)
    {
      Take(Starting, s.(procs := s.procs[me := Proc(job, Undecided, Acquiring)]));
      got := s.lock.None?;
      Take(Locking, if got then At(s, me, FirstPc(job)).(lock := Some(me)) else At(s, me, Exited(false)));
    }

    /** The except and finally clauses. */
    method Abort()
      requires Valid() && In(s, me) && Critical(s.procs[me].pc) && !s.procs[me].pc.Releasing?
      modifies this
      ensures Mine(Exited(false)) && SameDatabase(old(s), s) && old(states) <= states && s.lock.None?
      ensures s.procs[me].job == old(s.procs[me].job) && s.procs[me].plan == old(s.procs[me].plan)
    {
      Take(Failing, At(s, me, Releasing(false)).(torn := s.torn || s.procs[me].pc.Dropping?));
      Unlock();
    }

    method Unlock()
      requires Valid() && In(s, me) && s.procs[me].pc.Releasing?
      modifies this
      ensures Mine(Exited(old(s.procs[me].pc.ok))) && SameDatabase(old(s), s) && old(states) <= states
      ensures s.lock.None? && s.procs[me].job == old(s.procs[me].job) && s.procs[me].plan == old(s.procs[me].plan)
    {
      Take(Unlocking, At(s, me, Exited(s.procs[me].pc.ok)).(lock := None));
    }

    /** configure.run: the whole run holds the lock, and records itself when it finished. */
    method RunConfigure(run: Run) returns (ok: bool)
      requires Valid() && !In(s, me)
      modifies this
      ensures Mine(Exited(ok)) && old(states) <= states
      ensures old(s.lock).None? ==> s.lock.None?
      ensures Smooth() && old(s.lock).None? && Attributes in old(s.tables) && Settings in old(s.tables) ==> ok
      ensures Smooth() && old(s.lock).None? && Attributes !in old(s.tables) && baseline !! old(s.tables).Keys ==> ok
      ensures ok ==> s.history == old(s.history) + [run] && Attributes in s.tables && old(s.lock).None?
      ensures !ok ==> s.history == old(s.history)
      ensures s.success == old(s.success)
      ensures forall t :: t in old(s.tables) ==> t in s.tables && s.tables[t].from == old(s.tables)[t].from
    {
      hide Inv;
      var got := Begin(Configure(run));
      if !got { return false; }
      var fails := Fails();
      if fails { Abort(); return false; }
      ok := InitTheSchema();
      if ok { ok := ConfigureMisp(run); }
    }

    /** The updates and the bookkeeping of a configure run, then its record. */
    method ConfigureMisp(run: Run) returns (ok: bool)
      requires Mine(Updates) && s.procs[me].job == Configure(run)
      modifies this
      ensures Mine(Exited(ok)) && old(states) <= states && s.lock.None? && s.success == old(s.success)
      ensures Smooth() && Settings in old(s.tables) ==> ok
      ensures s.history == if ok then old(s.history) + [run] else old(s.history)
      ensures forall t :: t in old(s.tables) ==> t in s.tables && s.tables[t].from == old(s.tables)[t].from
    {
      hide Inv, Recorded, RowOf, Complete, Lawful;
      ok := RunUpdates(run);
      if ok { ok := NoteConfigured(run); }
    }

    /** The record of a configure run: its row is read, then written. */
    method NoteConfigured(run: Run) returns (ok: bool)
      requires Mine(ReadRow) && s.procs[me].job == Configure(run)
      modifies this
      ensures Mine(Exited(ok)) && old(states) <= states && s.lock.None? && s.success == old(s.success)
      ensures s.history == (if ok then old(s.history) + [run] else old(s.history)) && s.tables == old(s.tables)
      ensures Smooth() && Settings in old(s.tables) ==> ok
    {
      hide Inv, Recorded, RowOf, Complete, Lawful;
      var fails := Fails();
      if fails { Abort(); return false; }
      Take(Noting, At(s, me, WriteRow(Recorded(s.row, run))));
      ok := WriteNote(run);
    }

    method WriteNote(run: Run) returns (ok: bool)
      requires Valid() && In(s, me) && s.procs[me].job == Configure(run) && s.procs[me].pc.WriteRow?
      modifies this
      ensures Mine(Exited(ok)) && old(states) <= states && s.lock.None? && s.success == old(s.success)
      ensures s.history == (if ok then old(s.history) + [run] else old(s.history)) && s.tables == old(s.tables)
      ensures Smooth() && Settings in old(s.tables) ==> ok
    {
      hide Inv, Recorded, RowOf, Complete, Lawful;
      var fails := Fails();
      if fails || Settings !in s.tables { Abort(); return false; }
      Take(Noting, At(s, me, Releasing(true)).(row := s.procs[me].pc.row, history := s.history + [run]));
      Unlock();
      ok := true;
    }

    method RunUpdates(run: Run) returns (ok: bool)
      requires Mine(Updates) && s.procs[me].job == Configure(run)
      modifies this
      ensures Mine(if ok then ReadRow else Exited(false)) && s.procs[me].job == Configure(run)
      ensures Smooth() ==> ok
      ensures old(states) <= states && s.success == old(s.success) && s.history == old(s.history)
      ensures !ok ==> s.lock.None?
      ensures forall t :: t in old(s.tables) ==> t in s.tables && s.tables[t].from == old(s.tables)[t].from
    {
      hide Inv, Recorded, RowOf, Complete;
      var fails := Fails();
      if fails { Abort(); return false; }
      Take(Updating, At(s, me, ReadRow).(tables := luck.evolve(s.tables)));
      ok := true;
    }

    /** init_schema: on a failure the run is over. */
    method InitTheSchema() returns (ok: bool)
      requires Mine(Schema)
      modifies this
      ensures old(states) <= states && In(s, me) && s.procs[me].job == old(s.procs[me].job)
      ensures Valid() && (if ok then s.procs[me].pc == Updates && Attributes in s.tables && s.lock == Some(me)
                                else s.procs[me].pc == Exited(false) && s.lock.None?)
      ensures s.procs[me].plan == old(s.procs[me].plan)
      ensures s.history == old(s.history) && s.success == old(s.success) && s.lost == old(s.lost)
      ensures forall t :: t in old(s.tables) ==> t in s.tables && s.tables[t] == old(s.tables)[t]
      ensures ok && Attributes !in old(s.tables) ==> Settings in s.tables
      ensures Smooth() && (Attributes in old(s.tables) || baseline !! old(s.tables).Keys) ==> ok
    {
      hide Inv, Recorded, RowOf, Complete, Evolves;
      Holder(s, me);
      Take(Initialising, At(s, me, if Attributes in s.tables then Updates else Import));
      if s.procs[me].pc.Import? {
        var fails := Fails();
        if fails || !(baseline !! s.tables.Keys) { Abort(); return false; }
        Take(Initialising, At(s, me, Updates).(tables := s.tables + (map t | t in baseline :: Table(0, None))));
      }
      ok := true;
    }

    /** migrate.run, from its acquire on: `failedLast` says that the last attachment copy failed, `existing` is the
        listing of the target. Whatever fails, and wherever, the lock is free in the end. */
    method RunMigrate(force: bool, replace: bool, source: set<string>, carried: seq<Run>, failedLast: bool,
                      existing: seq<string>)
      returns (ok: bool)
      requires Valid() && !In(s, me) && Lists(existing, s.tables.Keys)
      modifies this
      ensures Mine(Exited(ok)) && old(states) <= states
      ensures old(s.lock).None? ==> s.lock.None?
      ensures s.procs[me].plan in {Undecided, Keep, Refuse} ==> SameDatabase(old(s), s)
      ensures s.procs[me].job == Migrate(force, replace, source, carried)
      ensures s.procs[me].plan != Undecided ==> Rightly(old(s), s.procs[me].job, s.procs[me].plan)
      ensures old(s.tables) != map[] && old(s.success).None? && !force ==> !ok && SameDatabase(old(s), s)
      ensures s.procs[me].plan == Copy && ok ==> Copied()
      ensures ok ==> s.procs[me].plan in {Copy, Keep}
      ensures old(s.lock).None? && Smooth() ==>
                && s.procs[me].plan != Undecided && (ok <==> s.procs[me].plan != Refuse)
                && (s.procs[me].plan == Copy ==> s.success.Some?)
      ensures s.procs[me].plan == Keep && !failedLast ==> ok
    {
      hide Inv, Does, Lists, SameDatabase, Rightly, Smooth, Copied, HasTables, Lawful, Moves, Critical;
      var got := Begin(Migrate(force, replace, source, carried));
      if !got { return false; }
      ghost var began := s;
      var plan := DecideOn(existing);
      SameTrans(old(s), began, s);
      SameRight(old(s), began, Migrate(force, replace, source, carried), plan);
      RefusesForeign(old(s), Migrate(force, replace, source, carried), plan);
      ghost var decided := s;
      if plan == Undecided { return false; }
      if plan == Keep {
        ok := KeepTarget(failedLast);
        SameTrans(old(s), decided, s);
      } else if plan == Refuse {
        Unlock();
        SameTrans(old(s), decided, s);
        ok := false;
      } else {
        ok := CopyTarget(existing);
      }
    }

    /** The copy is there, and no configure run is recorded; only its run record may be missing. */
    ghost predicate Copied()
      reads this
    {
      && s.history == [] && (s.success.Some? ==> Complete(s) && s.success.value.maker == me)
      && HasTables()
    }

    /** Every table of the source that the target has is as this run filled it, but for the two it leaves. */
    ghost predicate HasTables()
      reads this
    {
      && In(s, me) && s.procs[me].job.Migrate?
      && forall t :: t in s.procs[me].job.source && t in s.tables && t !in {"admin_settings", "schema_migrations"} ==>
           s.tables[t].from == Some(me)
    }

    /** A kept target: the attachments are copied again if they failed last. */
    method KeepTarget(failedLast: bool) returns (ok: bool)
      requires Mine(Files) && s.procs[me].job.Migrate? && s.procs[me].plan == Keep
      modifies this
      ensures Mine(Exited(ok)) && SameDatabase(old(s), s) && old(states) <= states && s.lock.None?
      ensures s.procs[me] == old(s.procs[me]).(pc := Exited(ok))
      ensures !failedLast || Smooth() ==> ok
    {
      hide Inv;
      var fails := Fails();
      ok := !(failedLast && fails);
      if ok { EndRun(); } else { Abort(); }
    }

    /** The drop, the copy and the attachments. */
    method CopyTarget(existing: seq<string>) returns (ok: bool)
      requires Valid() && In(s, me) && s.procs[me].job.Migrate? && s.procs[me].plan == Copy
      requires s.procs[me].pc == if existing == [] then Schema else Dropping(existing)
      modifies this
      ensures Mine(Exited(ok)) && old(states) <= states && s.lock.None?
      ensures s.procs[me] == old(s.procs[me]).(pc := Exited(ok))
      ensures ok ==> Copied()
      ensures Smooth() ==> ok && s.success.Some?
    {
      hide Inv, Recorded, Does, RowOf;
      ok := CopyAll(existing);
      if !ok { return; }
      var fails := Fails();
      if fails { Abort(); return false; }
      EndRun();
    }

    method EndRun()
      requires Mine(Files) && s.procs[me].job.Migrate?
      modifies this
      ensures Mine(Exited(true)) && SameDatabase(old(s), s) && old(states) <= states && s.lock.None?
      ensures s.procs[me] == old(s.procs[me]).(pc := Exited(true))
    {
      hide Inv;
      Take(Finishing, At(s, me, Releasing(true)));
      Unlock();
    }

    /** Lists the target and decides; Undecided stands for a run that failed before. */
    method DecideOn(existing: seq<string>) returns (plan: Plan)
      requires Mine(Look) && s.procs[me].job.Migrate? && s.procs[me].plan == Undecided
      requires Lists(existing, s.tables.Keys)
      modifies this
      ensures Valid() && In(s, me) && SameDatabase(old(s), s) && old(states) <= states
      ensures s.procs[me].job == old(s.procs[me].job) && s.procs[me].plan == plan
      ensures plan == Undecided ==> s.procs[me].pc == Exited(false) && s.lock.None?
      ensures Smooth() ==> plan != Undecided
      ensures plan != Undecided ==>
                && Rightly(old(s), s.procs[me].job, plan)
                && s.lock == old(s.lock)
                && s.procs[me].pc == match plan
                   case Keep => Files
                   case Refuse => Releasing(false)
                   case _ => if existing == [] then Schema else Dropping(existing)
    {
      hide Inv, Lawful, RowOf, Recorded, Needed, Complete, Lists, TargetPlan, Rightly, SameDatabase;
      var listed := ListTarget(existing);
      if !listed { return Undecided; }
      ghost var began := s;
      var fails := Fails();
      if fails { Abort(); SameTrans(old(s), began, s); return Undecided; }
      plan := Decision(existing);
      SameTrans(old(s), began, s);
      SameRight(old(s), began, s.procs[me].job, plan);
    }

    method ListTarget(existing: seq<string>) returns (ok: bool)
      requires Mine(Look) && s.procs[me].job.Migrate? && s.procs[me].plan == Undecided
      requires Lists(existing, s.tables.Keys)
      modifies this
      ensures Mine(if ok then Listed(existing) else Exited(false)) && SameDatabase(old(s), s) && old(states) <= states
      ensures s.procs[me].job == old(s.procs[me].job) && s.procs[me].plan == Undecided
      ensures if ok then s.lock == old(s.lock) && (s.success.Some? ==> Settings in s.tables) else s.lock.None?
      ensures Lists(existing, s.tables.Keys) && (Smooth() ==> ok)
    {
      hide Inv, Lawful, RowOf, Recorded, Needed, Complete, Lists, TargetPlan;
      var fails := Fails();
      if fails { Abort(); return false; }
      Right(s, me);
      Take(Deciding, At(s, me, Listed(existing)));
      ok := true;
    }

    method Decision(existing: seq<string>) returns (plan: Plan)
      requires Mine(Listed(existing)) && s.procs[me].job.Migrate? && s.procs[me].plan == Undecided
      requires Lists(existing, s.tables.Keys) && (s.success.Some? ==> Settings in s.tables)
      modifies this
      ensures Valid() && In(s, me) && SameDatabase(old(s), s) && old(states) <= states && s.lock == old(s.lock)
      ensures s.procs[me].job == old(s.procs[me].job) && s.procs[me].plan == plan
      ensures plan != Undecided && Rightly(old(s), s.procs[me].job, plan)
      ensures s.procs[me].pc == match plan
        case Keep => Files
        case Refuse => Releasing(false)
        case _ => if existing == [] then Schema else Dropping(existing)
    {
      hide Inv, Lawful, RowOf, Recorded, Needed, Complete;
      var job := s.procs[me].job;
      plan := TargetPlan(|existing|, Settings in existing && s.success.Some?, job.force, job.replace);
      assert Settings in existing <==> Settings in s.tables;
      ListsNone(existing, s.tables);
      var pc := match plan
        case Keep => Files
        case Refuse => Releasing(false)
        case _ => if existing == [] then Schema else Dropping(existing);
      Take(Deciding, s.(procs := s.procs[me := Proc(job, plan, pc)]));
    }

    /** The drop and the copy, up to the attachments. */
    method CopyAll(existing: seq<string>) returns (ok: bool)
      requires Valid() && In(s, me) && s.procs[me].job.Migrate? && s.procs[me].plan == Copy
      requires s.procs[me].pc == if existing == [] then Schema else Dropping(existing)
      modifies this
      ensures old(states) <= states && Mine(if ok then Files else Exited(false))
      ensures s.procs[me].job == old(s.procs[me].job) && s.procs[me].plan == Copy
      ensures if ok then Copied() else s.lock.None?
      ensures Smooth() ==> ok && s.success.Some?
    {
      hide Inv, Recorded, Does, Lawful;
      ok := DropAll(existing);
      if !ok { return; }
      Right(s, me);
      ok := InitTheSchema();
      if !ok { return; }
      ok := CopyTables();
      if !ok { return; }
      ok := NoteSuccess();
    }

    /** drop_all, on a target with tables. */
    method DropAll(existing: seq<string>) returns (ok: bool)
      requires Valid() && In(s, me) && s.procs[me].pc == if existing == [] then Schema else Dropping(existing)
      modifies this
      ensures old(states) <= states && In(s, me) && Valid()
      ensures s.procs[me] == old(s.procs[me]).(pc := if ok then Schema else Exited(false))
      ensures !ok ==> s.lock.None?
      ensures Smooth() ==> ok
    {
      hide Inv, Lawful;
      ok := false;
      var rest := existing;
      while rest != []
        invariant Valid() && In(s, me) && old(states) <= states
        invariant s.procs[me] == old(s.procs[me]).(pc := if existing == [] then Schema else Dropping(rest))
        decreases |rest|
      {
        var fails := Fails();
        if fails { Abort(); return; }
        var gone := At(s, me, Dropping(rest[1..])).(tables := s.tables - {rest[0]});
        Take(Removing, if rest[0] == Settings then gone.(success := None, row := [], history := [], lost := {})
                       else gone.(lost := if Settings in s.tables then s.lost + {rest[0]} else s.lost));
        rest := rest[1..];
      }
      if existing != [] { Take(Removing, At(s, me, Schema)); }
      ok := true;
    }

    /** The run record, whose failure is only logged, and the configure runs forgotten. */
    method NoteSuccess() returns (ok: bool)
      requires Valid() && In(s, me) && s.procs[me].job.Migrate? && s.procs[me].pc.Copying? && s.procs[me].pc.todo == []
      requires Settings in s.tables && HasTables()
      modifies this
      ensures old(states) <= states && Mine(if ok then Files else Exited(false))
      ensures s.procs[me] == old(s.procs[me]).(pc := if ok then Files else Exited(false))
      ensures if ok then Copied() else s.lock.None?
      ensures Smooth() ==> ok && s.success.Some?
    {
      hide Inv, Recorded, Lawful, RowOf;
      var fails := Fails();
      if fails { Abort(); return false; }
      NoteRecord();
      fails := Fails();
      if fails { Abort(); return false; }
      ghost var was := s;
      Take(Finishing, At(s, me, Files).(row := [], history := []));
      StillComplete(was, s, me);
      ok := true;
    }

    method NoteRecord()
      requires Valid() && In(s, me) && s.procs[me].job.Migrate? && s.procs[me].pc.Copying? && s.procs[me].pc.todo == []
      requires Settings in s.tables
      modifies this
      ensures old(states) <= states && Mine(Clearing) && s.procs[me] == old(s.procs[me]).(pc := Clearing)
      ensures s.success.Some? ==> Complete(s) && s.success.value.maker == me
      ensures s.tables == old(s.tables) && (Smooth() ==> s.success.Some?)
    {
      hide Inv, Recorded, Lawful, RowOf;
      var targets := s.procs[me].pc.targets;
      Take(Finishing, At(s, me, Recording(targets)));
      Right(s, me);
      var fails := Fails();
      Take(Finishing, At(s, me, Clearing).(success := if fails then s.success else Some(Success(me, targets))));
    }

    /** The updates, then every table of the source that the target has; a failure leaves the run over. */
    method CopyTables() returns (ok: bool)
      requires Mine(Updates) && s.procs[me].job.Migrate? && s.procs[me].plan == Copy && Settings in s.tables
      modifies this
      ensures old(states) <= states && In(s, me) && Valid()
      ensures s.procs[me].job == old(s.procs[me].job) && s.procs[me].plan == Copy
      ensures if ok then s.procs[me].pc.Copying? && s.procs[me].pc.todo == [] && Settings in s.tables && HasTables()
              else s.procs[me].pc == Exited(false) && s.lock.None?
      ensures Smooth() ==> ok
    {
      hide Inv, Recorded;
      var fails := Fails();
      if fails { Abort(); return false; }
      var job, tables := s.procs[me].job, luck.evolve(s.tables);
      var rest := luck.todo(Needed(job, tables.Keys));
      assert Lists(rest, Needed(job, tables.Keys));
      Take(Updating, At(s, me, Copying(tables.Keys, rest, false)).(tables := tables));
      while rest != []
        invariant Valid() && In(s, me) && old(states) <= states && Settings in s.tables
        invariant s.procs[me] == Proc(job, Copy, Copying(tables.Keys, rest, false))
        invariant forall t <- rest :: t in s.tables
        decreases |rest|
      {
        ok := CopyOne();
        if !ok { return; }
        rest := rest[1..];
      }
      CopiedAll(s, me);
      ok := true;
    }

    method EmptyTable(targets: set<string>, rest: seq<string>)
      requires Mine(Copying(targets, rest, false)) && s.procs[me].job.Migrate? && rest != [] && rest[0] in s.tables
      modifies this
      ensures Mine(Copying(targets, rest, true)) && old(states) <= states && s.tables.Keys == old(s.tables.Keys)
      ensures s.procs[me] == old(s.procs[me]).(pc := Copying(targets, rest, true))
    {
      hide Inv, Recorded, Lawful, RowOf, Lists, Needed, Complete, Evolves;
      var emptied := At(s, me, Copying(targets, rest, true)).(tables := s.tables[rest[0] := Table(0, None)]);
      Take(Filling, if rest[0] == Settings then emptied.(success := None, row := [], history := []) else emptied);
    }

    method FillTable(targets: set<string>, rest: seq<string>, rows: int)
      requires Mine(Copying(targets, rest, true)) && s.procs[me].job.Migrate? && rest != [] && rest[0] in s.tables
      modifies this
      ensures Mine(Copying(targets, rest[1..], false)) && old(states) <= states && s.tables.Keys == old(s.tables.Keys)
      ensures s.procs[me] == old(s.procs[me]).(pc := Copying(targets, rest[1..], false))
    {
      hide Inv, Recorded, Lawful, RowOf, Lists, Needed, Complete, Evolves;
      var job, t := s.procs[me].job, rest[0];
      var filled := At(s, me, Copying(targets, rest[1..], false)).(tables := s.tables[t := Table(rows, Some(me))]);
      Take(Filling, if t == Settings then filled.(row := RowOf(job.carried), history := job.carried) else filled);
    }

    /** Empties the next table and fills it. */
    method CopyOne() returns (ok: bool)
      requires Valid() && In(s, me) && s.procs[me].job.Migrate? && s.procs[me].pc.Copying?
      requires !s.procs[me].pc.filling && s.procs[me].pc.todo != [] && s.procs[me].pc.todo[0] in s.tables
      modifies this
      ensures Valid() && In(s, me) && old(states) <= states
      ensures s.tables.Keys == old(s.tables.Keys)
      ensures s.procs[me] == old(s.procs[me]).(
                pc := if ok then Copying(old(s.procs[me].pc.targets), old(s.procs[me].pc.todo)[1..], false)
                      else Exited(false))
      ensures !ok ==> s.lock.None?
      ensures Smooth() ==> ok
    {
      hide Inv, Recorded, Lawful, RowOf, Lists, Needed, Complete, Evolves;
      var Copying(targets, rest, _) := s.procs[me].pc;
      var fails := Fails();
      if fails { Abort(); return false; }
      EmptyTable(targets, rest);
      var rows := luck.rows(met);
      fails := Fails();
      if fails { Abort(); return false; }
      FillTable(targets, rest, rows);
      ok := true;
    }
  }
}
