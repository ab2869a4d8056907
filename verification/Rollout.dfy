/** Configure, migrate and org-sync processes over one database: what every interleaving of them keeps.
    Each statement on the database is a step of its own, and a process may fail or crash between any two. */
module Rollout {
  import opened Values
  import opened ConfiguredRuns

  type Pid = nat

  /** A table: its rows, as an abstract value, and the migrate process whose copy filled it. */
  datatype Table = Table(rows: int, from: Option<Pid>)

  const Attributes := "attributes"
  const Settings := "system_settings"

  /** The tables that MISP's install baseline creates, and those of it that no copy overwrites. */
  const KeptTables: set<string> := {"admin_settings", "schema_migrations"}

  /** A migrate run's source has these tables, and carries the row of these configure runs of its own. */
  datatype Job =
    | Configure(run: Run)
    | Migrate(force: bool, replace: bool, source: set<string>, carried: seq<Run>)
    | Sync

  datatype Plan = Undecided | Copy | Keep | Refuse

  /** Where a process is; all but the last three and Acquiring hold the lock. */
  datatype Pc =
    | Acquiring
    | Syncing
    | Schema
    | Import
    | Updates
    | ReadRow
    | WriteRow(row: seq<Run>)
    | Look
    | Listed(existing: seq<string>)
    | Dropping(rest: seq<string>)
    | Copying(targets: set<string>, todo: seq<string>, filling: bool)
    | Recording(targets: set<string>)
    | Clearing
    | Files
    | Releasing(ok: bool)
    | Exited(ok: bool)
    | Crashed

  datatype Proc = Proc(job: Job, plan: Plan, pc: Pc)

  /** What the run record of a copy says: the process, and the tables the target had for it. */
  datatype Success = Success(maker: Pid, targets: set<string>)

  /** The lock, the processes, and the database: its tables, and of system_settings the run record of the last
      copy and the row of configure runs. The rest is history: the configure runs since the row was cleared, the
      tables dropped while system_settings stands, and whether a process ended in the middle of a drop. */
  datatype State = State(lock: Option<Pid>, procs: map<Pid, Proc>,
                         tables: map<string, Table>, success: Option<Success>, row: seq<Run>,
                         history: seq<Run>, lost: set<string>, torn: bool)

  predicate Critical(pc: Pc) { !pc.Acquiring? && !pc.Exited? && !pc.Crashed? }

  function At(s: State, p: Pid, pc: Pc): State
    requires p in s.procs
  {
    s.(procs := s.procs[p := s.procs[p].(pc := pc)])
  }

  /** The tables a copy has to fill. */
  function Needed(job: Job, targets: set<string>): set<string>
    requires job.Migrate?
  {
    (job.source * targets) - KeptTables
  }

  /** What the Job does with a target. */
  function TargetPlan(tables: nat, copied: bool, force: bool, replace: bool): Plan {
    if tables == 0 then Copy
    else if copied && !(force && replace) then Keep
    else if !force then Refuse
    else Copy
  }

  // ---- Steps -------------------------------------------------------------------------------

  ghost predicate Start(s: State, s': State, p: Pid) {
    p !in s.procs && exists job :: s' == s.(procs := s.procs[p := Proc(job, Undecided, Acquiring)])
  }

  ghost predicate In(s: State, p: Pid) { p in s.procs }

  function FirstPc(job: Job): Pc {
    match job
    case Configure(_) => Schema
    case Migrate(_, _, _, _) => Look
    case Sync => Syncing
  }

  /** Takes the lock when it is free; a process that still finds it taken at its deadline exits. */
  ghost predicate Acquire(s: State, s': State, p: Pid) {
    && In(s, p) && s.procs[p].pc.Acquiring?
    && if s.lock.None? then s' == At(s, p, FirstPc(s.procs[p].job)).(lock := Some(p))
       else s' == At(s, p, Exited(false))
  }

  /** An exception or an exit: the process goes on to release the lock. */
  ghost predicate Fail(s: State, s': State, p: Pid) {
    && In(s, p) && Critical(s.procs[p].pc) && !s.procs[p].pc.Releasing?
    && s' == At(s, p, Releasing(false)).(torn := s.torn || s.procs[p].pc.Dropping?)
  }

  /** A process ends at any point: its connection closes, which frees the lock. */
  ghost predicate Crash(s: State, s': State, p: Pid) {
    && In(s, p) && !s.procs[p].pc.Exited? && !s.procs[p].pc.Crashed?
    && s' == At(s, p, Crashed).(lock := if s.lock == Some(p) then None else s.lock,
                                torn := s.torn || s.procs[p].pc.Dropping?)
  }

  ghost predicate Release(s: State, s': State, p: Pid) {
    && In(s, p) && s.procs[p].pc.Releasing?
    && s' == At(s, p, Exited(s.procs[p].pc.ok)).(lock := None)
  }

  /** init_schema: looks whether the attributes table is there, and otherwise imports the baseline in one
      transaction, which fails when a table of the baseline exists. */
  ghost predicate InitSchema(s: State, s': State, p: Pid, baseline: set<string>) {
    && In(s, p)
    && match s.procs[p].pc
       case Schema => s' == At(s, p, if Attributes in s.tables then Updates else Import)
       case Import =>
         && baseline !! s.tables.Keys
         && s' == At(s, p, Updates).(tables := s.tables + (map t | t in baseline :: Table(0, None)))
       case _ => false
  }

  /** Rows change, and tables are added. */
  ghost predicate Evolves(tables: map<string, Table>, tables': map<string, Table>) {
    && (forall t :: t in tables ==> t in tables' && tables'[t].from == tables[t].from)
    && (forall t :: t in tables' && t !in tables ==> tables'[t].from.None? && t != Settings && t != Attributes)
  }

  /** cake's updates. A migrate run then copies the source's tables that the target has. */
  ghost predicate Update(s: State, s': State, p: Pid) {
    && In(s, p) && s.procs[p].pc.Updates? && Evolves(s.tables, s'.tables)
    && match s.procs[p].job
       case Configure(_) => s' == At(s, p, ReadRow).(tables := s'.tables)
       case Migrate(_, _, _, _) =>
         exists todo ::
           && Lists(todo, Needed(s.procs[p].job, s'.tables.Keys))
           && s' == At(s, p, Copying(s'.tables.Keys, todo, false)).(tables := s'.tables)
       case Sync => false
  }

  ghost predicate Lists(s: seq<string>, names: set<string>) {
    && (forall i, j :: 0 <= i < j < |s| ==> s[i] != s[j])
    && forall n :: n in s <==> n in names
  }

  /** The configure run reads the row, and writes it with its own run. */
  ghost predicate Record(s: State, s': State, p: Pid) {
    && In(s, p) && s.procs[p].job.Configure?
    && var run := s.procs[p].job.run;
       match s.procs[p].pc
       case ReadRow => s' == At(s, p, WriteRow(Recorded(s.row, run)))
       case WriteRow(row) =>
         Settings in s.tables && s' == At(s, p, Releasing(true)).(row := row, history := s.history + [run])
       case _ => false
  }

  /** The migrate run lists the target's tables, and decides. */
  ghost predicate Decide(s: State, s': State, p: Pid) {
    && In(s, p) && s.procs[p].job.Migrate?
    && match s.procs[p].pc
       case Look => exists existing :: Lists(existing, s.tables.Keys) && s' == At(s, p, Listed(existing))
       case Listed(existing) =>
         var job := s.procs[p].job;
         var plan := TargetPlan(|existing|, Settings in existing && s.success.Some?, job.force, job.replace);
         var pc := match plan
           case Keep => Files
           case Refuse => Releasing(false)
           case _ => if existing == [] then Schema else Dropping(existing);
         s' == s.(procs := s.procs[p := Proc(job, plan, pc)])
       case _ => false
  }

  /** drop_all, one table at a time. */
  ghost predicate Drop(s: State, s': State, p: Pid) {
    && In(s, p) && s.procs[p].pc.Dropping?
    && var rest := s.procs[p].pc.rest;
       if rest == [] then s' == At(s, p, Schema) else
         var t := rest[0];
         var gone := At(s, p, Dropping(rest[1..])).(tables := s.tables - {t});
         if t == Settings then s' == gone.(success := None, row := [], history := [], lost := {})
         else s' == gone.(lost := if Settings in s.tables then s.lost + {t} else s.lost)
  }

  /** The copy of one table: it is emptied, then filled. The source's run records stay behind. */
  ghost predicate CopyTable(s: State, s': State, p: Pid) {
    && In(s, p) && s.procs[p].job.Migrate? && s.procs[p].pc.Copying? && s.procs[p].pc.todo != []
    && var Copying(targets, todo, filling) := s.procs[p].pc;
       var t := todo[0];
       && t in s.tables
       && if !filling then
            var emptied := At(s, p, Copying(targets, todo, true)).(tables := s.tables[t := Table(0, None)]);
            s' == if t == Settings then emptied.(success := None, row := [], history := []) else emptied
          else
            exists rows ::
              var filled := At(s, p, Copying(targets, todo[1..], false))
                              .(tables := s.tables[t := Table(rows, Some(p))]);
              s' == if t == Settings then filled.(row := RowOf(s.procs[p].job.carried), history := s.procs[p].job.carried)
                    else filled
  }

  /** The end of a migrate run: the run record, the configure runs forgotten, the attachments. */
  ghost predicate Finish(s: State, s': State, p: Pid) {
    && In(s, p) && s.procs[p].job.Migrate?
    && match s.procs[p].pc
       case Copying(targets, todo, _) => todo == [] && s' == At(s, p, Recording(targets))
       case Recording(targets) =>
         // A record that fails is only logged
         || s' == At(s, p, Clearing)
         || (Settings in s.tables && s' == At(s, p, Clearing).(success := Some(Success(p, targets))))
       case Clearing => s' == At(s, p, Files).(row := [], history := [])
       case Files => s' == At(s, p, Releasing(true))
       case _ => false
  }

  ghost predicate SyncDone(s: State, s': State, p: Pid) {
    In(s, p) && s.procs[p].pc.Syncing? && s' == At(s, p, Releasing(true))
  }

  /** MISP, the org-sync and people use the database at any time: rows change. */
  ghost predicate Use(s: State, s': State) {
    && s'.tables.Keys == s.tables.Keys && Evolves(s.tables, s'.tables)
    && s' == s.(tables := s'.tables)
  }

  ghost predicate Step(s: State, s': State, p: Pid, baseline: set<string>) {
    || Start(s, s', p) || Acquire(s, s', p) || Fail(s, s', p) || Crash(s, s', p) || Release(s, s', p)
    || InitSchema(s, s', p, baseline) || Update(s, s', p) || Record(s, s', p) || Decide(s, s', p)
    || Drop(s, s', p) || CopyTable(s, s', p) || Finish(s, s', p) || SyncDone(s, s', p) || Use(s, s')
  }

  /** The database before any of these processes ran. */
  ghost predicate Init(s: State) {
    s.lock.None? && s.procs == map[] && s.success.None? && s.row == [] && s.history == []
    && s.lost == {} && !s.torn && forall t :: t in s.tables ==> s.tables[t].from.None?
  }

  /** A run: states from an initial one, each a step of some process from the one before. */
  ghost predicate Interleaving(states: seq<State>, baseline: set<string>) {
    && states != [] && Init(states[0])
    && Attributes in baseline && Settings in baseline
    && forall i :: 0 <= i < |states| - 1 ==> Moves(states[i], states[i + 1], baseline)
  }

  ghost predicate Moves(s: State, s': State, baseline: set<string>) {
    exists p :: Step(s, s', p, baseline)
  }

  // ---- What every interleaving keeps ---------------------------------------------------------

  /** The holder of the lock is the one process between its acquire and its release. */
  ghost predicate Locked(s: State) {
    forall p :: s.lock == Some(p) <==> In(s, p) && Critical(s.procs[p].pc)
  }

  ghost predicate RowRight(s: State) {
    && s.row == RowOf(s.history)
    && (Settings !in s.tables ==> s.success.None? && s.history == [] && s.lost == {})
  }

  ghost predicate Filled(s: State, t: string, p: Pid) { t in s.tables && s.tables[t].from == Some(p) }

  /** Every table that the recorded copy filled is there as it filled it, or was lost in a drop. */
  ghost predicate CopyRight(s: State) {
    && (s.success.Some? ==>
          var c := s.success.value;
          && In(s, c.maker) && s.procs[c.maker].job.Migrate?
          && forall t :: t in Needed(s.procs[c.maker].job, c.targets) ==> (t in s.lost <==> !Filled(s, t, c.maker)))
    && (forall t :: t in s.lost ==> t != Settings && (t in s.tables ==> s.tables[t].from.None?))
    && (s.lost != {} ==> s.torn || exists p :: In(s, p) && s.procs[p].pc.Dropping?)
  }

  ghost predicate Empty(s: State) { s.tables == map[] }

  /** What holds of the process that has the lock, where it stands. */
  ghost predicate ProcRight(s: State, p: Pid)
    requires In(s, p)
  {
    var Proc(job, plan, pc) := s.procs[p];
    match pc
    case Acquiring => plan == Undecided
    case Syncing => job.Sync?
    case Schema => !job.Sync? && (job.Migrate? ==> plan == Copy && Empty(s))
    case Import => !job.Sync? && Attributes !in s.tables && (job.Migrate? ==> plan == Copy && Empty(s))
    case Updates => !job.Sync? && (job.Migrate? ==> plan == Copy && s.success.None? && s.history == [] && s.lost == {})
    case ReadRow => job.Configure?
    case WriteRow(row) => job.Configure? && row == Recorded(s.row, job.run)
    case Look => job.Migrate? && plan == Undecided
    case Listed(existing) => job.Migrate? && plan == Undecided && Lists(existing, s.tables.Keys)
    case Dropping(rest) =>
      && job.Migrate? && plan == Copy && job.force && (s.success.Some? ==> job.replace)
      && Lists(rest, s.tables.Keys)
    case Copying(targets, todo, filling) =>
      && job.Migrate? && plan == Copy && s.success.None? && s.lost == {} && targets == s.tables.Keys
      && (job.carried == [] ==> s.history == [])
      && (filling ==> todo != [])
      && (forall i, j :: 0 <= i < j < |todo| ==> todo[i] != todo[j])
      && (forall t <- todo :: t in Needed(job, targets))
      && forall t :: t in Needed(job, targets) ==> t in todo || Filled(s, t, p)
    case Recording(targets) =>
      && job.Migrate? && plan == Copy && s.success.None? && s.lost == {} && targets == s.tables.Keys
      && (job.carried == [] ==> s.history == [])
      && forall t :: t in Needed(job, targets) ==> Filled(s, t, p)
    case Clearing => job.Migrate? && plan == Copy && (job.carried == [] ==> s.history == [])
    case Files => job.Migrate? && plan in {Copy, Keep} && (plan == Copy ==> s.history == [])
    case Releasing(ok) => ok && job.Migrate? ==> plan in {Copy, Keep}
    case Exited(ok) => ok && job.Migrate? ==> plan in {Copy, Keep}
    case Crashed => true
  }

  ghost predicate Inv(s: State) {
    Locked(s) && RowRight(s) && CopyRight(s) && forall p :: In(s, p) ==> ProcRight(s, p)
  }

  lemma InitInv(s: State)
    requires Init(s)
    ensures Inv(s)
  {
  }

  /** A step that leaves the database alone, and takes p from one place to another. */
  lemma Moved(s: State, s': State, p: Pid)
    requires Inv(s) && In(s', p) && s'.procs == s.procs[p := s'.procs[p]]
    requires s' == s.(procs := s'.procs, lock := s'.lock, torn := s'.torn)
    requires In(s, p) ==> s'.procs[p].job == s.procs[p].job
    requires s.torn ==> s'.torn
    requires In(s, p) && s.procs[p].pc.Dropping? ==> s'.procs[p].pc.Dropping? || s'.torn || s.lost == {}
    requires Locked(s') && ProcRight(s', p)
    ensures Inv(s')
  {
    hide RowOf, Recorded, Needed;
    forall q | In(s', q) ensures ProcRight(s', q) {
      if q != p { assert ProcRight(s, q); }
    }
    assert RowRight(s');
    if s'.lost != {} && !s'.torn {
      var q :| In(s, q) && s.procs[q].pc.Dropping?;
      assert In(s', q) && s'.procs[q].pc.Dropping?;
    }
  }

  /** A step of the holder of the lock, which may change the database. */
  lemma Worked(s: State, s': State, p: Pid)
    requires Inv(s) && In(s, p) && Critical(s.procs[p].pc)
    requires In(s', p) && s'.procs == s.procs[p := s'.procs[p]] && s'.lock == s.lock && Critical(s'.procs[p].pc)
    requires RowRight(s') && CopyRight(s') && ProcRight(s', p)
    ensures Inv(s')
  {
    forall q | In(s', q) ensures ProcRight(s', q) {
      if q != p { assert s.lock == Some(p) && !Critical(s.procs[q].pc) && ProcRight(s, q); }
    }
  }

  lemma StartKeeps(s: State, s': State, p: Pid)
    requires Inv(s) && Start(s, s', p)
    ensures Inv(s')
  {
    Moved(s, s', p);
  }

  lemma AcquireKeeps(s: State, s': State, p: Pid)
    requires Inv(s) && Acquire(s, s', p)
    ensures Inv(s')
  {
    hide Inv, RowOf, Recorded, Needed;
    AcquireRight(s, s', p);
    Moved(s, s', p);
  }

  lemma AcquireRight(s: State, s': State, p: Pid)
    requires Inv(s) && Acquire(s, s', p)
    ensures In(s, p) && In(s', p) && Locked(s') && ProcRight(s', p)
  {
    hide RowOf, Recorded, Needed, RowRight, CopyRight;
    assert ProcRight(s, p);
  }

  lemma EndKeeps(s: State, s': State, p: Pid)
    requires Inv(s) && (Fail(s, s', p) || Crash(s, s', p) || Release(s, s', p) || SyncDone(s, s', p))
    ensures Inv(s')
  {
    hide Inv, RowOf, Recorded, Needed;
    Ends(s, s', p);
    Moved(s, s', p);
  }

  lemma Ends(s: State, s': State, p: Pid)
    requires Inv(s) && (Fail(s, s', p) || Crash(s, s', p) || Release(s, s', p) || SyncDone(s, s', p))
    ensures In(s, p) && In(s', p) && Locked(s') && ProcRight(s', p)
  {
    hide RowOf, Recorded, Needed, RowRight, CopyRight;
    assert ProcRight(s, p);
  }

  lemma InitSchemaKeeps(s: State, s': State, p: Pid, baseline: set<string>)
    requires Inv(s) && InitSchema(s, s', p, baseline) && Attributes in baseline && Settings in baseline
    ensures Inv(s')
  {
    assert ProcRight(s, p);
    if s.procs[p].pc.Schema? {
      Moved(s, s', p);
    } else {
      Imports(s, s', p, baseline);
      Worked(s, s', p);
    }
  }

  lemma Imports(s: State, s': State, p: Pid, baseline: set<string>)
    requires Inv(s) && InitSchema(s, s', p, baseline) && Attributes in baseline && Settings in baseline
    requires s.procs[p].pc.Import?
    ensures RowRight(s') && CopyRight(s') && ProcRight(s', p)
  {
    hide RowOf, Recorded;
    assert ProcRight(s, p) && Settings !in s.tables;
    assert CopyRight(s');
  }

  lemma UpdateKeeps(s: State, s': State, p: Pid)
    requires Inv(s) && Update(s, s', p)
    ensures Inv(s')
  {
    hide Inv, RowOf, Recorded;
    UpdateRight(s, s', p);
    Worked(s, s', p);
  }

  lemma UpdateRight(s: State, s': State, p: Pid)
    requires Inv(s) && Update(s, s', p)
    ensures In(s', p) && s'.procs == s.procs[p := s'.procs[p]] && s'.lock == s.lock && Critical(s'.procs[p].pc)
    ensures RowRight(s') && CopyRight(s') && ProcRight(s', p)
  {
    hide RowOf, Recorded, ProcRight;
    HoldsUpdates(s, p);
    if s.procs[p].job.Configure? { UpdateConfigures(s, s', p); } else { UpdateMigrates(s, s', p); }
  }

  lemma HoldsUpdates(s: State, p: Pid)
    ensures Inv(s) && In(s, p) ==> ProcRight(s, p)
  {
  }

  lemma UpdateConfigures(s: State, s': State, p: Pid)
    requires Inv(s) && Update(s, s', p) && s.procs[p].job.Configure? && ProcRight(s, p)
    ensures RowRight(s') && CopyRight(s') && ProcRight(s', p)
  {
    hide RowOf, Recorded, Needed;
    assert forall q :: In(s, q) && s.procs[q].pc.Dropping? ==> In(s', q) && s'.procs[q].pc.Dropping?;
  }

  lemma UpdateMigrates(s: State, s': State, p: Pid)
    requires Inv(s) && Update(s, s', p) && s.procs[p].job.Migrate? && ProcRight(s, p)
    ensures RowRight(s') && CopyRight(s') && ProcRight(s', p)
  {
    hide RowOf, Recorded;
  }

  lemma RecordKeeps(s: State, s': State, p: Pid)
    requires Inv(s) && Record(s, s', p)
    ensures Inv(s')
  {
    hide Inv, RowOf, Recorded, Needed;
    if s.procs[p].pc.WriteRow? {
      WriteRight(s, s', p);
      Worked(s, s', p);
    } else {
      ReadRight(s, s', p);
      Moved(s, s', p);
    }
  }

  lemma WriteRight(s: State, s': State, p: Pid)
    requires Inv(s) && Record(s, s', p) && s.procs[p].pc.WriteRow?
    ensures RowRight(s') && CopyRight(s') && ProcRight(s', p)
    ensures In(s', p) && s'.procs == s.procs[p := s'.procs[p]] && s'.lock == s.lock && Critical(s'.procs[p].pc)
  {
    hide Recorded, Needed, Locked, CopyRight;
    assert ProcRight(s, p);
    assert (s.history + [s.procs[p].job.run])[..|s.history|] == s.history;
    WriteKeepsCopy(s, s', p);
  }

  lemma WriteKeepsCopy(s: State, s': State, p: Pid)
    requires Inv(s) && Record(s, s', p) && s.procs[p].pc.WriteRow?
    ensures CopyRight(s')
  {
    hide Recorded, Needed, Locked, RowRight, ProcRight, RowOf;
    assert forall q :: In(s, q) && s.procs[q].pc.Dropping? ==> In(s', q) && s'.procs[q].pc.Dropping?;
  }

  lemma ReadRight(s: State, s': State, p: Pid)
    requires Inv(s) && Record(s, s', p) && s.procs[p].pc.ReadRow?
    ensures In(s', p) && Locked(s') && ProcRight(s', p)
  {
    hide RowOf, Recorded, Needed, RowRight, CopyRight;
  }

  lemma DecideKeeps(s: State, s': State, p: Pid)
    requires Inv(s) && Decide(s, s', p)
    ensures Inv(s')
  {
    hide RowOf, Recorded, Needed;
    assert ProcRight(s, p);
    if s.procs[p].pc.Listed? { assert s.success.Some? ==> Settings in s.procs[p].pc.existing; }
    Moved(s, s', p);
  }

  lemma DropKeeps(s: State, s': State, p: Pid)
    requires Inv(s) && Drop(s, s', p)
    ensures Inv(s')
  {
    assert ProcRight(s, p);
    if s.procs[p].pc.rest == [] {
      assert s.tables == map[];
      Moved(s, s', p);
    } else {
      DropOne(s, s', p);
      Worked(s, s', p);
    }
  }

  lemma DropOne(s: State, s': State, p: Pid)
    requires Inv(s) && Drop(s, s', p) && s.procs[p].pc.rest != []
    ensures RowRight(s') && CopyRight(s') && ProcRight(s', p)
  {
    hide RowOf, Recorded, Needed;
    EmptyRow();
    DropKeepsProc(s, s', p);
    DropKeepsCopy(s, s', p);
  }

  lemma DropKeepsProc(s: State, s': State, p: Pid)
    requires Inv(s) && Drop(s, s', p) && s.procs[p].pc.rest != []
    ensures ProcRight(s', p) && s'.procs[p].pc.Dropping?
  {
    hide RowOf, Recorded, Needed, RowRight, CopyRight, Locked;
    assert ProcRight(s, p);
    DropRest(s.procs[p].pc.rest, s.tables);
  }

  lemma DropKeepsCopy(s: State, s': State, p: Pid)
    requires Inv(s) && Drop(s, s', p) && s.procs[p].pc.rest != []
    ensures CopyRight(s')
  {
    hide RowOf, Recorded, Needed, Locked, ProcRight;
    assert In(s', p) && s'.procs[p].pc.Dropping?;
  }

  lemma EmptyRow()
    ensures RowOf([]) == []
  {
  }

  lemma DropRest(rest: seq<string>, tables: map<string, Table>)
    requires rest != [] && Lists(rest, tables.Keys)
    ensures Lists(rest[1..], (tables - {rest[0]}).Keys)
  {
  }

  lemma CopyTableKeeps(s: State, s': State, p: Pid)
    requires Inv(s) && CopyTable(s, s', p)
    ensures Inv(s')
  {
    hide Inv, CopyTable, RowOf, Recorded, Needed;
    CopyHolds(s, p);
    if s.procs[p].pc.filling { FillRight(s, s', p); } else { EmptyRight(s, s', p); }
    Worked(s, s', p);
  }

  lemma CopyHolds(s: State, p: Pid)
    ensures forall s' :: CopyTable(s, s', p) ==> In(s, p) && s.procs[p].pc.Copying?
    ensures Inv(s) && In(s, p) ==> ProcRight(s, p)
  {
    hide RowOf, Recorded, Needed;
  }

  lemma FillRight(s: State, s': State, p: Pid)
    requires Inv(s) && CopyTable(s, s', p) && s.procs[p].pc.Copying? && s.procs[p].pc.filling
    ensures In(s', p) && s'.procs == s.procs[p := s'.procs[p]] && s'.lock == s.lock && Critical(s'.procs[p].pc)
    ensures RowRight(s') && CopyRight(s') && ProcRight(s', p)
  {
    hide RowOf, Recorded, Needed, Locked;
    assert ProcRight(s, p);
    EmptyRow();
  }

  lemma EmptyRight(s: State, s': State, p: Pid)
    requires Inv(s) && CopyTable(s, s', p) && s.procs[p].pc.Copying? && !s.procs[p].pc.filling
    ensures In(s', p) && s'.procs == s.procs[p := s'.procs[p]] && s'.lock == s.lock && Critical(s'.procs[p].pc)
    ensures RowRight(s') && CopyRight(s') && ProcRight(s', p)
  {
    hide RowOf, Recorded, Needed, Locked;
    assert ProcRight(s, p);
    EmptyRow();
  }

  lemma FinishKeeps(s: State, s': State, p: Pid)
    requires Inv(s) && Finish(s, s', p)
    ensures Inv(s')
  {
    hide RowOf, Recorded, Needed;
    EmptyRow();
    assert ProcRight(s, p);
    if s.procs[p].pc.Recording? {
      RecordSuccessRight(s, s', p);
      Worked(s, s', p);
    } else if s.procs[p].pc.Clearing? {
      ClearRight(s, s', p);
      Worked(s, s', p);
    } else {
      Moved(s, s', p);
    }
  }

  lemma ClearRight(s: State, s': State, p: Pid)
    requires Inv(s) && Finish(s, s', p) && s.procs[p].pc.Clearing?
    ensures RowRight(s') && CopyRight(s') && ProcRight(s', p)
  {
    hide Recorded, Needed;
    assert ProcRight(s, p);
  }

  lemma RecordSuccessRight(s: State, s': State, p: Pid)
    requires Inv(s) && Finish(s, s', p) && s.procs[p].pc.Recording?
    ensures RowRight(s') && CopyRight(s') && ProcRight(s', p)
  {
    hide RowOf, Recorded;
    assert ProcRight(s, p);
  }

  lemma UseKeeps(s: State, s': State)
    requires Inv(s) && Use(s, s')
    ensures Inv(s')
  {
    forall p | In(s', p) ensures ProcRight(s', p) { assert ProcRight(s, p); }
  }

  lemma StepKeeps(s: State, s': State, p: Pid, baseline: set<string>)
    requires Inv(s) && Step(s, s', p, baseline) && Attributes in baseline && Settings in baseline
    ensures Inv(s')
  {
    if Start(s, s', p) { StartKeeps(s, s', p); }
    else if Acquire(s, s', p) { AcquireKeeps(s, s', p); }
    else if Fail(s, s', p) || Crash(s, s', p) || Release(s, s', p) || SyncDone(s, s', p) { EndKeeps(s, s', p); }
    else if InitSchema(s, s', p, baseline) { InitSchemaKeeps(s, s', p, baseline); }
    else if Update(s, s', p) { UpdateKeeps(s, s', p); }
    else if Record(s, s', p) { RecordKeeps(s, s', p); }
    else if Decide(s, s', p) { DecideKeeps(s, s', p); }
    else if Drop(s, s', p) { DropKeeps(s, s', p); }
    else if CopyTable(s, s', p) { CopyTableKeeps(s, s', p); }
    else if Finish(s, s', p) { FinishKeeps(s, s', p); }
    else { UseKeeps(s, s'); }
  }

  // ---- Over whole runs ---------------------------------------------------------------------

  lemma {:induction false} InvAlong(states: seq<State>, baseline: set<string>, i: nat)
    requires Interleaving(states, baseline) && i < |states|
    ensures Inv(states[i])
    decreases i
  {
    hide Inv, Step, Init;
    if i == 0 {
      InitInv(states[0]);
    } else {
      InvAlong(states, baseline, i - 1);
      assert Moves(states[i - 1], states[i - 1 + 1], baseline);
      var p :| Step(states[i - 1], states[i], p, baseline);
      StepKeeps(states[i - 1], states[i], p, baseline);
    }
  }

  /** Mutual exclusion, whatever times out, fails or crashes: at most one process is between its acquire and
      its release, it is the one that has the lock, and a process that ended has not. */
  lemma OneHolder(states: seq<State>, baseline: set<string>, i: nat, p: Pid, q: Pid)
    requires Interleaving(states, baseline) && i < |states| && In(states[i], p) && In(states[i], q)
    ensures var s := states[i];
      && (Critical(s.procs[p].pc) && Critical(s.procs[q].pc) ==> p == q)
      && (Critical(s.procs[p].pc) <==> s.lock == Some(p))
  {
    InvAlong(states, baseline, i);
  }

  /** Only drop_all removes a table, and only with FORCE; from a target that holds a recorded copy, only with
      REPLACE as well. */
  lemma DropNeedsForce(s: State, s': State, q: Pid, baseline: set<string>, t: string)
    requires Inv(s) && Step(s, s', q, baseline) && t in s.tables && t !in s'.tables
    ensures Drop(s, s', q) && s.procs[q].job.Migrate? && s.procs[q].job.force
    ensures s.success.Some? ==> s.procs[q].job.replace
  {
    hide RowRight, CopyRight, Recorded, Locked;
    if In(s, q) { assert ProcRight(s, q); }
  }

  /** The process imports the baseline. */
  ghost predicate ImportsBaseline(s: State, s': State, p: Pid, baseline: set<string>) {
    In(s, p) && s.procs[p].pc.Import? && InitSchema(s, s', p, baseline)
  }

  ghost predicate DropsAttributes(s: State, s': State) {
    Attributes in s.tables && Attributes !in s'.tables && exists q :: Drop(s, s', q)
  }

  lemma {:induction false} DroppedBetween(states: seq<State>, baseline: set<string>, i: nat, j: nat) returns (k: nat)
    requires Interleaving(states, baseline) && i < j < |states|
    requires Attributes in states[i].tables && Attributes !in states[j].tables
    ensures i <= k < j && DropsAttributes(states[k], states[k + 1])
    decreases j
  {
    hide Step, Inv, Drop;
    k := j - 1;
    if Attributes in states[k].tables {
      InvAlong(states, baseline, k);
      assert Moves(states[k], states[k + 1], baseline);
      var q :| Step(states[k], states[k + 1], q, baseline);
      DropNeedsForce(states[k], states[k + 1], q, baseline, Attributes);
    } else {
      k := DroppedBetween(states, baseline, i, j - 1);
    }
  }

  /** The baseline is imported at most once between two drops of the attributes table. */
  lemma OneImport(states: seq<State>, baseline: set<string>, i: nat, j: nat, p: Pid, q: Pid) returns (k: nat)
    requires Interleaving(states, baseline) && i < j < |states| - 1
    requires ImportsBaseline(states[i], states[i + 1], p, baseline)
    requires ImportsBaseline(states[j], states[j + 1], q, baseline)
    ensures i < k < j && DropsAttributes(states[k], states[k + 1])
  {
    InvAlong(states, baseline, j);
    assert ProcRight(states[j], q);
    assert Attributes in states[i + 1].tables;
    assert i + 1 != j;
    k := DroppedBetween(states, baseline, i + 1, j);
  }

  /** The target holds every table of the recorded copy as the copy filled it. */
  ghost predicate Complete(s: State) {
    && s.success.Some?
    && var c := s.success.value;
       && In(s, c.maker) && s.procs[c.maker].job.Migrate?
       && forall t :: t in Needed(s.procs[c.maker].job, c.targets) ==> Filled(s, t, c.maker)
  }

  ghost predicate SomeoneDrops(s: State) { exists p :: In(s, p) && s.procs[p].pc.Dropping? }

  /** A recorded success means a complete copy by that process, unless a drop of it is going on or was cut
      short: the record stands for a complete copy if and only if no table of it was dropped before
      system_settings. */
  lemma SuccessMeansComplete(states: seq<State>, baseline: set<string>, i: nat)
    requires Interleaving(states, baseline) && i < |states| && states[i].success.Some?
    ensures var s := states[i]; var c := s.success.value;
      && In(s, c.maker) && s.procs[c.maker].job.Migrate?
      && (Complete(s) <==> Needed(s.procs[c.maker].job, c.targets) !! s.lost)
      && (!s.torn && !SomeoneDrops(s) ==> Complete(s))
  {
    InvAlong(states, baseline, i);
    hide Locked, RowRight, ProcRight;
  }

  /** All of the database that a migrate run may change. */
  ghost predicate SameDatabase(s: State, s': State) {
    s'.tables == s.tables && s'.success == s.success && s'.row == s.row && s'.lost == s.lost
    && s'.history == s.history
  }

  lemma Others(s: State, s': State, q: Pid, p: Pid, baseline: set<string>)
    requires Step(s, s', q, baseline) && In(s', p) && p != q
    ensures In(s, p) && s'.procs[p] == s.procs[p]
  {
    hide InitSchema, Update, Record, Decide, Drop, CopyTable, Finish;
    if InitSchema(s, s', q, baseline) || Update(s, s', q) || Record(s, s', q) || Decide(s, s', q) {
      OthersOfWork(s, s', q, baseline);
    } else if Drop(s, s', q) || CopyTable(s, s', q) || Finish(s, s', q) {
      OthersOfCopy(s, s', q);
    }
  }

  lemma OthersOfWork(s: State, s': State, q: Pid, baseline: set<string>)
    requires InitSchema(s, s', q, baseline) || Update(s, s', q) || Record(s, s', q) || Decide(s, s', q)
    ensures In(s, q) && In(s', q) && s'.procs == s.procs[q := s'.procs[q]]
  {
    hide Lists, Evolves, Needed, RowOf, Recorded, TargetPlan;
  }

  lemma OthersOfCopy(s: State, s': State, q: Pid)
    requires Drop(s, s', q) || CopyTable(s, s', q) || Finish(s, s', q)
    ensures In(s, q) && In(s', q) && s'.procs == s.procs[q := s'.procs[q]]
  {
    hide Lists, Needed, RowOf;
  }

  /** The steps that change the database belong to a configure run, or to a migrate run that decided to copy. */
  lemma WorkersCopy(s: State, s': State, p: Pid, baseline: set<string>)
    requires Inv(s)
    requires InitSchema(s, s', p, baseline) || Update(s, s', p) || Record(s, s', p) || Drop(s, s', p)
             || CopyTable(s, s', p) || (Finish(s, s', p) && !s.procs[p].pc.Files?)
    ensures s.procs[p].job.Configure? || (s.procs[p].job.Migrate? && s.procs[p].plan == Copy)
    ensures In(s', p) && s'.procs[p].job == s.procs[p].job && s'.procs[p].plan == s.procs[p].plan
  {
    hide RowRight, CopyRight, Recorded, Locked, RowOf, Lists, Evolves, Needed, TargetPlan;
    assert ProcRight(s, p);
  }

  /** A migrate run that keeps or refuses its target leaves the database alone, before and after it decides. */
  lemma KeepTouchesNothing(s: State, s': State, q: Pid, p: Pid, baseline: set<string>)
    requires Inv(s) && Step(s, s', q, baseline) && In(s', p) && s'.procs[p].job.Migrate?
    requires !In(s, p) || s'.procs[p] != s.procs[p]
    requires s'.procs[p].plan in {Undecided, Keep, Refuse}
    ensures SameDatabase(s, s')
  {
    hide Inv, Lists, Evolves, Needed, RowOf, Recorded, InitSchema, Update, Record, Drop, CopyTable, TargetPlan;
    if p != q { Others(s, s', q, p, baseline); }
    if InitSchema(s, s', p, baseline) || Update(s, s', p) || Record(s, s', p) || Drop(s, s', p)
       || CopyTable(s, s', p) || (Finish(s, s', p) && !s.procs[p].pc.Files?)
    {
      WorkersCopy(s, s', p, baseline);
    }
  }

  /** The plan is the one for this target and these settings: a target with tables and without a recorded copy is
      refused unless FORCE is on, a recorded copy is kept unless FORCE and REPLACE are, and all others get a copy. */
  ghost predicate Rightly(s: State, job: Job, plan: Plan) {
    && job.Migrate?
    && (s.tables != map[] && s.success.None? && !job.force ==> plan == Refuse)
    && (s.success.Some? && !(job.force && job.replace) ==> plan == Keep)
    && (s.tables == map[] || (job.force && (s.success.None? || job.replace)) ==> plan == Copy)
  }

  /** A migrate run decides once, and rightly. */
  lemma DecidedOnce(s: State, s': State, q: Pid, p: Pid, baseline: set<string>)
    requires Inv(s) && Step(s, s', q, baseline) && In(s, p) && In(s', p)
    ensures s'.procs[p].job == s.procs[p].job
    ensures s'.procs[p].plan != s.procs[p].plan ==>
              s.procs[p].plan == Undecided && Rightly(s, s.procs[p].job, s'.procs[p].plan)
  {
    hide Inv, Lists, Evolves, Needed, RowOf, Recorded, InitSchema, Update, Record, Drop, CopyTable, TargetPlan, Decide;
    if p != q {
      Others(s, s', q, p, baseline);
    } else if Decide(s, s', p) {
      Decision(s, s', p);
    } else if InitSchema(s, s', p, baseline) || Update(s, s', p) || Record(s, s', p) || Drop(s, s', p)
              || CopyTable(s, s', p) || (Finish(s, s', p) && !s.procs[p].pc.Files?)
    {
      WorkersCopy(s, s', p, baseline);
    }
  }

  lemma Decision(s: State, s': State, p: Pid)
    requires Inv(s) && Decide(s, s', p)
    ensures In(s', p) && s'.procs[p].job == s.procs[p].job
    ensures s'.procs[p].plan != s.procs[p].plan ==>
              s.procs[p].plan == Undecided && Rightly(s, s.procs[p].job, s'.procs[p].plan)
  {
    hide CopyRight, Recorded, Locked, RowOf;
    assert ProcRight(s, p);
    if s.procs[p].pc.Listed? { ListsNone(s.procs[p].pc.existing, s.tables); }
  }

  lemma ListsNone(s: seq<string>, tables: map<string, Table>)
    requires Lists(s, tables.Keys)
    ensures s == [] <==> tables == map[]
  {
    if s != [] { assert s[0] in tables; }
    if tables != map[] { var t :| t in tables; assert t in s; }
  }

  lemma {:induction false} PlanIsFinal(states: seq<State>, baseline: set<string>, i: nat, j: nat, p: Pid)
    requires Interleaving(states, baseline) && i <= j < |states| && In(states[i], p)
    ensures In(states[j], p) && states[j].procs[p].job == states[i].procs[p].job
    ensures states[i].procs[p].plan != Undecided ==> states[j].procs[p].plan == states[i].procs[p].plan
    decreases j
  {
    hide Step, Inv;
    if i < j {
      PlanIsFinal(states, baseline, i, j - 1, p);
      InvAlong(states, baseline, j - 1);
      assert Moves(states[j - 1], states[j - 1 + 1], baseline);
      var q :| Step(states[j - 1], states[j], q, baseline);
      Remains(states[j - 1], states[j], q, p, baseline);
      DecidedOnce(states[j - 1], states[j], q, p, baseline);
    }
  }

  lemma Remains(s: State, s': State, q: Pid, p: Pid, baseline: set<string>)
    requires Step(s, s', q, baseline) && In(s, p)
    ensures In(s', p)
  {
    hide InitSchema, Update, Record, Decide, Drop, CopyTable, Finish;
    if InitSchema(s, s', q, baseline) || Update(s, s', q) || Record(s, s', q) || Decide(s, s', q) {
      OthersOfWork(s, s', q, baseline);
    } else if Drop(s, s', q) || CopyTable(s, s', q) || Finish(s, s', q) {
      OthersOfCopy(s, s', q);
    }
  }

  /** So it does in every interleaving. */
  lemma DecidesRightly(states: seq<State>, baseline: set<string>, i: nat, p: Pid)
    requires Interleaving(states, baseline) && i < |states| - 1 && In(states[i], p)
    ensures In(states[i + 1], p)
    ensures var (was, now) := (states[i].procs[p], states[i + 1].procs[p]);
      now.job == was.job && (now.plan != was.plan ==> was.plan == Undecided && Rightly(states[i], was.job, now.plan))
  {
    hide Step, Inv, Rightly;
    assert Moves(states[i], states[i + 1], baseline);
    var q :| Step(states[i], states[i + 1], q, baseline);
    InvAlong(states, baseline, i);
    Remains(states[i], states[i + 1], q, p, baseline);
    DecidedOnce(states[i], states[i + 1], q, p, baseline);
  }

  /** In every interleaving, a migrate run that decides over a target with tables, without a recorded copy and
      without FORCE never succeeds. */
  lemma ForeignTargetNeverCounts(states: seq<State>, baseline: set<string>, i: nat, j: nat, p: Pid)
    requires Interleaving(states, baseline) && i < j < |states| && In(states[i], p)
    requires var s := states[i];
      && s.procs[p].plan == Undecided && In(states[i + 1], p) && states[i + 1].procs[p].plan != Undecided
      && s.tables != map[] && s.success.None? && !s.procs[p].job.force
    ensures In(states[j], p) && states[j].procs[p].plan == Refuse && states[j].procs[p].pc != Exited(true)
  {
    hide Step, Inv;
    assert Moves(states[i], states[i + 1], baseline);
    var q :| Step(states[i], states[i + 1], q, baseline);
    InvAlong(states, baseline, i);
    InvAlong(states, baseline, j);
    DecidedOnce(states[i], states[i + 1], q, p, baseline);
    PlanIsFinal(states, baseline, i + 1, j, p);
    if states[j].procs[p].pc == Exited(true) { SucceedsByPlan(states[j], p); }
  }

  lemma SucceedsByPlan(s: State, p: Pid)
    requires Inv(s) && In(s, p) && s.procs[p].job.Migrate? && s.procs[p].pc == Exited(true)
    ensures s.procs[p].plan in {Copy, Keep}
  {
    assert ProcRight(s, p);
  }

  /** A copy writes to no table that its source lacks, nor to the two that the target keeps. */
  lemma CopyWritesOnlyThose(s: State, s': State, p: Pid, t: string)
    requires Inv(s) && CopyTable(s, s', p)
    requires t !in s.procs[p].job.source || t in {"admin_settings", "schema_migrations"}
    ensures (t in s'.tables <==> t in s.tables) && (t in s.tables ==> s'.tables[t] == s.tables[t])
  {
    hide RowRight, CopyRight, Locked, RowOf;
    assert ProcRight(s, p);
    assert s.procs[p].pc.todo[0] in s.procs[p].pc.todo;
  }

  /** When a migrate run comes to its run record, every table of its source that the target has is as the run filled
      it, but for the two that no copy overwrites. */
  lemma CopiedAtRecord(states: seq<State>, baseline: set<string>, i: nat, p: Pid)
    requires Interleaving(states, baseline) && i < |states| && In(states[i], p) && states[i].procs[p].pc.Recording?
    ensures var s := states[i]; var job := s.procs[p].job;
      && job.Migrate? && s.procs[p].pc.targets == s.tables.Keys
      && forall t :: t in job.source && t in s.tables && t !in {"admin_settings", "schema_migrations"} ==>
           s.tables[t].from == Some(p)
  {
    hide Inv;
    InvAlong(states, baseline, i);
    CopiedAll(states[i], p);
  }

  lemma CopiedAll(s: State, p: Pid)
    requires Inv(s) && In(s, p)
    ensures s.procs[p].pc.Recording? || (s.procs[p].pc.Copying? && s.procs[p].pc.todo == []) ==>
      var job := s.procs[p].job;
      && job.Migrate? && s.procs[p].pc.targets == s.tables.Keys
      && forall t :: t in job.source && t in s.tables && t !in {"admin_settings", "schema_migrations"} ==>
           s.tables[t].from == Some(p)
  {
    hide RowRight, CopyRight, Locked;
    assert ProcRight(s, p);
    var job, pc := s.procs[p].job, s.procs[p].pc;
    if pc.Recording? || (pc.Copying? && pc.todo == []) {
      forall t | t in job.source && t in s.tables && t !in {"admin_settings", "schema_migrations"}
        ensures s.tables[t].from == Some(p)
      {
        assert t in Needed(job, pc.targets);
        assert Filled(s, t, p);
      }
    }
  }

  /** A pod passes its gate if and only if a run with its version, if it knows one, and its checksum, if it knows one,
      was recorded since the row was last cleared, with fewer than ten other runs after it. */
  lemma Gate(states: seq<State>, baseline: set<string>, i: nat, wanted: Run)
    requires Interleaving(states, baseline) && i < |states|
    ensures var s := states[i];
      Open(s.row, wanted) <==>
        exists run <- s.history ::
          && (wanted.version == "" || run.version == wanted.version)
          && (wanted.checksum == "" || run.checksum == wanted.checksum)
          && |After(s.history, run)| < 10
  {
    hide Open, After, RowOf;
    InvAlong(states, baseline, i);
    GateOpens(states[i].history, wanted);
  }

  /** While a migrate run fills its target no pod passes the gate, provided that the source carries no row of
      configure runs; and once the run forgot them, none passes in any case. */
  lemma GateShutWhileCopying(states: seq<State>, baseline: set<string>, i: nat, p: Pid, wanted: Run)
    requires Interleaving(states, baseline) && i < |states| && In(states[i], p) && states[i].procs[p].plan == Copy
    requires var pc := states[i].procs[p].pc;
      || pc.Files?
      || (states[i].procs[p].job.Migrate? && states[i].procs[p].job.carried == []
          && (pc.Schema? || pc.Import? || pc.Updates? || pc.Copying? || pc.Recording? || pc.Clearing?))
    ensures !Open(states[i].row, wanted)
  {
    InvAlong(states, baseline, i);
    assert ProcRight(states[i], p);
    EmptyRow();
  }
}
