/** The supervisor of the worker container: it restarts its programs, and stops them in order. */
module Supervisor {
  import opened Values
  import opened Backoff

  const Nap := 500
  const RelayGrace := 5_000

  /** What the supervisor does to processes, and the exits it learns of, each with its time. */
  datatype Event =
    | Started(program: nat, pid: nat, time: int)
    | Gone(program: nat, pid: nat, time: int)
    | Term(program: nat, time: int)
    | Kill(program: nat, time: int)

  /** What the supervisor cannot know: whether the process of a program still runs when it looks, given all that
      happened so far; how long a nap takes; the ID of a new process. */
  datatype World = World(runs: (seq<Event>, int, nat) -> bool, nap: int -> int, pid: int -> nat)

  /** A nap takes its time, and not forever. */
  ghost predicate Naps(world: World, longest: int) {
    forall t :: Nap <= world.nap(t) <= longest
  }

  class Program {
    const last: bool
    var proc: Option<nat>
    var started: int
    var failures: nat
    var due: int
    ghost var starts: seq<int>
    ghost var rapid: seq<bool>

    constructor (last: bool)
      ensures Value() == New(last) && this.last == last
    {
      this.last := last;
      proc, started, failures, due, starts, rapid := None, 0, 0, 0, [], [];
    }

    ghost function Value(): Prog
      reads this
    {
      Prog(last, proc, started, failures, due, starts, rapid)
    }

    method Reap(now: int)
      modifies this
      ensures Value() == Backoff.Reap(old(Value()), now, true)
    {
      if proc.None? { return; }
      rapid := rapid + [now - started < RapidExit];
      failures := if now - started < RapidExit then failures + 1 else 0;
      proc, due := None, now + Delay(failures);
    }

    method Start(now: int, pid: nat)
      requires proc.None? && now >= due
      modifies this
      ensures Value() == StartDue(old(Value()), now, pid)
    {
      starts := starts + [now];
      proc, started := Some(pid), now;
    }
  }

  // ---- What the log says -------------------------------------------------------------------

  /** The process of program k that, by the log, was started and has not exited. */
  function Live(log: seq<Event>, k: nat): Option<nat> {
    if log == [] then None else
      var before := Live(log[..|log| - 1], k);
      match log[|log| - 1]
      case Started(j, pid, _) => if j == k then Some(pid) else before
      case Gone(j, _, _) => if j == k then None else before
      case _ => before
  }

  /** When program k was started. */
  function StartTimes(log: seq<Event>, k: nat): seq<int> {
    if log == [] then [] else
      var before, e := StartTimes(log[..|log| - 1], k), log[|log| - 1];
      if e.Started? && e.program == k then before + [e.time] else before
  }

  /** What may come after a log: a start where nothing is live; the exit of the live process, when a look found it
      gone or right after its SIGKILL; a SIGKILL where something is live. */
  predicate Follows(world: World, log: seq<Event>, e: Event) {
    match e
    case Started(k, _, _) => Live(log, k).None?
    case Gone(k, pid, time) =>
      && Live(log, k) == Some(pid)
      && (!world.runs(log, time, k) || (log != [] && log[|log| - 1] == Kill(k, time)))
    case Kill(k, _) => Live(log, k).Some?
    case Term(_, _) => true
  }

  ghost predicate Honest(world: World, log: seq<Event>) {
    forall i :: 0 <= i < |log| ==> Follows(world, log[..i], log[i])
  }

  lemma LogMore(world: World, log: seq<Event>, e: Event)
    requires Honest(world, log) && Follows(world, log, e)
    ensures Honest(world, log + [e])
    ensures forall k, pid :: KnownGone(log, k, pid) ==> KnownGone(log + [e], k, pid)
    ensures e.Gone? ==> KnownGone(log + [e], e.program, e.pid)
  {
    hide Follows;
    var more := log + [e];
    assert more[..|log|] == log && more[|log|] == e;
    forall i | 0 <= i < |more| ensures Follows(world, more[..i], more[i]) {
      if i < |log| { assert more[..i] == log[..i] && more[i] == log[i]; }
    }
    forall k, pid | KnownGone(log, k, pid) ensures KnownGone(more, k, pid) {
      KnownGoneMore(log, more, k, pid);
    }
  }

  lemma LiveMore(log: seq<Event>, e: Event, k: nat)
    ensures Live(log + [e], k) == if e.Started? && e.program == k then Some(e.pid)
                                  else if e.Gone? && e.program == k then None else Live(log, k)
    ensures StartTimes(log + [e], k)
              == if e.Started? && e.program == k then StartTimes(log, k) + [e.time] else StartTimes(log, k)
  {
    assert (log + [e])[..|log|] == log;
  }

  /** The live process of a program stays the one last started until its exit. */
  lemma {:induction false} LiveUntilGone(world: World, log: seq<Event>, k: nat, i: nat, n: nat)
    requires Honest(world, log) && i < n <= |log| && log[i].Started? && log[i].program == k
    requires forall h :: i < h < n ==> !(log[h].Gone? && log[h].program == k && log[h].pid == log[i].pid)
    ensures Live(log[..n], k) == Some(log[i].pid)
    decreases n
  {
    assert log[..n][..n - 1] == log[..n - 1];
    if n > i + 1 {
      LiveUntilGone(world, log, k, i, n - 1);
      assert Follows(world, log[..n - 1], log[n - 1]);
    }
  }

  /** A program never has two live processes: between two of its starts the first process was found to have
      exited, and no start came in between unless it followed such an exit too. */
  lemma OneProcessAtATime(world: World, log: seq<Event>, k: nat, i: nat, j: nat) returns (h: nat)
    requires Honest(world, log) && i < j < |log|
    requires log[i].Started? && log[i].program == k && log[j].Started? && log[j].program == k
    ensures i < h < j && log[h].Gone? && log[h].program == k && log[h].pid == log[i].pid
    ensures !world.runs(log[..h], log[h].time, k) || log[h - 1] == Kill(k, log[h].time)
  {
    assert Follows(world, log[..j], log[j]);
    if forall g :: i < g < j ==> !(log[g].Gone? && log[g].program == k && log[g].pid == log[i].pid) {
      LiveUntilGone(world, log, k, i, j);
      assert false;
    }
    h :| i < h < j && log[h].Gone? && log[h].program == k && log[h].pid == log[i].pid;
    assert Follows(world, log[..h], log[h]);
  }

  /** The starts of a pass: of each program that is due, in order. */
  function StartEvents(before: seq<Prog>, pids: seq<nat>, now: int, n: nat): seq<Event>
    requires n <= |before| && n <= |pids|
  {
    if n == 0 then [] else
      var init := StartEvents(before, pids, now, n - 1);
      if before[n - 1].proc.None? && now >= before[n - 1].due then init + [Started(n - 1, pids[n - 1], now)] else init
  }

  ghost predicate KnownGone(log: seq<Event>, k: nat, pid: nat) {
    exists i :: 0 <= i < |log| && log[i].Gone? && log[i].program == k && log[i].pid == pid
  }

  class Supervisor {
    const programs: seq<Program>
    const grace: nat
    const world: World
    var clock: int
    // The programs whose process was found to have exited, until they are reaped
    var exited: set<nat>
    var log: seq<Event>
    ghost var ticks: seq<seq<Tick>>

    ghost predicate Sound()
      reads this, programs
    {
      && (forall i, j :: 0 <= i < j < |programs| ==> programs[i] != programs[j])
      && 0 <= clock && Honest(world, log)
      && (forall k :: k in exited ==>
            k < |programs| && programs[k].proc.Some? && KnownGone(log, k, programs[k].proc.value))
      && forall k :: 0 <= k < |programs| ==> Agrees(k)
    }

    /** The log knows the live process of a program, and its starts. */
    ghost predicate Agrees(k: nat)
      requires k < |programs|
      reads this, programs
    {
      && Live(log, k) == (if k in exited then None else programs[k].proc)
      && StartTimes(log, k) == programs[k].starts
    }

    /** Each program has lived through its ticks. */
    ghost predicate Valid()
      reads this, programs
    {
      && Sound()
      && |ticks| == |programs|
      && forall k :: 0 <= k < |programs| ==>
           && programs[k].Value() == Life(programs[k].last, ticks[k])
           && Forward(ticks[k])
           && (ticks[k] != [] ==> ticks[k][|ticks[k]| - 1].now <= clock)
    }

    ghost predicate Down(k: nat)
      requires k < |programs|
      reads this, programs
    {
      programs[k].proc.None? || k in exited
    }

    constructor (programs: seq<Program>, grace: nat, world: World)
      requires forall i, j :: 0 <= i < j < |programs| ==> programs[i] != programs[j]
      requires forall p <- programs :: p.Value() == New(p.last)
      ensures Valid() && this.programs == programs && this.grace == grace && this.world == world && log == []
    {
      this.programs, this.grace, this.world := programs, grace, world;
      clock, exited, log := 0, {}, [];
      ticks := seq(|programs|, i => []);
      new;
      forall k | 0 <= k < |programs|
        ensures programs[k].Value() == New(programs[k].last) && Agrees(k)
      {
        assert programs[k] in programs;
      }
    }

    /** Writes down what happens. */
    method Note(e: Event)
      requires Honest(world, log) && Follows(world, log, e)
      modifies this`log
      ensures log == old(log) + [e] && Honest(world, log)
      ensures forall k :: k != e.program || Signals(e) ==> Live(log, k) == Live(old(log), k)
      ensures forall k :: k != e.program || !e.Started? ==> StartTimes(log, k) == StartTimes(old(log), k)
      ensures e.Started? ==> Live(log, e.program) == Some(e.pid)
                             && StartTimes(log, e.program) == StartTimes(old(log), e.program) + [e.time]
      ensures e.Gone? ==> Live(log, e.program).None? && KnownGone(log, e.program, e.pid)
      ensures forall k, pid :: KnownGone(old(log), k, pid) ==> KnownGone(log, k, pid)
    {
      hide Honest, Follows, KnownGone, Live, StartTimes;
      LogMore(world, log, e);
      forall k: nat
        ensures Live(log + [e], k) == if e.Started? && e.program == k then Some(e.pid)
                                      else if e.Gone? && e.program == k then None else Live(log, k)
        ensures StartTimes(log + [e], k)
                  == if e.Started? && e.program == k then StartTimes(log, k) + [e.time] else StartTimes(log, k)
      {
        LiveMore(log, e, k);
      }
      log := log + [e];
    }

    /** Looks whether a program runs; an exit once seen stays. */
    method Poll(k: nat) returns (running: bool)
      requires Sound() && k < |programs|
      modifies this`exited, this`log
      ensures Sound() && running == !Down(k)
      ensures exited == old(exited) + (if Down(k) && programs[k].proc.Some? then {k} else {})
      ensures old(Down(k)) ==> log == old(log)
      ensures log == old(log) || (programs[k].proc.Some? && log == old(log) + [Gone(k, programs[k].proc.value, clock)])
      ensures forall j :: j != k ==> Live(log, j) == Live(old(log), j)
    {
      hide Honest, KnownGone, Live, StartTimes;
      assert Agrees(k);
      running := programs[k].proc.Some? && k !in exited && world.runs(log, clock, k);
      if programs[k].proc.Some? && k !in exited && !running {
        Note(Gone(k, programs[k].proc.value, clock));
        exited := exited + {k};
        forall j | 0 <= j < |programs| ensures Agrees(j) { assert old(Agrees(j)); }
      }
    }

    /** Schedules the restart of a program with a process, if the log then knows the exit of that process. */
    method ReapOne(i: nat, now: int) returns (ghost gone: bool)
      requires Sound() && i < |programs|
      modifies this`exited, this`log, programs[i]
      ensures Sound() && OnlyExits(old(log), log) && exited == old(exited) - {i}
      ensures programs[i].Value() == Reap(old(programs[i].Value()), now, gone)
      ensures gone <==> old(programs[i].proc).Some? && Live(log, i).None?
      ensures forall j :: j != i ==> Live(log, j) == Live(old(log), j)
    {
      hide Honest, Delay, Live, StartTimes, Follows, KnownGone;
      var running := Poll(i);
      assert Agrees(i);
      gone := !running && programs[i].proc.Some?;
      if !running && programs[i].proc.Some? {
        assert forall j :: 0 <= j < |programs| ==> Agrees(j);
        ghost var starts := programs[i].Value().starts;
        label Seen:
        programs[i].Reap(now);
        exited := exited - {i};
        assert programs[i].Value().starts == starts;
        forall j | 0 <= j < |programs| ensures Agrees(j) {
          assert old@Seen(Agrees(j)) && (j != i ==> programs[j] != programs[i]);
        }
      }
    }

    /** Schedules the restart of each program that exited: of those with a process, the ones of which the log
        then knows the exit. */
    method ReapAll(now: int) returns (ghost gone: seq<bool>)
      requires Sound()
      modifies this`exited, this`log, programs
      ensures Sound() && |gone| == |programs| && OnlyExits(old(log), log)
      ensures forall k :: 0 <= k < |programs| ==>
                && programs[k].Value() == Reap(old(programs[k].Value()), now, gone[k])
                && (gone[k] <==> old(programs[k].proc).Some? && Live(log, k).None?)
      ensures exited == {}
    {
      hide Honest, Delay, Live, StartTimes, Follows, KnownGone, Reap;
      gone := [];
      for i := 0 to |programs|
        invariant Sound() && |gone| == i && OnlyExits(old(log), log)
        invariant forall k :: 0 <= k < i ==>
                    && programs[k].Value() == Reap(old(programs[k].Value()), now, gone[k])
                    && (gone[k] <==> old(programs[k].proc).Some? && Live(log, k).None?)
        invariant forall k :: i <= k < |programs| ==>
                    programs[k].Value() == old(programs[k].Value()) && programs[k].proc == old(programs[k].proc)
        invariant forall k :: k in exited ==> i <= k
      {
        ghost var g := ReapOne(i, now);
        gone := gone + [g];
      }
    }

    /** Starts a program if it is due. */
    method StartOne(i: nat, now: int) returns (ghost pid: nat)
      requires Sound() && i < |programs| && exited == {}
      modifies this`log, programs[i]
      ensures Sound() && programs[i].Value() == StartDue(old(programs[i].Value()), now, pid)
      ensures log == old(log) + if old(programs[i].proc).None? && now >= old(programs[i].due)
                                then [Started(i, pid, now)] else []
    {
      hide Honest, Live, StartTimes, KnownGone;
      var id := world.pid(|log|);
      pid := id;
      assert Agrees(i);
      if programs[i].proc.None? && now >= programs[i].due {
        Note(Started(i, id, now));
        programs[i].Start(now, id);
        forall j | 0 <= j < |programs| ensures Agrees(j) {
          assert j != i ==> programs[j] != programs[i] && old(Agrees(j));
        }
      }
    }

    /** Starts each program that is due, and no other. */
    method StartAll(now: int) returns (ghost pids: seq<nat>)
      requires Sound() && exited == {}
      modifies this`log, programs
      ensures Sound() && |pids| == |programs|
      ensures forall k :: 0 <= k < |programs| ==>
                programs[k].Value() == StartDue(old(programs[k].Value()), now, pids[k])
      ensures log == old(log) + StartEvents(old(Values()), pids, now, |programs|)
    {
      hide Honest, Live, StartTimes, KnownGone, StartDue, Agrees;
      pids := [];
      ghost var before := Values();
      NoStarts(before, now);
      for i := 0 to |programs|
        invariant Sound() && |pids| == i
        invariant forall k :: 0 <= k < i ==> programs[k].Value() == StartDue(before[k], now, pids[k])
        invariant forall k :: i <= k < |programs| ==> programs[k].Value() == before[k]
        invariant log == old(log) + StartEvents(before, pids, now, i)
      {
        ghost var pid := StartOne(i, now);
        OneStart(before, pids, pid, now, i);
        pids := pids + [pid];
      }
    }

    ghost function Values(): (r: seq<Prog>)
      reads this, programs
      ensures |r| == |programs| && forall k :: 0 <= k < |r| ==> r[k] == programs[k].Value()
    {
      seq(|programs|, k requires 0 <= k < |programs| reads programs => programs[k].Value())
    }

    /** Each program has one more tick behind it. */
    ghost method Remember(now: int, gone: seq<bool>, pids: seq<nat>)
      requires Sound() && |ticks| == |gone| == |pids| == |programs|
      modifies this`ticks
      ensures Sound() && |ticks| == |programs|
      ensures forall k :: 0 <= k < |programs| ==> ticks[k] == old(ticks)[k] + [Tick(now, gone[k], pids[k])]
    {
      hide Honest, Live, StartTimes, KnownGone;
      var was := ticks;
      ticks := seq(|programs|, k requires 0 <= k < |programs| => was[k] + [Tick(now, gone[k], pids[k])]);
      forall j | 0 <= j < |programs| ensures Agrees(j) { assert old(Agrees(j)); }
    }

    /** A nap. */
    method Rest()
      requires Sound() && exists longest :: Naps(world, longest)
      modifies this`clock
      ensures Sound() && clock == old(clock) + world.nap(old(clock)) && clock > old(clock)
      ensures forall k :: 0 <= k < |programs| ==> (Down(k) <==> old(Down(k)))
    {
      hide Honest, Live, StartTimes, KnownGone;
      ghost var longest :| Naps(world, longest);
      assert Nap <= world.nap(clock);
      clock := clock + world.nap(clock);
      forall j | 0 <= j < |programs| ensures Agrees(j) { assert old(Agrees(j)); }
    }

    /** One pass of the supervisor: reap, start what is due, nap. The log gains exits, up to `seen`, then the
        starts of what is due; a tick says that a program exited exactly if the log knows it by then. */
    method Pass(ghost longest: int) returns (ghost seen: seq<Event>)
      requires Valid() && Naps(world, longest)
      modifies this`clock, this`exited, this`log, this`ticks, programs
      ensures Valid() && clock == old(clock) + world.nap(old(clock)) && exited == {}
      ensures OnlyExits(old(log), seen) && seen <= log
      ensures forall i :: |seen| <= i < |log| ==> log[i].Started?
      ensures forall k :: 0 <= k < |programs| ==>
                && |ticks[k]| == |old(ticks)[k]| + 1 && old(ticks)[k] < ticks[k]
                && var tick := ticks[k][|old(ticks)[k]|];
                   tick.now == old(clock) && (tick.exited <==> old(programs[k].proc).Some? && Live(seen, k).None?)
    {
      hide Honest, Delay, Live, StartTimes, Follows, KnownGone, Reap, StartDue, StartEvents, Life, Forward, Agrees;
      var now := clock;
      ghost var was := ticks;
      ghost var gone := ReapAll(now);
      seen := log;
      ghost var reaped := Values();
      ghost var pids := StartAll(now);
      StartsOnly(reaped, pids, now, |programs|);
      Remember(now, gone, pids);
      Rest();
      forall k | 0 <= k < |programs|
        ensures programs[k].Value() == Life(programs[k].last, ticks[k]) && Forward(ticks[k])
      {
        TickMore(programs[k].last, was[k], Tick(now, gone[k], pids[k]));
      }
    }

    /** Supervises until the SIGTERM, which arrives in the last of these passes; then shuts down. All along the log
        is honest, so OneProcessAtATime holds of it, and the starts in it are those of the backoff laws. */
    method Run(passes: nat, longest: int)
      requires Valid() && Naps(world, longest)
      modifies this`clock, this`exited, this`log, this`ticks, programs
      ensures Valid() && Honest(world, log) && old(log) <= log
      ensures forall k :: 0 <= k < |programs| ==>
                && |ticks[k]| == |old(ticks)[k]| + passes
                && StartTimes(log, k) == Life(programs[k].last, ticks[k]).starts
      ensures forall k :: 0 <= k < |programs| ==> Down(k) && Live(log, k).None?
    {
      hide Honest, Delay, Live, StartTimes, Follows, KnownGone, Life, Forward;
      for i := 0 to passes
        invariant Valid() && old(log) <= log
        invariant forall k :: 0 <= k < |programs| ==> |ticks[k]| == |old(ticks)[k]| + i
      {
        ghost var seen := Pass(longest);
      }
      Shutdown(longest);
      forall k | 0 <= k < |programs|
        ensures StartTimes(log, k) == Life(programs[k].last, ticks[k]).starts && Live(log, k).None?
      {
        assert Agrees(k) && Down(k);
      }
    }

    // ---- Shutdown ----------------------------------------------------------------------------

    ghost predicate Among(list: seq<nat>)
      reads this
    {
      forall j :: 0 <= j < |list| ==> list[j] < |programs|
    }

    method AnyRunning(list: seq<nat>) returns (any: bool)
      requires Sound() && Among(list)
      modifies this`exited, this`log
      ensures Sound() && OnlyExits(old(log), log) && old(exited) <= exited
      ensures !any ==> forall j :: 0 <= j < |list| ==> Down(list[j])
    {
      any := false;
      var i := 0;
      while i < |list| && !any
        invariant 0 <= i <= |list| && Sound() && OnlyExits(old(log), log) && old(exited) <= exited
        invariant !any ==> forall j :: 0 <= j < i ==> Down(list[j])
      {
        any := Poll(list[i]);
        i := i + 1;
      }
    }

    method NoteTerm(k: nat)
      requires Sound()
      modifies this`log
      ensures Sound() && log == old(log) + [Term(k, clock)]
    {
      hide Honest, Live, StartTimes, KnownGone;
      Note(Term(k, clock));
      forall j | 0 <= j < |programs| ensures Agrees(j) { assert old(Agrees(j)); }
    }

    method TermAll(list: seq<nat>)
      requires Sound() && Among(list)
      modifies this`log
      ensures Sound() && old(log) <= log && |log| == |old(log)| + |list|
      ensures forall j :: 0 <= j < |list| ==> log[|old(log)| + j] == Term(list[j], clock)
    {
      for i := 0 to |list|
        invariant Sound() && old(log) <= log && |log| == |old(log)| + i
        invariant forall j :: 0 <= j < i ==> log[|old(log)| + j] == Term(list[j], clock)
      {
        NoteTerm(list[i]);
      }
    }

    /** Waits until none of the list runs, or the deadline has passed. */
    method Await(list: seq<nat>, deadline: int, ghost longest: int)
      requires Sound() && Among(list) && Naps(world, longest)
      modifies this`clock, this`exited, this`log
      ensures Sound() && OnlyExits(old(log), log) && old(exited) <= exited
      ensures old(clock) <= clock && (clock == old(clock) || clock < deadline + longest)
      ensures clock >= deadline || forall j :: 0 <= j < |list| ==> Down(list[j])
    {
      hide Honest, Live, StartTimes, KnownGone, Agrees;
      var any := AnyRunning(list);
      while any && clock < deadline
        invariant Sound() && OnlyExits(old(log), log) && old(exited) <= exited && old(clock) <= clock
        invariant clock == old(clock) || clock < deadline + longest
        invariant !any ==> forall j :: 0 <= j < |list| ==> Down(list[j])
        decreases deadline - clock, any
      {
        assert Nap <= world.nap(clock) <= longest;
        Rest();
        any := AnyRunning(list);
      }
    }

    /** SIGKILL, and the wait for the end of the process. */
    method End(k: nat)
      requires Sound() && k < |programs| && !Down(k)
      modifies this`exited, this`log
      ensures Sound() && Down(k) && exited == old(exited) + {k}
      ensures log == old(log) + [Kill(k, clock)] + [Gone(k, programs[k].proc.value, clock)]
    {
      hide Honest, KnownGone, Live, StartTimes;
      assert Agrees(k);
      Note(Kill(k, clock));
      Note(Gone(k, programs[k].proc.value, clock));
      exited := exited + {k};
      forall j | 0 <= j < |programs| ensures Agrees(j) { assert old(Agrees(j)); }
    }

    /** SIGKILL for a program that still runs. */
    method KillOne(k: nat)
      requires Sound() && k < |programs|
      modifies this`exited, this`log
      ensures Sound() && Down(k) && old(log) <= log && old(exited) <= exited
      ensures forall i :: |old(log)| <= i < |log| ==> log[i].Gone? || log[i] == Kill(k, clock)
      ensures old(Down(k)) ==> log == old(log)
    {
      hide Honest, KnownGone, Live, StartTimes, Agrees;
      var running := Poll(k);
      if running { End(k); }
    }

    /** SIGKILL ends what still runs, and the supervisor waits for it. */
    method KillAll(list: seq<nat>)
      requires Sound() && Among(list)
      modifies this`exited, this`log
      ensures Sound() && old(log) <= log && old(exited) <= exited
      ensures forall j :: 0 <= j < |list| ==> Down(list[j])
      ensures forall i :: |old(log)| <= i < |log| ==> log[i].Gone? || (log[i].Kill? && log[i].program in list && log[i].time == clock)
      ensures (forall j :: 0 <= j < |list| ==> old(Down(list[j]))) ==> log == old(log)
    {
      hide Honest, KnownGone, Live, StartTimes, Agrees;
      for i := 0 to |list|
        invariant Sound() && old(log) <= log && old(exited) <= exited
        invariant forall j :: 0 <= j < i ==> Down(list[j])
        invariant forall h :: |old(log)| <= h < |log| ==>
                    log[h].Gone? || (log[h].Kill? && log[h].program in list && log[h].time == clock)
        invariant (forall j :: 0 <= j < |list| ==> old(Down(list[j]))) ==> log == old(log)
      {
        var k := list[i];
        assert k in list;
        KillOne(k);
      }
    }

    /** SIGTERM to each program of the list, and SIGKILL to each that outlives the grace. */
    method StopAll(list: seq<nat>, wait: nat, ghost longest: int)
      requires Sound() && Among(list) && Naps(world, longest)
      modifies this`clock, this`exited, this`log
      ensures Sound() && StoppedIn(old(log), log, list, old(clock), wait)
      ensures (forall j :: 0 <= j < |list| ==> Down(list[j])) && old(exited) <= exited
      ensures old(clock) <= clock && (clock == old(clock) || clock < old(clock) + wait + longest)
    {
      TermAll(list);
      var deadline := clock + wait;
      ghost var sent := log;
      Await(list, deadline, longest);
      ghost var waited := log;
      KillAll(list);
    }

    /** The programs that run, of those that stop last or of the others. */
    method RunningOnes(last: bool) returns (list: seq<nat>)
      requires Sound()
      modifies this`exited, this`log
      ensures Sound() && OnlyExits(old(log), log) && old(exited) <= exited && Among(list)
      ensures forall j :: 0 <= j < |list| ==> list[j] < |programs| && programs[list[j]].last == last
      ensures forall k :: 0 <= k < |programs| && programs[k].last == last && k !in list ==> Down(k)
    {
      list := [];
      for i := 0 to |programs|
        invariant Sound() && OnlyExits(old(log), log) && old(exited) <= exited
        invariant forall j :: 0 <= j < |list| ==> list[j] < i && programs[list[j]].last == last
        invariant forall k :: 0 <= k < i && programs[k].last == last && k !in list ==> Down(k)
      {
        var running := Poll(i);
        if running && programs[i].last == last { list := list + [i]; }
      }
    }

    /** The exit of every worker is known. */
    ghost predicate WorkersDown(log: seq<Event>)
      reads this, programs
    {
      forall k :: 0 <= k < |programs| && !programs[k].last && programs[k].proc.Some? ==>
        KnownGone(log, k, programs[k].proc.value)
    }

    /** Stops the workers, then the programs that serve them. Nothing is started, nothing runs at the end, the
        others get no signal before the exit of every worker is known, SIGKILL goes only to what outlived
        its grace, and the whole takes no longer than both graces and a nap for each. */
    method Shutdown(ghost longest: int)
      requires Sound() && Naps(world, longest)
      modifies this`clock, this`exited, this`log
      ensures Sound() && old(log) <= log && old(clock) <= clock
      ensures forall k :: 0 <= k < |programs| ==> Down(k)
      ensures forall i :: |old(log)| <= i < |log| ==> !log[i].Started?
      ensures forall i :: |old(log)| <= i < |log| && Signals(log[i]) ==>
                && log[i].program < |programs|
                && (programs[log[i].program].last ==> WorkersDown(log[..i]))
                && (log[i].Kill? ==>
                      OutlivedGrace(log, |old(log)|, i, if programs[log[i].program].last then 5_000 else grace))
      ensures clock <= old(clock) + grace + 5_000 + 2 * longest
    {
      var workers := RunningOnes(false);
      ghost var log1, begun := log, clock;
      StopAll(workers, grace, longest);
      assert forall k :: 0 <= k < |programs| && !programs[k].last ==> Down(k) by {
        forall k | 0 <= k < |programs| && !programs[k].last ensures Down(k) {
          if k in workers { var j :| 0 <= j < |workers| && workers[j] == k; assert Down(workers[j]); }
        }
      }
      ghost var log2 := log;
      var relays := RunningOnes(true);
      ghost var log3, relayed := log, clock;
      assert Nap <= world.nap(clock) <= longest;
      StopAll(relays, RelayGrace, longest);
      ShutdownLog(old(log), log1, log2, log3, log, workers, relays, begun, relayed, grace, RelayGrace);
      forall i | |log2| <= i < |log| ensures WorkersDown(log[..i]) {
        forall k | 0 <= k < |programs| && !programs[k].last && programs[k].proc.Some?
          ensures KnownGone(log[..i], k, programs[k].proc.value)
        {
          KnownGoneMore(log2, log[..i], k, programs[k].proc.value);
        }
      }
    }
  }

  predicate Signals(e: Event) { e.Term? || e.Kill? }

  /** All that was logged in between are exits. */
  ghost predicate OnlyExits(before: seq<Event>, log: seq<Event>) {
    before <= log && forall i :: |before| <= i < |log| ==> log[i].Gone?
  }

  /** The SIGKILL at i comes at least the grace after a SIGTERM to the same program. */
  ghost predicate OutlivedGrace(log: seq<Event>, from: nat, i: nat, wait: nat)
    requires i < |log| && log[i].Kill?
  {
    exists h :: from <= h < i && log[h].Term? && log[h].program == log[i].program && log[i].time >= log[h].time + wait
  }

  /** What stop_all logs: SIGTERM to each of the list at once, then exits, and SIGKILLs once the grace has passed. */
  ghost predicate StoppedIn(before: seq<Event>, log: seq<Event>, list: seq<nat>, start: int, wait: nat) {
    && before <= log && |before| + |list| <= |log|
    && (forall j :: 0 <= j < |list| ==> log[|before| + j] == Term(list[j], start))
    && (forall i :: |before| + |list| <= i < |log| ==>
          log[i].Gone? || (log[i].Kill? && log[i].program in list && log[i].time >= start + wait))
  }

  lemma KnownGoneMore(log: seq<Event>, more: seq<Event>, k: nat, pid: nat)
    requires KnownGone(log, k, pid) && log <= more
    ensures KnownGone(more, k, pid)
  {
    var i :| 0 <= i < |log| && log[i].Gone? && log[i].program == k && log[i].pid == pid;
    assert more[i] == log[i];
  }

  ghost predicate StopEvent(log: seq<Event>, from: nat, i: nat, list: seq<nat>, wait: nat)
    requires i < |log|
  {
    Signals(log[i]) && log[i].program in list && (log[i].Kill? ==> OutlivedGrace(log, from, i, wait))
  }

  /** The log of a shutdown: exits, the workers' signals, exits, the others' signals. */
  lemma ShutdownLog(l0: seq<Event>, l1: seq<Event>, l2: seq<Event>, l3: seq<Event>, log: seq<Event>,
                    workers: seq<nat>, others: seq<nat>, begun: int, again: int, wait: nat, wait': nat)
    requires OnlyExits(l0, l1) && StoppedIn(l1, l2, workers, begun, wait)
    requires OnlyExits(l2, l3) && StoppedIn(l3, log, others, again, wait')
    ensures l0 <= log && l2 <= log
    ensures forall i :: |l0| <= i < |log| && !log[i].Gone? ==>
              (i < |l2| && StopEvent(log, |l0|, i, workers, wait)) || (|l3| <= i && StopEvent(log, |l0|, i, others, wait'))
  {
    forall i | |l0| <= i < |log| && !log[i].Gone?
      ensures (i < |l2| && StopEvent(log, |l0|, i, workers, wait)) || (|l3| <= i && StopEvent(log, |l0|, i, others, wait'))
    {
      if i < |l2| {
        assert log[i] == l2[i];
        StopEventIn(l1, l2, log, |l0|, workers, begun, wait, i);
      } else {
        StopEventIn(l3, log, log, |l0|, others, again, wait', i);
      }
    }
  }

  lemma StopEventIn(before: seq<Event>, after: seq<Event>, log: seq<Event>, from: nat, list: seq<nat>, start: int,
                    wait: nat, i: nat)
    requires StoppedIn(before, after, list, start, wait) && after <= log && from <= |before|
    requires |before| <= i < |after| && !after[i].Gone?
    ensures StopEvent(log, from, i, list, wait)
  {
    assert log[i] == after[i];
    if i < |before| + |list| {
      assert after[|before| + (i - |before|)] == Term(list[i - |before|], start);
    } else {
      var j :| 0 <= j < |list| && list[j] == after[i].program;
      assert after[|before| + j] == Term(list[j], start) && log[|before| + j] == after[|before| + j];
    }
  }

  lemma {:induction false} StartsOnly(before: seq<Prog>, pids: seq<nat>, now: int, n: nat)
    requires n <= |before| && n <= |pids|
    ensures forall e <- StartEvents(before, pids, now, n) :: e.Started?
    decreases n
  {
    if n > 0 { StartsOnly(before, pids, now, n - 1); }
  }

  lemma TickMore(last: bool, ticks: seq<Tick>, tick: Tick)
    ensures Life(last, ticks + [tick]) == StartDue(Reap(Life(last, ticks), tick.now, tick.exited), tick.now, tick.pid)
    ensures Forward(ticks) && 0 <= tick.now && (ticks != [] ==> ticks[|ticks| - 1].now <= tick.now) ==>
              Forward(ticks + [tick])
  {
    assert (ticks + [tick])[..|ticks|] == ticks;
  }

  lemma NoStarts(before: seq<Prog>, now: int)
    ensures StartEvents(before, [], now, 0) == []
  {
  }

  lemma OneStart(before: seq<Prog>, pids: seq<nat>, pid: nat, now: int, n: nat)
    requires n < |before| && n == |pids|
    ensures StartEvents(before, pids + [pid], now, n + 1)
      == StartEvents(before, pids, now, n)
         + if before[n].proc.None? && now >= before[n].due then [Started(n, pid, now)] else []
  {
    SameStarts(before, pids, pids + [pid], now, n);
  }

  lemma {:induction false} SameStarts(before: seq<Prog>, pids: seq<nat>, more: seq<nat>, now: int, n: nat)
    requires n <= |before| && n <= |pids| && pids <= more
    ensures StartEvents(before, pids, now, n) == StartEvents(before, more, now, n)
    decreases n
  {
    if n > 0 { SameStarts(before, pids, more, now, n - 1); }
  }
}
