/** The restarts of one program of the worker container, over any number of ticks of the supervisor. */
module Backoff {
  import opened Values

  // Times in milliseconds
  const RapidExit := 10_000
  const MaxDelay := 60_000
  const Second := 1_000

  function Pow2(n: nat): (r: nat)
    ensures r > 0
  {
    if n == 0 then 1 else 2 * Pow2(n - 1)
  }

  function Min(a: int, b: int): int { if a < b then a else b }

  /** The restart delay after this many rapid exits in a row. */
  function Delay(failures: nat): nat {
    if failures == 0 then 0 else Min(Pow2(failures - 1) * Second, MaxDelay)
  }

  /** A program: its live process, its last start, its rapid exits in a row and when it is due again. The times
      of all its starts, and which of its exits were rapid, are history. */
  datatype Prog = Prog(last: bool, proc: Option<nat>, started: int, failures: nat, due: int,
                       starts: seq<int>, rapid: seq<bool>)

  /** Schedules the restart of a program whose process exited. */
  function Reap(p: Prog, now: int, exited: bool): Prog {
    if p.proc.None? || !exited then p else
      var rapid := now - p.started < RapidExit;
      var failures := if rapid then p.failures + 1 else 0;
      p.(proc := None, failures := failures, due := now + Delay(failures), rapid := p.rapid + [rapid])
  }

  function StartDue(p: Prog, now: int, pid: nat): Prog {
    if p.proc.None? && now >= p.due then p.(proc := Some(pid), started := now, starts := p.starts + [now]) else p
  }

  /** What happens at a tick: its time, whether the process exited since the last, and the ID a start would get. */
  datatype Tick = Tick(now: int, exited: bool, pid: nat)

  function Ticked(p: Prog, tick: Tick): Prog { StartDue(Reap(p, tick.now, tick.exited), tick.now, tick.pid) }

  function New(last: bool): Prog { Prog(last, None, 0, 0, 0, [], []) }

  function Life(last: bool, ticks: seq<Tick>): Prog {
    if ticks == [] then New(last) else Ticked(Life(last, ticks[..|ticks| - 1]), ticks[|ticks| - 1])
  }

  /** The clock does not go back. */
  ghost predicate Forward(ticks: seq<Tick>) {
    forall i, j :: 0 <= i <= j < |ticks| ==> 0 <= ticks[i].now <= ticks[j].now
  }

  /** How many of the last exits, counted back from the end, were rapid. */
  function Trailing(rapid: seq<bool>): nat {
    if rapid == [] || !rapid[|rapid| - 1] then 0 else Trailing(rapid[..|rapid| - 1]) + 1
  }

  /** The last n exits were rapid, and the one before them was not. */
  lemma {:induction false} TrailingMeans(rapid: seq<bool>)
    ensures var n := Trailing(rapid);
      && n <= |rapid| && (forall i :: |rapid| - n <= i < |rapid| ==> rapid[i])
      && (n < |rapid| ==> !rapid[|rapid| - n - 1])
    decreases rapid
  {
    if rapid != [] && rapid[|rapid| - 1] { TrailingMeans(rapid[..|rapid| - 1]); }
  }

  /** The least time that n rapid exits in a row take. */
  function Total(n: nat): nat { if n == 0 then 0 else Total(n - 1) + Delay(n) }

  /** What the starts of a program keep. */
  ghost predicate Spaced(p: Prog, now: int) {
    && p.failures == Trailing(p.rapid)
    && |p.rapid| == (if p.proc.Some? then |p.starts| - 1 else |p.starts|)
    && (forall i :: 0 <= i < |p.starts| - 1 ==> p.starts[i + 1] - p.starts[i] >= Second)
    && p.failures <= |p.rapid|
    && (p.starts != [] ==> p.started == p.starts[|p.starts| - 1] <= now)
    && (p.starts == [] ==> p.failures == 0)
    && (if p.proc.Some? then
          p.started - p.starts[|p.starts| - 1 - p.failures] >= Total(p.failures)
        else
          && (p.starts != [] ==> p.due - p.started >= Second)
          && (p.failures > 0 ==> p.due - p.starts[|p.starts| - p.failures] >= Total(p.failures)))
  }

  lemma DelayAtLeast(n: nat)
    requires n > 0
    ensures Delay(n) >= Second
  {
  }

  lemma TickSpaces(p: Prog, tick: Tick, before: int)
    requires Spaced(p, before) && before <= tick.now
    ensures Spaced(Ticked(p, tick), tick.now)
  {
    ReapSpaces(p, tick.now, tick.exited);
    StartSpaces(Reap(p, tick.now, tick.exited), tick.now, tick.pid);
  }

  lemma ReapSpaces(p: Prog, now: int, exited: bool)
    requires exists before :: before <= now && Spaced(p, before)
    ensures Spaced(Reap(p, now, exited), now)
  {
    if p.proc.Some? && exited {
      var rapid := now - p.started < RapidExit;
      assert (p.rapid + [rapid])[..|p.rapid|] == p.rapid;
      if rapid { DelayAtLeast(p.failures + 1); }
    }
  }

  lemma StartSpaces(p: Prog, now: int, pid: nat)
    requires Spaced(p, now)
    ensures Spaced(StartDue(p, now, pid), now)
  {
  }

  lemma {:induction false} LifeSpaced(last: bool, ticks: seq<Tick>)
    requires Forward(ticks)
    ensures Spaced(Life(last, ticks), if ticks == [] then 0 else ticks[|ticks| - 1].now)
    decreases ticks
  {
    if ticks != [] {
      var init := ticks[..|ticks| - 1];
      LifeSpaced(last, init);
      assert init != [] ==> init[|init| - 1] == ticks[|ticks| - 2];
      TickSpaces(Life(last, init), ticks[|ticks| - 1], if init == [] then 0 else init[|init| - 1].now);
    }
  }

  /** The delays add up: 1 + 2 + 4 + ... seconds, each at most 60. */
  lemma {:induction false} Totals(n: nat)
    ensures Total(n) == (if n <= 6 then (Pow2(n) - 1) * Second else (63 + 60 * (n - 6)) * Second)
    decreases n
  {
    if n > 0 {
      Totals(n - 1);
      if n > 6 { Pow2Grows(n - 1); } else { PowersOfTwo(); }
    }
  }

  lemma PowersOfTwo()
    ensures Pow2(0) == 1 && Pow2(1) == 2 && Pow2(2) == 4 && Pow2(3) == 8 && Pow2(4) == 16 && Pow2(5) == 32
    ensures Pow2(6) == 64
  {
    assert Pow2(1) == 2 && Pow2(2) == 4 && Pow2(3) == 8;
  }

  lemma {:induction false} Pow2Grows(n: nat)
    requires n >= 6
    ensures Pow2(n) >= 64
    decreases n
  {
    if n == 6 { PowersOfTwo(); } else { Pow2Grows(n - 1); }
  }

  /** Restart backoff over whole runs, whenever the processes exit: successive starts are at least a second
      apart, and a start after n rapid exits in a row comes at least 2^n - 1 seconds after the first of them for
      n up to 6, and 63 + 60(n - 6) seconds beyond. */
  lemma StartsAreSpaced(last: bool, ticks: seq<Tick>)
    requires Forward(ticks)
    ensures var p := Life(last, ticks); var n := Trailing(p.rapid);
      && (forall i :: 0 <= i < |p.starts| - 1 ==> p.starts[i + 1] - p.starts[i] >= Second)
      && (p.proc.Some? ==>
            && n < |p.starts| == |p.rapid| + 1
            && p.starts[|p.starts| - 1] - p.starts[|p.starts| - 1 - n]
                 >= if n <= 6 then (Pow2(n) - 1) * Second else (63 + 60 * (n - 6)) * Second)
  {
    LifeSpaced(last, ticks);
    Totals(Trailing(Life(last, ticks).rapid));
  }

  /** The seconds that a program waits after this many rapid exits in a row, the last entry after any more. */
  const Waits: seq<nat> := [0, 1, 2, 4, 8, 16, 32, 60]

  function Wait(rapidExits: nat): nat { Waits[if rapidExits < 7 then rapidExits else 7] * 1_000 }

  lemma DelayIs(n: nat)
    ensures Delay(n) == Wait(n)
  {
    PowersOfTwo();
    if n >= 7 { Pow2Grows(n - 1); }
  }

  lemma {:induction false} NotDue(p: Prog, ticks: seq<Tick>, n: nat)
    requires p.proc.None? && n <= |ticks| && forall i :: 0 <= i < n ==> ticks[i].now < p.due
    ensures Onwards(p, ticks[..n]) == p
    decreases n
  {
    if n > 0 {
      NotDue(p, ticks, n - 1);
      assert ticks[..n][..n - 1] == ticks[..n - 1];
    }
  }

  /** A program after more ticks. */
  function Onwards(p: Prog, ticks: seq<Tick>): Prog {
    if ticks == [] then p else Ticked(Onwards(p, ticks[..|ticks| - 1]), ticks[|ticks| - 1])
  }

  lemma {:induction false} LifeGoesOn(last: bool, ticks: seq<Tick>, more: seq<Tick>)
    ensures Life(last, ticks + more) == Onwards(Life(last, ticks), more)
    decreases more
  {
    if more == [] {
      assert ticks + more == ticks;
    } else {
      assert (ticks + more)[..|ticks + more| - 1] == ticks + more[..|more| - 1];
      LifeGoesOn(last, ticks, more[..|more| - 1]);
    }
  }

  /** The rapid exits in a row of a program whose process the tick finds gone; an exit is rapid within ten seconds
      of the start. */
  function RapidAt(p: Prog, tick: Tick): nat { Trailing(p.rapid + [tick.now - p.started < 10_000]) }

  lemma ReapIs(p: Prog, tick: Tick, before: int)
    requires Spaced(p, before) && before <= tick.now && p.proc.Some? && tick.exited
    ensures var reaped := Reap(p, tick.now, tick.exited);
      && reaped.proc.None? && reaped.starts == p.starts && reaped.due == tick.now + Wait(RapidAt(p, tick))
      && Ticked(p, tick) == StartDue(reaped, tick.now, tick.pid)
  {
    hide Delay, Wait;
    var rapid := p.rapid + [tick.now - p.started < 10_000];
    assert rapid[..|p.rapid|] == p.rapid;
    DelayIs(RapidAt(p, tick));
  }

  /** Nothing starts before it is due, and what is due starts. */
  lemma DueAtLast(p: Prog, ticks: seq<Tick>)
    requires ticks != [] && p.proc.None? && forall i :: 0 <= i < |ticks| - 1 ==> ticks[i].now < p.due
    ensures Onwards(p, ticks) == StartDue(p, ticks[|ticks| - 1].now, ticks[|ticks| - 1].pid)
  {
    NotDue(p, ticks, |ticks| - 1);
  }

  lemma LifeFrom(last: bool, ticks: seq<Tick>, k: nat)
    requires k < |ticks|
    ensures Life(last, ticks) == Onwards(Ticked(Life(last, ticks[..k]), ticks[k]), ticks[k + 1..])
  {
    hide Ticked;
    assert ticks[..k + 1][..k] == ticks[..k];
    assert ticks == ticks[..k + 1] + ticks[k + 1..];
    LifeGoesOn(last, ticks[..k + 1], ticks[k + 1..]);
  }

  /** When a program that exited starts again: at the first tick that is so long after the tick that found the exit
      as the number of its rapid exits in a row says, at once when the last one was not rapid, and not before. */
  lemma RestartsOnTime(last: bool, ticks: seq<Tick>, k: nat)
    requires Forward(ticks) && k < |ticks|
    requires Life(last, ticks[..k]).proc.Some? && ticks[k].exited
    requires var due := ticks[k].now + Wait(RapidAt(Life(last, ticks[..k]), ticks[k]));
      forall i :: k <= i < |ticks| - 1 ==> ticks[i].now < due
    ensures var before, after := Life(last, ticks[..k]), Life(last, ticks);
      var due, tick := ticks[k].now + Wait(RapidAt(before, ticks[k])), ticks[|ticks| - 1];
      if tick.now >= due then after.starts == before.starts + [tick.now] && after.proc == Some(tick.pid)
      else after.starts == before.starts && after.proc.None?
  {
    hide Reap, Wait, RapidAt, Spaced, Trailing, Ticked, Life, Onwards, Forward;
    var before, tick := Life(last, ticks[..k]), ticks[k];
    SpacedBefore(last, ticks, k);
    ReapIs(before, tick, if k == 0 then 0 else ticks[k - 1].now);
    LifeFrom(last, ticks, k);
    var reaped := Reap(before, tick.now, true);
    if k == |ticks| - 1 {
      NoMore(Ticked(before, tick));
      assert ticks[k + 1..] == [];
    } else {
      assert tick.now < reaped.due && StartDue(reaped, tick.now, tick.pid) == reaped;
      DueAtLast(reaped, ticks[k + 1..]);
    }
  }

  lemma SpacedBefore(last: bool, ticks: seq<Tick>, k: nat)
    requires Forward(ticks) && k < |ticks|
    ensures var before := if k == 0 then 0 else ticks[k - 1].now;
      Spaced(Life(last, ticks[..k]), before) && before <= ticks[k].now
  {
    hide Spaced, Life;
    LifeSpaced(last, ticks[..k]);
  }

  lemma NoMore(p: Prog)
    ensures Onwards(p, []) == p
  {
  }
}
