/** The record of configure runs, and the gate that pods wait at. */
module ConfiguredRuns {

  /** What a configure run was for: the image's version and the checksum of its configuration, "" when unknown. */
  datatype Run = Run(version: string, checksum: string)

  const KEEP: nat := 10

  /** A recorded run is the one a pod waits for; a value that the pod does not know may be any. */
  predicate Serves(run: Run, wanted: Run) {
    && (wanted.version != "" ==> run.version == wanted.version)
    && (wanted.checksum != "" ==> run.checksum == wanted.checksum)
  }

  /** Some recorded run is the one a pod waits for. */
  predicate Open(row: seq<Run>, wanted: Run) { exists run <- row :: Serves(run, wanted) }

  function Without(runs: seq<Run>, run: Run): (r: seq<Run>)
    ensures run !in r
    ensures forall x :: x in r <==> x in runs && x != run
  {
    if runs == [] then [] else
      var init := Without(runs[..|runs| - 1], run);
      if runs[|runs| - 1] == run then init else init + [runs[|runs| - 1]]
  }

  function LastOf(n: nat, runs: seq<Run>): (r: seq<Run>)
    ensures |r| == if |runs| < n then |runs| else n
  {
    if |runs| <= n then runs else runs[|runs| - n..]
  }

  /** The row after one more run finished. */
  function Recorded(row: seq<Run>, run: Run): seq<Run> { LastOf(KEEP, Without(row, run) + [run]) }

  /** The row after these runs, oldest first, since it was last cleared. */
  function RowOf(history: seq<Run>): seq<Run> {
    if history == [] then [] else Recorded(RowOf(history[..|history| - 1]), history[|history| - 1])
  }

  // ---- The row and the whole history ---------------------------------------------------------

  /** The distinct runs of a history, ordered by their last occurrence. */
  function Latest(history: seq<Run>): (r: seq<Run>)
    ensures forall x :: x in r <==> x in history
  {
    if history == [] then [] else
      var last := history[|history| - 1];
      Without(Latest(history[..|history| - 1]), last) + [last]
  }

  /** The distinct runs that came after the last occurrence of `run`. */
  function After(history: seq<Run>, run: Run): set<Run> {
    if history == [] || history[|history| - 1] == run then {} else
      After(history[..|history| - 1], run) + {history[|history| - 1]}
  }

  ghost predicate Once(runs: seq<Run>) { forall i, j :: 0 <= i < j < |runs| ==> runs[i] != runs[j] }

  lemma {:induction false} WithoutFrom(runs: seq<Run>, run: Run, k: nat)
    requires k <= |runs| && run !in runs[..k]
    ensures Without(runs, run) == runs[..k] + Without(runs[k..], run)
    decreases |runs|
  {
    if k == |runs| {
      assert runs[..k] == runs;
      Absent(runs, run);
    } else {
      var init, last := runs[..|runs| - 1], runs[|runs| - 1];
      assert init[..k] == runs[..k] && runs[k..][..|runs[k..]| - 1] == init[k..];
      WithoutFrom(init, run, k);
    }
  }

  lemma {:induction false} Absent(runs: seq<Run>, run: Run)
    requires run !in runs
    ensures Without(runs, run) == runs
    decreases runs
  {
    if runs != [] { Absent(runs[..|runs| - 1], run); }
  }

  lemma LastIsNew(runs: seq<Run>)
    requires Once(runs) && runs != []
    ensures var init := runs[..|runs| - 1]; Once(init) && runs[|runs| - 1] !in init
  {
  }

  lemma OnceMore(runs: seq<Run>, run: Run)
    requires Once(runs) && run !in runs
    ensures Once(runs + [run])
  {
  }

  lemma {:induction false} WithoutKeepsOnce(runs: seq<Run>, run: Run)
    requires Once(runs)
    ensures Once(Without(runs, run))
    ensures |runs| - 1 <= |Without(runs, run)| <= |runs|
    decreases runs
  {
    if runs != [] {
      var init, last := runs[..|runs| - 1], runs[|runs| - 1];
      WithoutKeepsOnce(init, run);
      LastIsNew(runs);
      if last == run {
        Absent(init, run);
      } else {
        OnceMore(Without(init, run), last);
      }
    }
  }

  lemma {:induction false} LatestOnce(history: seq<Run>)
    ensures Once(Latest(history))
    decreases history
  {
    if history != [] {
      LatestOnce(history[..|history| - 1]);
      WithoutKeepsOnce(Latest(history[..|history| - 1]), history[|history| - 1]);
    }
  }

  /** Dropping the oldest runs and moving one to the end commute. */
  lemma TrimThenMove(runs: seq<Run>, run: Run)
    requires Once(runs)
    ensures LastOf(KEEP, Without(LastOf(KEEP, runs), run) + [run]) == LastOf(KEEP, Without(runs, run) + [run])
  {
    hide Without;
    if |runs| > KEEP {
      var k := |runs| - KEEP;
      if run in runs[..k] { MovedFromBefore(runs, run, k); } else { MovedFromWithin(runs, run, k); }
    }
  }

  lemma MovedFromBefore(runs: seq<Run>, run: Run, k: nat)
    requires Once(runs) && k == |runs| - KEEP && run in runs[..k]
    ensures LastOf(KEEP, Without(runs[k..], run) + [run]) == LastOf(KEEP, Without(runs, run) + [run])
  {
    hide Without;
    var i :| 0 <= i < k && runs[i] == run;
    Absent(runs[k..], run);
    WithoutTail(runs, run, k);
    LastOfMore(Without(runs[..k], run), runs[k..] + [run]);
    assert Without(runs, run) + [run] == Without(runs[..k], run) + (runs[k..] + [run]);
  }

  lemma MovedFromWithin(runs: seq<Run>, run: Run, k: nat)
    requires Once(runs) && k == |runs| - KEEP && run !in runs[..k]
    ensures LastOf(KEEP, Without(runs[k..], run) + [run]) == LastOf(KEEP, Without(runs, run) + [run])
  {
    hide Without;
    WithoutFrom(runs, run, k);
    WithoutKeepsOnce(runs[k..], run);
    LastOfMore(runs[..k], Without(runs[k..], run) + [run]);
    assert Without(runs, run) + [run] == runs[..k] + (Without(runs[k..], run) + [run]);
  }

  lemma LastOfMore(before: seq<Run>, runs: seq<Run>)
    requires |runs| >= KEEP
    ensures LastOf(KEEP, before + runs) == LastOf(KEEP, runs)
  {
  }

  lemma {:induction false} WithoutTail(runs: seq<Run>, run: Run, k: nat)
    requires k <= |runs| && run !in runs[k..]
    ensures Without(runs, run) == Without(runs[..k], run) + runs[k..]
    decreases |runs|
  {
    if k == |runs| {
      assert runs[..k] == runs;
    } else {
      var init, last := runs[..|runs| - 1], runs[|runs| - 1];
      assert last == runs[k..][|runs[k..]| - 1];
      assert init[..k] == runs[..k] && runs[k..] == init[k..] + [last];
      WithoutTail(init, run, k);
    }
  }

  /** The bounded row is what the full history would give: its last ten distinct runs. */
  lemma {:induction false} RowIsLastTen(history: seq<Run>)
    ensures RowOf(history) == LastOf(10, Latest(history))
    decreases history
  {
    if history != [] {
      var init := history[..|history| - 1];
      RowIsLastTen(init);
      LatestOnce(init);
      TrimThenMove(Latest(init), history[|history| - 1]);
    }
  }

  lemma {:induction false} AfterWithout(runs: seq<Run>, run: Run, x: Run)
    requires x != run
    ensures After(Without(runs, run), x) == After(runs, x) - {run}
    decreases runs
  {
    if runs != [] {
      var init, last := runs[..|runs| - 1], runs[|runs| - 1];
      AfterWithout(init, run, x);
      assert last != run ==> Without(runs, run)[..|Without(runs, run)| - 1] == Without(init, run);
    }
  }

  lemma {:induction false} AfterLatest(history: seq<Run>, x: Run)
    ensures After(Latest(history), x) == After(history, x)
    decreases history
  {
    if history != [] {
      var init, last := history[..|history| - 1], history[|history| - 1];
      assert Latest(history)[..|Latest(history)| - 1] == Without(Latest(init), last);
      if x != last {
        AfterWithout(Latest(init), last, x);
        AfterLatest(init, x);
      }
    }
  }

  lemma {:induction false} AfterWithin(runs: seq<Run>, x: Run)
    ensures forall y <- After(runs, x) :: y in runs
    decreases runs
  {
    if runs != [] { AfterWithin(runs[..|runs| - 1], x); }
  }

  lemma {:induction false} PlaceInLast(n: nat, runs: seq<Run>, x: Run)
    requires Once(runs) && x in runs
    ensures x in LastOf(n, runs) <==> |After(runs, x)| < n
    decreases runs
  {
    var init, last := runs[..|runs| - 1], runs[|runs| - 1];
    LastIsNew(runs);
    if n > 0 {
      assert LastOf(n, runs) == LastOf(n - 1, init) + [last];
      if x != last {
        PlaceInLast(n - 1, init, x);
        AfterWithin(init, x);
        assert After(runs, x) == After(init, x) + {last} && last !in After(init, x);
      } else {
        assert last in LastOf(n, runs) && After(runs, x) == {};
      }
    } else {
      assert LastOf(n, runs) == [];
    }
  }

  /** A run is in the row if and only if it was recorded since the row was cleared, and fewer than ten other
      runs came after it. */
  lemma InRow(history: seq<Run>, run: Run)
    ensures run in RowOf(history) <==> run in history && |After(history, run)| < 10
  {
    RowIsLastTen(history);
    if run in history {
      LatestOnce(history);
      AfterLatest(history, run);
      PlaceInLast(KEEP, Latest(history), run);
    } else {
      assert run !in Latest(history);
    }
  }

  /** The runs after the last occurrence of `run` are those that still come when it comes no more. */
  lemma {:induction false} AfterMeans(history: seq<Run>, run: Run, x: Run)
    ensures x in After(history, run) <==> exists i :: 0 <= i < |history| && history[i] == x && run !in history[i..]
    decreases history
  {
    if history != [] {
      var init, last := history[..|history| - 1], history[|history| - 1];
      AfterMeans(init, run, x);
      forall i | 0 <= i < |init| ensures history[i..] == init[i..] + [last] && history[i] == init[i] {}
      assert history[|init|..] == [last];
    }
  }

  /** The gate of a pod opens if and only if some run that has the pod's version, if it knows one, and the pod's
      checksum, if it knows one, was recorded since the row was cleared with fewer than ten other runs after it. */
  lemma GateOpens(history: seq<Run>, wanted: Run)
    ensures Open(RowOf(history), wanted) <==>
            exists run <- history ::
              && (wanted.version == "" || run.version == wanted.version)
              && (wanted.checksum == "" || run.checksum == wanted.checksum)
              && |After(history, run)| < 10
  {
    hide RowOf, After;
    forall run ensures run in RowOf(history) <==> run in history && |After(history, run)| < 10 { InRow(history, run); }
  }

  // ---- The row and the wait, as db.py runs them ----------------------------------------------

  /** The system_settings row of one database; None is a missing row. */
  class SettingsRow {
    var row: seq<Run>
    ghost var history: seq<Run>

    ghost predicate Valid()
      reads this
    {
      row == RowOf(history)
    }

    constructor ()
      ensures Valid() && history == []
    {
      row, history := [], [];
    }

    /** Records that a configure run finished. */
    method RecordConfigured(run: Run)
      requires Valid()
      modifies this
      ensures Valid() && history == old(history) + [run]
    {
      var runs: seq<Run> := [];
      for i := 0 to |row|
        invariant row == old(row) && runs == Without(row[..i], run)
      {
        assert row[..i + 1][..i] == row[..i];
        if row[i] != run { runs := runs + [row[i]]; }
      }
      assert row[..|row|] == row;
      runs := runs + [run];
      row := if |runs| <= KEEP then runs else runs[|runs| - KEEP..];
      history := history + [run];
      assert history[..|history| - 1] == old(history);
    }

    /** Forgets every configure run. */
    method ClearConfigured()
      modifies this
      ensures Valid() && history == []
    {
      row, history := [], [];
    }
  }

  /** Waits for a configure run of this image and this configuration: `rows(i)` is the row as the i-th look
      finds it. Returns how many looks it took, or that the process exits 1. */
  method WaitForConfigure(wanted: Run, rows: nat -> seq<Run>, retries: nat) returns (looks: nat, ok: bool)
    ensures ok <==> exists i :: 0 <= i < retries && Open(rows(i), wanted)
    ensures ok ==> 0 < looks <= retries && Open(rows(looks - 1), wanted)
    ensures forall i :: 0 <= i < looks - 1 ==> !Open(rows(i), wanted)
    ensures !ok ==> looks == retries
  {
    looks, ok := 0, false;
    while looks < retries && !ok
      invariant looks <= retries
      invariant ok ==> 0 < looks && Open(rows(looks - 1), wanted)
      invariant forall i :: 0 <= i < (if ok then looks - 1 else looks) ==> !Open(rows(i), wanted)
      decreases retries - looks, !ok
    {
      ok := Open(rows(looks), wanted);
      looks := looks + 1;
    }
  }
}
