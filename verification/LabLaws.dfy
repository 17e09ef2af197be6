/** What runs of the phase engine come to: resuming, repeating, forcing, failing. */
module LabLaws {
  import opened Wrappers
  import opened LabEngine

  // ---------------------------------------------------------------- settled phases

  /** There is nothing left to do for a phase under this configuration. */
  predicate IsSettled(setup: Setup, records: map<string, PhaseRecord>, name: string) {
    RecordOf(records, name) == PhaseRecord(if setup.isEnabled(name) then Completed else Skipped, Some(setup.configHash))
      && name in records
  }

  ghost predicate SettledBelow(setup: Setup, records: map<string, PhaseRecord>, n: nat)
    requires n <= |setup.table|
  {
    forall j :: 0 <= j < n ==> IsSettled(setup, records, setup.table[j].name)
  }

  lemma SettledStays(setup: Setup, p: Progress, name: string, force: bool)
    requires !p.raised && IsSettled(setup, p.records, name) && !force
    ensures Executed(setup, p, name, force) == p
  {
    assert p.records[name := p.records[name]] == p.records;
  }

  /** An unforced execution does nothing exactly when its phase is settled: completed here, or known to be disabled. */
  lemma {:induction false} NothingToDoExactly(setup: Setup, p: Progress, name: string)
    requires !p.raised
    ensures Executed(setup, p, name, false) == p <==>
      && name in p.records && p.records[name].configHash == Some(setup.configHash)
      && p.records[name].status == if setup.isEnabled(name) then Completed else Skipped
    ensures Executed(setup, p, name, false) == p <==> IsSettled(setup, p.records, name)
  {
    var q := Executed(setup, p, name, false);
    assert |p.trace + [name]| != |p.trace|;
    if IsSettled(setup, p.records, name) {
      SettledStays(setup, p, name, false);
    } else if !setup.isEnabled(name) {
      assert name in q.records && q.records[name] == PhaseRecord(Skipped, Some(setup.configHash));
    }
  }

  /** An enabled phase runs exactly when it is stale: forced, or not completed under this configuration. */
  lemma StaleExactly(setup: Setup, p: Progress, name: string, force: bool)
    requires !p.raised
    ensures Executed(setup, p, name, force).trace == p.trace + [name] <==> IsStale(setup, p.records, name, force)
    ensures IsStale(setup, p.records, name, force) <==>
      && setup.isEnabled(name)
      && (force || name !in p.records || p.records[name].status != Completed
          || p.records[name].configHash != Some(setup.configHash))
  {
    assert |p.trace + [name]| != |p.trace|;
  }

  lemma {:induction false} SettledWalk(setup: Setup, p: Progress, i: nat)
    requires i < |setup.table| && !p.raised && SettledBelow(setup, p.records, i + 1)
    ensures Walked(setup, p, i, false) == p
  {
    if i == 0 {
    } else {
      SettledWalk(setup, p, i - 1);
    }
    SettledStays(setup, p, setup.table[i].name, false);
  }

  /** A walk that gets through settles every phase it passes and touches no other. */
  lemma {:induction false} WalkSettles(setup: Setup, p: Progress, i: nat, force: bool)
    requires IsChain(setup.table) && i < |setup.table|
    ensures var q := Walked(setup, p, i, force);
            && (p.raised ==> q.raised)
            && (!q.raised ==> SettledBelow(setup, q.records, i + 1))
            && (forall j :: i < j < |setup.table| ==>
                  RecordOf(q.records, setup.table[j].name) == RecordOf(p.records, setup.table[j].name))
  {
    if i == 0 {
    } else {
      WalkSettles(setup, p, i - 1, force);
    }
  }

  // ---------------------------------------------------------------- resuming

  /** Walking the dependencies of the next phase once more changes nothing. */
  lemma WalkAgain(setup: Setup, p: Progress, i: nat)
    requires IsChain(setup.table) && i + 1 < |setup.table|
    ensures Walked(setup, Walked(setup, p, i, false), i + 1, false) == Walked(setup, p, i + 1, false)
  {
    var q := Walked(setup, p, i, false);
    WalkSettles(setup, p, i, false);
    if q.raised {
      RaisedWalksNowhere(setup, q, i, false);
    } else {
      SettledWalk(setup, q, i);
    }
  }

  /** Without force it does not matter where a full run starts: the last phase pulls in all the others. */
  lemma {:induction false} FullRunIsOneWalk(setup: Setup, p: Progress, i: nat)
    requires IsChain(setup.table) && i < |setup.table|
    ensures WalkedFrom(setup, p, i, false) == Walked(setup, p, |setup.table| - 1, false)
    decreases |setup.table| - i
  {
    var q := Walked(setup, p, i, false);
    if i + 1 == |setup.table| {
    } else {
      FullRunIsOneWalk(setup, q, i + 1);
      FullRunIsOneWalk(setup, p, i + 1);
      assert WalkedFrom(setup, q, i + 1, false) == WalkedFrom(setup, p, i + 1, false) by {
        WalkAgain(setup, p, i);
        assert WalkedFrom(setup, q, i + 1, false) == WalkedFrom(setup, Walked(setup, q, i + 1, false), i + 2, false);
        assert WalkedFrom(setup, p, i + 1, false) == WalkedFrom(setup, Walked(setup, p, i + 1, false), i + 2, false);
      }
    }
  }

  /** `resume` from any phase it may return does what `run_all` does: same records, same bodies, same failure. */
  lemma ResumeIsRunAll(setup: Setup, p: Progress, k: nat)
    requires IsChain(setup.table) && k < |setup.table|
    ensures WalkedFrom(setup, p, k, false) == WalkedFrom(setup, p, 0, false)
  {
    FullRunIsOneWalk(setup, p, k);
    FullRunIsOneWalk(setup, p, 0);
  }

  /** `resume` that returns nothing agrees with `run_all` exactly when no record is of another configuration. */
  lemma ResumeOfNothing(setup: Setup, p: Progress)
    requires IsChain(setup.table) && |setup.table| > 0 && !p.raised
    ensures WalkedFrom(setup, p, 0, false) == p <==> SettledBelow(setup, p.records, |setup.table|)
  {
    var last := |setup.table| - 1;
    FullRunIsOneWalk(setup, p, 0);
    WalkSettles(setup, p, last, false);
    if SettledBelow(setup, p.records, |setup.table|) {
      SettledWalk(setup, p, last);
    }
  }

  /** All phases of a table completed under one configuration. */
  function CompletedUnder(table: seq<Phase>, configHash: string): map<string, PhaseRecord> {
    map name | name in Names(table) :: PhaseRecord(Completed, Some(configHash))
  }

  function Names(table: seq<Phase>): seq<string> {
    seq(|table|, j requires 0 <= j < |table| => table[j].name)
  }

  lemma {:induction false} AllStale(setup: Setup, records: map<string, PhaseRecord>, n: nat)
    requires n <= |setup.table|
    requires forall j :: 0 <= j < |setup.table| ==> IsStale(setup, records, setup.table[j].name, false)
    ensures ToRun(setup, records, n, false) == Names(setup.table[..n])
  {
    if n == 0 {
    } else {
      AllStale(setup, records, n - 1);
      assert Names(setup.table[..n]) == Names(setup.table[..n - 1]) + [setup.table[n - 1].name];
    }
  }

  lemma {:induction false} NeverRaises(setup: Setup, p: Progress, i: nat)
    requires i < |setup.table| && !p.raised && forall trace, name :: setup.outcome(trace, name).Returns?
    ensures !Walked(setup, p, i, false).raised
  {
    if i == 0 {
    } else {
      NeverRaises(setup, p, i - 1);
    }
  }

  /**
   The eleven phases, all completed under another configuration: nothing is incomplete, so `resume` does
   nothing, and yet `run_all` runs them all.
   */
  lemma {:induction false} StaleRecordsAreNotResumed(setup: Setup, configHash: string)
    requires setup.table == PHASES && configHash != setup.configHash
    requires forall j :: 0 <= j < |PHASES| ==> setup.isEnabled(PHASES[j].name)
    requires forall trace, name :: setup.outcome(trace, name).Returns?
    ensures var p := Progress(CompletedUnder(PHASES, configHash), [], false);
            && After(setup, p, Resume) == p
            && WalkedFrom(setup, p, 0, false).trace == Names(PHASES) && |Names(PHASES)| == 11
  {
    hide PHASES, Walked, WalkedFrom, ToRun;
    PhasesAreAChain();
    var p := Progress(CompletedUnder(PHASES, configHash), [], false);
    forall j | 0 <= j < |PHASES| ensures RecordOf(p.records, PHASES[j].name) ==
        PhaseRecord(Completed, Some(configHash)) {
      assert Names(PHASES)[j] == PHASES[j].name;
    }
    NeverRaises(setup, p, 10);
    FullRunIsOneWalk(setup, p, 0);
    RunAllRunsStaleOnce(setup, p);
    AllStale(setup, p.records, 11);
    assert PHASES[..11] == PHASES;
  }

  // ---------------------------------------------------------------- which bodies run

  predicate IsStale(setup: Setup, records: map<string, PhaseRecord>, name: string, force: bool) {
    setup.isEnabled(name) && ShouldRun(setup, records, name, force)
  }

  /** The names of the enabled phases below `n` that are to run, in order. */
  function ToRun(setup: Setup, records: map<string, PhaseRecord>, n: nat, force: bool): seq<string>
    requires n <= |setup.table|
  {
    if n == 0 then []
    else
      var name := setup.table[n - 1].name;
      ToRun(setup, records, n - 1, force) + if IsStale(setup, records, name, force) then [name] else []
  }

  /**
   The phase at `k` was the last to run: what was to run before it has run, and it raised and is recorded as
   failed, or died and is still recorded as running.
   */
  ghost predicate StoppedAt(setup: Setup, p: Progress, q: Progress, k: nat, force: bool)
    requires k < |setup.table|
  {
    var name := setup.table[k].name;
    var before := p.trace + ToRun(setup, p.records, k, force);
    && IsStale(setup, p.records, name, force)
    && q.trace == before + [name]
    && SettledBelow(setup, q.records, k)
    && setup.outcome(before, name) in {Raises, Dies}
    && name in q.records && q.records[name].configHash == Some(setup.configHash)
    && (setup.outcome(before, name) == Raises ==> q.records[name].status == Failed)
    && (setup.outcome(before, name) == Dies ==> q.records[name].status == Running)
  }

  /** A walk runs the stale phases in order, each once, up to the first that raises. */
  lemma {:induction false} WalkRuns(setup: Setup, p: Progress, i: nat, force: bool)
    requires IsChain(setup.table) && i < |setup.table| && !p.raised
    ensures var q := Walked(setup, p, i, force);
            if !q.raised then q.trace == p.trace + ToRun(setup, p.records, i + 1, force)
            else exists k :: 0 <= k <= i && StoppedAt(setup, p, q, k, force)
  {
    var before := if i == 0 then p else Walked(setup, p, i - 1, force);
    var name := setup.table[i].name;
    if i == 0 {
    } else {
      WalkRuns(setup, p, i - 1, force);
      WalkSettles(setup, p, i - 1, force);
    }
    hide ToRun;
    if !before.raised {
      assert before.trace == p.trace + ToRun(setup, p.records, i, force) && SettledBelow(setup, before.records, i) by {
        assert i == 0 ==> ToRun(setup, p.records, i, force) == [] by { NothingBelow(setup, p.records, force); }
      }
      assert RecordOf(before.records, name) == RecordOf(p.records, name);
      LastToRun(setup, p.records, i, force);
      ExecuteRuns(setup, p, before, i, force);
    }
  }

  lemma NothingBelow(setup: Setup, records: map<string, PhaseRecord>, force: bool)
    ensures ToRun(setup, records, 0, force) == []
  {
  }

  lemma LastToRun(setup: Setup, records: map<string, PhaseRecord>, i: nat, force: bool)
    requires i < |setup.table|
    ensures var name := setup.table[i].name;
            ToRun(setup, records, i + 1, force)
              == ToRun(setup, records, i, force) + if IsStale(setup, records, name, force) then [name] else []
  {
  }

  lemma ExecuteRuns(setup: Setup, p: Progress, before: Progress, i: nat, force: bool)
    requires IsChain(setup.table) && i < |setup.table| && !before.raised
    requires before.trace == p.trace + ToRun(setup, p.records, i, force) && SettledBelow(setup, before.records, i)
    requires RecordOf(before.records, setup.table[i].name) == RecordOf(p.records, setup.table[i].name)
    ensures var name := setup.table[i].name;
            var q := Executed(setup, before, name, force);
            if q.raised then StoppedAt(setup, p, q, i, force)
            else q.trace == before.trace + if IsStale(setup, p.records, name, force) then [name] else []
  {
    hide ToRun;
    var q := Executed(setup, before, setup.table[i].name, force);
    forall j | 0 <= j < i ensures IsSettled(setup, before.records, setup.table[j].name)
      && setup.table[j].name != setup.table[i].name
    {
    }
  }

  /** Unforced, every enabled stale phase runs once, in order, and a second run finds nothing to do. */
  lemma RunAllRunsStaleOnce(setup: Setup, p: Progress)
    requires IsChain(setup.table) && |setup.table| > 0 && !p.raised && !WalkedFrom(setup, p, 0, false).raised
    ensures var q := WalkedFrom(setup, p, 0, false);
            && q.trace == p.trace + ToRun(setup, p.records, |setup.table|, false)
            && WalkedFrom(setup, q, 0, false) == q
  {
    var last := |setup.table| - 1;
    FullRunIsOneWalk(setup, p, 0);
    WalkRuns(setup, p, last, false);
    WalkSettles(setup, p, last, false);
    ResumeOfNothing(setup, Walked(setup, p, last, false));
  }

  /** After a failure, `resume` finds the phase that failed, and that is where the next run starts. */
  lemma FailureIsResumed(setup: Setup, p: Progress)
    requires IsChain(setup.table) && |setup.table| > 0 && !p.raised && WalkedFrom(setup, p, 0, false).raised
    ensures var q := WalkedFrom(setup, p, 0, false);
            exists k: nat ::
              && k < |setup.table|
              && |q.trace| > |p.trace| && q.trace[|q.trace| - 1] == setup.table[k].name
              && IsIncomplete(q.records, setup.table[k].name)
              && (forall j :: 0 <= j < k ==> !IsIncomplete(q.records, setup.table[j].name))
              && ToRun(setup, q.records, k + 1, false) == [setup.table[k].name]
  {
    hide IsChain, Walked, WalkedFrom, StoppedAt, ToRun;
    var last := |setup.table| - 1;
    FullRunIsOneWalk(setup, p, 0);
    WalkRuns(setup, p, last, false);
    var q := Walked(setup, p, last, false);
    var k :| 0 <= k <= last && StoppedAt(setup, p, q, k, false);
    StoppedIsNext(setup, p, q, k);
  }

  lemma StoppedIsNext(setup: Setup, p: Progress, q: Progress, k: nat)
    requires k < |setup.table| && StoppedAt(setup, p, q, k, false)
    ensures |q.trace| > |p.trace| && q.trace[|q.trace| - 1] == setup.table[k].name
    ensures IsIncomplete(q.records, setup.table[k].name)
    ensures forall j :: 0 <= j < k ==> !IsIncomplete(q.records, setup.table[j].name)
    ensures ToRun(setup, q.records, k + 1, false) == [setup.table[k].name]
  {
    hide ToRun;
    NothingToRun(setup, q.records, k);
    LastToRun(setup, q.records, k, false);
    forall j | 0 <= j < k ensures !IsIncomplete(q.records, setup.table[j].name) {
      assert IsSettled(setup, q.records, setup.table[j].name);
    }
  }

  lemma {:induction false} NothingToRun(setup: Setup, records: map<string, PhaseRecord>, n: nat)
    requires n <= |setup.table| && SettledBelow(setup, records, n)
    ensures ToRun(setup, records, n, false) == []
  {
    if n == 0 {
    } else {
      NothingToRun(setup, records, n - 1);
      assert IsSettled(setup, records, setup.table[n - 1].name);
    }
  }

  // ---------------------------------------------------------------- forced runs

  function Enabled(setup: Setup, n: nat): seq<string>
    requires n <= |setup.table|
  {
    if n == 0 then []
    else Enabled(setup, n - 1) + if setup.isEnabled(setup.table[n - 1].name) then [setup.table[n - 1].name] else []
  }

  lemma {:induction false} ForcedRunsEnabled(setup: Setup, records: map<string, PhaseRecord>, n: nat)
    requires n <= |setup.table|
    ensures ToRun(setup, records, n, true) == Enabled(setup, n)
  {
    if n == 0 {
    } else {
      ForcedRunsEnabled(setup, records, n - 1);
    }
  }

  function Occurrences(trace: seq<string>, name: string): nat {
    if trace == [] then 0 else Occurrences(trace[..|trace| - 1], name) + if trace[|trace| - 1] == name then 1 else 0
  }

  lemma {:induction false} OccurrencesAdd(a: seq<string>, b: seq<string>, name: string)
    ensures Occurrences(a + b, name) == Occurrences(a, name) + Occurrences(b, name)
  {
    if b == [] {
      assert a + b == a;
    } else {
      assert (a + b)[..|a + b| - 1] == a + b[..|b| - 1];
      OccurrencesAdd(a, b[..|b| - 1], name);
    }
  }

  lemma OccurrencesOne(name: string, sought: string)
    ensures Occurrences([], sought) == 0 && Occurrences([name], sought) == if name == sought then 1 else 0
  {
    assert [name][..0] == [];
  }

  lemma NamesDiffer(table: seq<Phase>, i: nat, j: nat)
    requires IsChain(table) && i < |table| && j < |table|
    ensures table[i].name == table[j].name <==> i == j
  {
  }

  lemma {:induction false} OccurrencesEnabled(setup: Setup, n: nat, j: nat)
    requires IsChain(setup.table) && n <= |setup.table| && j < |setup.table|
    ensures Occurrences(Enabled(setup, n), setup.table[j].name)
         == if j < n && setup.isEnabled(setup.table[j].name) then 1 else 0
  {
    hide IsChain, Occurrences;
    if n == 0 {
      OccurrencesOne("", setup.table[j].name);
    } else {
      OccurrencesEnabled(setup, n - 1, j);
      var name := setup.table[n - 1].name;
      OccurrencesAdd(Enabled(setup, n - 1), if setup.isEnabled(name) then [name] else [], setup.table[j].name);
      OccurrencesOne(name, setup.table[j].name);
      NamesDiffer(setup.table, n - 1, j);
    }
  }

  /** What a forced run from position `i` on appends to the trace. */
  function ForcedTrace(setup: Setup, i: nat): seq<string>
    requires i <= |setup.table|
    decreases |setup.table| - i
  {
    if i == |setup.table| then [] else Enabled(setup, i + 1) + ForcedTrace(setup, i + 1)
  }

  lemma ForcedWalk(setup: Setup, p: Progress, i: nat)
    requires IsChain(setup.table) && i < |setup.table| && !p.raised && !Walked(setup, p, i, true).raised
    ensures Walked(setup, p, i, true).trace == p.trace + Enabled(setup, i + 1)
  {
    hide Walked, ToRun, Enabled;
    WalkRuns(setup, p, i, true);
    ForcedRunsEnabled(setup, p.records, i + 1);
  }

  lemma {:induction false} ForcedRun(setup: Setup, p: Progress, i: nat)
    requires IsChain(setup.table) && i <= |setup.table| && !p.raised && !WalkedFrom(setup, p, i, true).raised
    ensures WalkedFrom(setup, p, i, true).trace == p.trace + ForcedTrace(setup, i)
    decreases |setup.table| - i
  {
    hide Walked, Enabled;
    if i == |setup.table| {
    } else {
      var q := Walked(setup, p, i, true);
      if q.raised {
        RaisedStops(setup, q, i + 1, true);
      }
      ForcedWalk(setup, p, i);
      ForcedRun(setup, q, i + 1);
    }
  }

  lemma {:induction false} ForcedOccurrences(setup: Setup, i: nat, j: nat)
    requires IsChain(setup.table) && i <= |setup.table| && j < |setup.table|
    ensures Occurrences(ForcedTrace(setup, i), setup.table[j].name)
         == if setup.isEnabled(setup.table[j].name) then |setup.table| - (if i < j then j else i) else 0
    decreases |setup.table| - i
  {
    hide Enabled, IsChain, Occurrences;
    if i == |setup.table| {
      OccurrencesOne("", setup.table[j].name);
    } else {
      ForcedOccurrences(setup, i + 1, j);
      OccurrencesEnabled(setup, i + 1, j);
      OccurrencesAdd(Enabled(setup, i + 1), ForcedTrace(setup, i + 1), setup.table[j].name);
    }
  }

  /** A forced `run_all` runs the enabled phase at position j once for itself and once for every later phase. */
  lemma ForcedRunAllCounts(setup: Setup, p: Progress, j: nat)
    requires IsChain(setup.table) && j < |setup.table|
    requires p.trace == [] && !p.raised && !WalkedFrom(setup, p, 0, true).raised
    ensures Occurrences(WalkedFrom(setup, p, 0, true).trace, setup.table[j].name)
         == if setup.isEnabled(setup.table[j].name) then |setup.table| - j else 0
  {
    ForcedRun(setup, p, 0);
    ForcedOccurrences(setup, 0, j);
    assert p.trace + ForcedTrace(setup, 0) == ForcedTrace(setup, 0);
  }

  /** For every enabled phase below position `m`, the positions from `i` on that are not in front of it. */
  function RunsOfEnabled(setup: Setup, i: nat, m: nat): nat
    requires i <= |setup.table| && m <= |setup.table|
  {
    if m == 0 then 0
    else
      var j := m - 1;
      RunsOfEnabled(setup, i, j) + if setup.isEnabled(setup.table[j].name) then
          |setup.table| - (if i < j then j else i) else 0
  }

  /** One position less in front: each enabled phase that is not behind it runs once more. */
  lemma {:induction false} OnePositionMore(setup: Setup, i: nat, m: nat)
    requires i < |setup.table| && m <= |setup.table|
    ensures RunsOfEnabled(setup, i, m)
         == RunsOfEnabled(setup, i + 1, m) + |Enabled(setup, if m < i + 1 then m else i + 1)|
  {
    if m == 0 {
    } else {
      OnePositionMore(setup, i, m - 1);
    }
  }

  lemma {:induction false} NoPositions(setup: Setup, m: nat)
    requires m <= |setup.table|
    ensures RunsOfEnabled(setup, |setup.table|, m) == 0
  {
    if m == 0 {
    } else {
      NoPositions(setup, m - 1);
    }
  }

  lemma {:induction false} ForcedLength(setup: Setup, i: nat)
    requires i <= |setup.table|
    ensures |ForcedTrace(setup, i)| == RunsOfEnabled(setup, i, |setup.table|)
    decreases |setup.table| - i
  {
    hide RunsOfEnabled, Enabled;
    if i == |setup.table| {
      NoPositions(setup, |setup.table|);
    } else {
      ForcedLength(setup, i + 1);
      OnePositionMore(setup, i, |setup.table|);
    }
  }

  lemma {:induction false} AllEnabledRuns(setup: Setup, m: nat)
    requires m <= |setup.table| && forall j :: 0 <= j < |setup.table| ==> setup.isEnabled(setup.table[j].name)
    ensures 2 * RunsOfEnabled(setup, 0, m) == m * (2 * |setup.table| - m + 1)
  {
    if m == 0 {
    } else {
      AllEnabledRuns(setup, m - 1);
    }
  }

  /**
   A forced `run_all` runs as many bodies as the sum of |table| - j over the enabled positions j; with
   all n phases enabled that is n (n + 1) / 2.
   */
  lemma {:induction false} ForcedRunAllTotal(setup: Setup, p: Progress)
    requires IsChain(setup.table) && p.trace == [] && !p.raised && !WalkedFrom(setup, p, 0, true).raised
    ensures var n, runs := |setup.table|, |WalkedFrom(setup, p, 0, true).trace|;
            && runs == RunsOfEnabled(setup, 0, n)
            && ((forall j :: 0 <= j < n ==> setup.isEnabled(setup.table[j].name)) ==> runs == n * (n + 1) / 2)
  {
    hide WalkedFrom, RunsOfEnabled, ForcedTrace;
    ForcedRun(setup, p, 0);
    ForcedLength(setup, 0);
    if forall j :: 0 <= j < |setup.table| ==> setup.isEnabled(setup.table[j].name) {
      AllEnabledRuns(setup, |setup.table|);
    }
  }

  // ---------------------------------------------------------------- histories

  datatype Command = RunPhase(i: nat) | RunAll | Resume

  /** The position of the first incomplete phase from `i` on, or the end of the table. */
  function FirstIncompleteFrom(setup: Setup, records: map<string, PhaseRecord>, i: nat): (k: nat)
    requires i <= |setup.table|
    ensures i <= k <= |setup.table|
    ensures forall j :: i <= j < k ==> !IsIncomplete(records, setup.table[j].name)
    ensures k < |setup.table| ==> IsIncomplete(records, setup.table[k].name)
    decreases |setup.table| - i
  {
    if i == |setup.table| || IsIncomplete(records, setup.table[i].name) then i
    else FirstIncompleteFrom(setup, records, i + 1)
  }

  /** The state after a command without force; an exception ends the command, not the history. */
  ghost function After(setup: Setup, p: Progress, command: Command): Progress {
    match command
    case RunPhase(i) => if i < |setup.table| then Walked(setup, p, i, false).(raised := false) else p
    case RunAll => WalkedFrom(setup, p, 0, false).(raised := false)
    case Resume =>
      var k := FirstIncompleteFrom(setup, p.records, 0);
      if k < |setup.table| then WalkedFrom(setup, p, k, false).(raised := false) else p
  }

  ghost function AfterAll(setup: Setup, p: Progress, commands: seq<Command>): Progress {
    if commands == [] then p else After(setup, AfterAll(setup, p, commands[..|commands| - 1]), commands[|commands| - 1])
  }

  /** Completed phases are of this configuration and have only completed or skipped phases before them. */
  ghost predicate InOrder(setup: Setup, records: map<string, PhaseRecord>) {
    && (forall j :: 0 <= j < |setup.table| && RecordOf(records, setup.table[j].name).status.Skipped? ==>
          !setup.isEnabled(setup.table[j].name))
    && forall j :: 0 <= j < |setup.table| && RecordOf(records, setup.table[j].name).status.Completed? ==>
      && RecordOf(records, setup.table[j].name).configHash == Some(setup.configHash)
      && forall i :: 0 <= i < j ==> !IsIncomplete(records, setup.table[i].name)
  }

  lemma {:induction false} WalkKeepsOrder(setup: Setup, p: Progress, i: nat)
    requires IsChain(setup.table) && i < |setup.table| && !p.raised && InOrder(setup, p.records)
    ensures InOrder(setup, Walked(setup, p, i, false).records)
  {
    if i > 0 {
      WalkKeepsOrder(setup, p, i - 1);
      WalkSettles(setup, p, i - 1, false);
      ExecuteKeepsOrder(setup, Walked(setup, p, i - 1, false), i);
    } else {
      ExecuteKeepsOrder(setup, p, 0);
    }
  }

  lemma {:induction false} ExecuteKeepsOrder(setup: Setup, p: Progress, i: nat)
    requires IsChain(setup.table) && i < |setup.table| && InOrder(setup, p.records)
    requires !p.raised ==> SettledBelow(setup, p.records, i)
    ensures InOrder(setup, Executed(setup, p, setup.table[i].name, false).records)
  {
    var name := setup.table[i].name;
    var q := Executed(setup, p, name, false);
    if !p.raised && q.records != p.records {
      assert forall j :: 0 <= j < i ==> IsSettled(setup, p.records, setup.table[j].name);
      assert setup.isEnabled(name) ==> !RecordOf(p.records, name).status.Completed?;
      assert forall j :: 0 <= j < |setup.table| && j != i ==>
        RecordOf(q.records, setup.table[j].name) == RecordOf(p.records, setup.table[j].name);
      assert setup.isEnabled(name) ==> IsIncomplete(p.records, name);
      forall j | 0 <= j < |setup.table| && RecordOf(q.records, setup.table[j].name).status.Completed?
        ensures RecordOf(q.records, setup.table[j].name).configHash == Some(setup.configHash)
        ensures forall k :: 0 <= k < j ==> !IsIncomplete(q.records, setup.table[k].name)
      {
        if j > i {
          assert RecordOf(p.records, setup.table[j].name).status.Completed?;
          assert !IsIncomplete(p.records, name);
        }
      }
    }
  }

  /**
   Under one configuration and without force, however commands follow each other and fail, a completed
   phase has only completed or skipped phases before it.
   */
  lemma {:induction false} HistoriesKeepOrder(setup: Setup, commands: seq<Command>)
    requires IsChain(setup.table)
    ensures InOrder(setup, AfterAll(setup, Progress(map[], [], false), commands).records)
    ensures !AfterAll(setup, Progress(map[], [], false), commands).raised
  {
    if commands == [] {
    } else {
      var p := AfterAll(setup, Progress(map[], [], false), commands[..|commands| - 1]);
      HistoriesKeepOrder(setup, commands[..|commands| - 1]);
      var command := commands[|commands| - 1];
      if command.RunPhase? && command.i < |setup.table| {
        WalkKeepsOrder(setup, p, command.i);
      } else if |setup.table| > 0 {
        if command.Resume? && FirstIncompleteFrom(setup, p.records, 0) < |setup.table| {
          ResumeIsRunAll(setup, p, FirstIncompleteFrom(setup, p.records, 0));
        }
        FullRunIsOneWalk(setup, p, 0);
        WalkKeepsOrder(setup, p, |setup.table| - 1);
      }
    }
  }
}
