/**
 The phase engine of labctl: phases run in dependency order against a persistent record of what has
 been done (`hack/labctl/src/labctl/app.py`, `phases/base.py`, `state.py`).
 */
module LabEngine {
  import opened Wrappers

  datatype Status = Pending | Running | Completed | Failed | Skipped

  datatype PhaseRecord = PhaseRecord(status: Status, configHash: Option<string>)

  const NO_RECORD := PhaseRecord(Pending, None)

  datatype Phase = Phase(name: string, dependencies: seq<string>)

  const PHASES: seq<Phase> := [
    Phase("spot-provision", []),
    Phase("host-bootstrap", ["spot-provision"]),
    Phase("network-overlay", ["host-bootstrap"]),
    Phase("ceph", ["network-overlay"]),
    Phase("opennebula", ["ceph"]),
    Phase("dex", ["opennebula"]),
    Phase("omni", ["dex"]),
    Phase("dns-tls", ["omni"]),
    Phase("provider", ["dns-tls"]),
    Phase("validation", ["provider"]),
    Phase("handoff-cluster", ["validation"])
  ]

  /** Every phase depends on the one in front of it and on no other. */
  ghost predicate IsChain(table: seq<Phase>) {
    && (forall i, j :: 0 <= i < j < |table| ==> table[i].name != table[j].name)
    && (forall i :: 0 <= i < |table| ==> DependsOnPrevious(table, i))
  }

  predicate DependsOnPrevious(table: seq<Phase>, i: nat)
    requires i < |table|
  {
    table[i].dependencies == if i == 0 then [] else [table[i - 1].name]
  }

  /** Tells the names of the phases apart by their length and first letter. */
  function Rank(name: string): int
    requires name != ""
  {
    match |name|
    case 14 => if name[0] == 's' then 0 else 1
    case 15 => if name[0] == 'n' then 2 else 10
    case 4 => if name[0] == 'c' then 3 else 6
    case 10 => if name[0] == 'o' then 4 else 9
    case 3 => 5
    case 7 => 7
    case 8 => 8
    case _ => -1
  }

  lemma PhasesAreRanked(i: nat)
    requires i < 11
    ensures |PHASES| == 11 && PHASES[i].name != "" && Rank(PHASES[i].name) == i
  {
    assert |PHASES| == 11;
    if i == 0 { assert PHASES[0].name == "spot-provision"; }
    else if i == 1 { assert PHASES[1].name == "host-bootstrap"; }
    else if i == 2 { assert PHASES[2].name == "network-overlay"; }
    else if i == 3 { assert PHASES[3].name == "ceph"; }
    else if i == 4 { assert PHASES[4].name == "opennebula"; }
    else if i == 5 { assert PHASES[5].name == "dex"; }
    else if i == 6 { assert PHASES[6].name == "omni"; }
    else if i == 7 { assert PHASES[7].name == "dns-tls"; }
    else if i == 8 { assert PHASES[8].name == "provider"; }
    else if i == 9 { assert PHASES[9].name == "validation"; }
    else { assert PHASES[10].name == "handoff-cluster"; }
  }

  lemma PhasesAreAChain()
    ensures IsChain(PHASES) && |PHASES| == 11
  {
    assert |PHASES| == 11;
    forall i, j | 0 <= i < j < |PHASES| ensures PHASES[i].name != PHASES[j].name {
      hide PHASES, Rank;
      PhasesAreRanked(i);
      PhasesAreRanked(j);
    }
    forall i | 0 <= i < |PHASES| ensures DependsOnPrevious(PHASES, i) {
    }
  }

  /** A phase body returns, raises, or takes the whole process with it. */
  datatype Outcome = Returns | Raises | Dies

  /**
   What stays the same during a run. The outcome of a phase body depends on the bodies run before it
   in any way at all.
   */
  datatype Setup = Setup(
    table: seq<Phase>,
    configHash: string,
    isEnabled: string -> bool,
    outcome: (seq<string>, string) -> Outcome)

  // ---------------------------------------------------------------- what the engine does

  /** The records, the bodies run so far, and whether an exception is under way. */
  datatype Progress = Progress(records: map<string, PhaseRecord>, trace: seq<string>, raised: bool)

  function RecordOf(records: map<string, PhaseRecord>, name: string): PhaseRecord {
    if name in records then records[name] else NO_RECORD
  }

  predicate ShouldRun(setup: Setup, records: map<string, PhaseRecord>, name: string, force: bool) {
    force || RecordOf(records, name) != PhaseRecord(Completed, Some(setup.configHash))
  }

  function Noted(p: Progress, name: string, status: Status, hash: string): Progress {
    p.(records := p.records[name := PhaseRecord(status, Some(hash))])
  }

  function Executed(setup: Setup, p: Progress, name: string, force: bool): Progress {
    if p.raised then p
    else if !setup.isEnabled(name) then Noted(p, name, Skipped, setup.configHash)
    else if !ShouldRun(setup, p.records, name, force) then p
    else
      var after := p.(trace := p.trace + [name]);
      match setup.outcome(p.trace, name)
      case Returns => Noted(after, name, Completed, setup.configHash)
      case Raises => Noted(after.(raised := true), name, Failed, setup.configHash)
      case Dies => Noted(after.(raised := true), name, Running, setup.configHash)
  }

  /** `run_phase`: everything up to position `i`, in order. */
  function Walked(setup: Setup, p: Progress, i: nat, force: bool): Progress
    requires i < |setup.table|
  {
    Executed(setup, if i == 0 then p else Walked(setup, p, i - 1, force), setup.table[i].name, force)
  }

  /** `run_phase` for every position from `i` on. */
  function WalkedFrom(setup: Setup, p: Progress, i: nat, force: bool): Progress
    requires i <= |setup.table|
    decreases |setup.table| - i
  {
    if i == |setup.table| then p else WalkedFrom(setup, Walked(setup, p, i, force), i + 1, force)
  }

  predicate IsIncomplete(records: map<string, PhaseRecord>, name: string) {
    !RecordOf(records, name).status.Completed? && !RecordOf(records, name).status.Skipped?
  }

  // ---------------------------------------------------------------- the engine

  class StateStore {
    var phases: map<string, PhaseRecord>

    constructor (phases: map<string, PhaseRecord>)
      ensures this.phases == phases
    {
      this.phases := phases;
    }

    method UpdatePhase(name: string, status: Status, configHash: Option<string>)
      modifies this
      ensures phases == old(phases)[name := PhaseRecord(status, if configHash.Some? then configHash
                                                                else RecordOf(old(phases), name).configHash)]
    {
      var record := RecordOf(phases, name);
      record := record.(status := status);
      if configHash.Some? {
        record := record.(configHash := configHash);
      }
      phases := phases[name := record];
    }

    method FirstIncomplete(orderedPhases: seq<string>) returns (first: Option<nat>)
      ensures match first
              case Some(k) =>
                && k < |orderedPhases| && IsIncomplete(phases, orderedPhases[k])
                && forall j :: 0 <= j < k ==> !IsIncomplete(phases, orderedPhases[j])
              case None => forall j :: 0 <= j < |orderedPhases| ==> !IsIncomplete(phases, orderedPhases[j])
      // every phase in front of the first one has a record that says completed or skipped
      ensures forall j :: 0 <= j < (if first.Some? then first.value else |orderedPhases|) ==>
        orderedPhases[j] in phases && phases[orderedPhases[j]].status in {Completed, Skipped}
      ensures first.Some? ==>
        var name := orderedPhases[first.value]; name in phases ==> phases[name].status in {Pending, Running, Failed}
    {
      for k := 0 to |orderedPhases|
        invariant forall j :: 0 <= j < k ==> !IsIncomplete(phases, orderedPhases[j])
      {
        var status := RecordOf(phases, orderedPhases[k]).status;
        if status != Completed && status != Skipped {
          return Some(k);
        }
      }
      first := None;
    }
  }

  datatype Ended = Finished | Raised | UnknownPhase

  class LabApp {
    const setup: Setup
    const state: StateStore
    var trace: seq<string>

    constructor (setup: Setup, state: StateStore)
      requires IsChain(setup.table)
      ensures this.setup == setup && this.state == state && trace == [] && Valid()
    {
      this.setup, this.state, this.trace := setup, state, [];
    }

    ghost predicate Valid() {
      IsChain(setup.table)
    }

    function View(): Progress
      reads this, state
    {
      Progress(state.phases, trace, false)
    }

    /** The body of a phase is not part of this model; what it comes to is. */
    method RunBody(name: string) returns (outcome: Outcome)
      modifies this
      ensures trace == old(trace) + [name] && outcome == setup.outcome(old(trace), name)
    {
      outcome := setup.outcome(trace, name);
      trace := trace + [name];
    }

    method Execute(name: string, force: bool) returns (raised: bool)
      modifies this, state
      ensures View().(raised := raised) == Executed(setup, old(View()), name, force)
      // a disabled phase is skipped
      ensures !setup.isEnabled(name) ==>
        && !raised && trace == old(trace)
        && state.phases == old(state.phases)[name := PhaseRecord(Skipped, Some(setup.configHash))]
      // one completed under this configuration is left alone, unless forced
      ensures setup.isEnabled(name) && !force && name in old(state.phases)
              && old(state.phases)[name] == PhaseRecord(Completed, Some(setup.configHash)) ==>
        !raised && trace == old(trace) && state.phases == old(state.phases)
      // any other runs: it completes, fails with an exception, or dies and stays running
      ensures setup.isEnabled(name) && (force || name !in old(state.phases)
              || old(state.phases)[name] != PhaseRecord(Completed, Some(setup.configHash))) ==>
        var outcome := setup.outcome(old(trace), name);
        && trace == old(trace) + [name]
        && (raised <==> outcome != Returns)
        && name in state.phases
        && state.phases == old(state.phases)[name := state.phases[name]]
        && state.phases[name].configHash == Some(setup.configHash)
        && (outcome == Returns <==> state.phases[name].status == Completed)
        && (outcome == Raises <==> state.phases[name].status == Failed)
        && (outcome == Dies <==> state.phases[name].status == Running)
    {
      if !setup.isEnabled(name) {
        state.UpdatePhase(name, Skipped, Some(setup.configHash));
        return false;
      }
      var phase := RecordOf(state.phases, name);
      if !(force || phase.status == Failed || phase.status == Running
           || !(phase.status == Completed && phase.configHash == Some(setup.configHash))) {
        return false;
      }
      state.UpdatePhase(name, Running, Some(setup.configHash));
      var outcome := RunBody(name);
      match outcome {
        case Raises =>
          state.UpdatePhase(name, Failed, Some(setup.configHash));
          return true;
        case Dies =>
          return true;
        case Returns =>
          state.UpdatePhase(name, Completed, Some(setup.configHash));
          return false;
      }
    }

    method PositionOf(name: string) returns (position: Option<nat>)
      ensures match position
              case Some(i) => i < |setup.table| && setup.table[i].name == name
              case None => forall i :: 0 <= i < |setup.table| ==> setup.table[i].name != name
    {
      for i := 0 to |setup.table|
        invariant forall j :: 0 <= j < i ==> setup.table[j].name != name
      {
        if setup.table[i].name == name {
          return Some(i);
        }
      }
      position := None;
    }

    /** `position` is where the phase called `name` stands; it bounds the recursion over dependencies. */
    method RunPhase(name: string, position: nat, force: bool) returns (raised: bool)
      requires Valid() && position < |setup.table| && setup.table[position].name == name
      modifies this, state
      ensures View().(raised := raised) == Walked(setup, old(View()), position, force)
      decreases position
    {
      var dependencies := setup.table[position].dependencies;
      assert DependsOnPrevious(setup.table, position);
      assert dependencies == if position == 0 then [] else [setup.table[position - 1].name];
      ghost var before := if position == 0 then View() else Walked(setup, View(), position - 1, force);
      for d := 0 to |dependencies|
        invariant position == 0 ==> View() == before
        invariant position > 0 ==> View() == if d == 0 then old(View()) else before
      {
        raised := RunPhase(dependencies[d], position - 1, force);
        if raised {
          return;
        }
      }
      raised := Execute(name, force);
    }

    method Run(name: string, force: bool) returns (ended: Ended)
      requires Valid()
      modifies this, state
      ensures ended == UnknownPhase <==> forall i :: 0 <= i < |setup.table| ==> setup.table[i].name != name
      ensures ended == UnknownPhase ==> View() == old(View())
      ensures forall i :: 0 <= i < |setup.table| && setup.table[i].name == name ==>
        View().(raised := ended == Raised) == Walked(setup, old(View()), i, force)
    {
      var position := PositionOf(name);
      if position.None? {
        return UnknownPhase;
      }
      var raised := RunPhase(name, position.value, force);
      ended := if raised then Raised else Finished;
    }

    /** The phases from `first` on, each with all its dependencies. */
    method RunFrom(first: nat, force: bool) returns (raised: bool)
      requires Valid() && first <= |setup.table|
      modifies this, state
      ensures View().(raised := raised) == WalkedFrom(setup, old(View()), first, force)
    {
      for i := first to |setup.table|
        invariant WalkedFrom(setup, View(), i, force) == WalkedFrom(setup, old(View()), first, force)
      {
        raised := RunPhase(setup.table[i].name, i, force);
        if raised {
          RaisedStops(setup, View().(raised := true), i + 1, force);
          return;
        }
      }
      raised := false;
    }

    method RunAll(force: bool) returns (raised: bool)
      requires Valid()
      modifies this, state
      ensures View().(raised := raised) == WalkedFrom(setup, old(View()), 0, force)
    {
      raised := RunFrom(0, force);
    }

    method Resume(force: bool) returns (phaseName: Option<string>, raised: bool)
      requires Valid()
      modifies this, state
      ensures phaseName.None? ==>
        && View() == old(View()) && !raised
        && forall j :: 0 <= j < |setup.table| ==> !IsIncomplete(state.phases, setup.table[j].name)
      ensures phaseName.Some? ==> exists k ::
        && 0 <= k < |setup.table| && phaseName.value == setup.table[k].name
        && IsIncomplete(old(state.phases), setup.table[k].name)
        && (forall j :: 0 <= j < k ==> !IsIncomplete(old(state.phases), setup.table[j].name))
        && View().(raised := raised) == WalkedFrom(setup, old(View()), k, force)
    {
      var names := seq(|setup.table|, i requires 0 <= i < |setup.table| => setup.table[i].name);
      var first := state.FirstIncomplete(names);
      if first.None? {
        assert forall j :: 0 <= j < |names| ==> names[j] == setup.table[j].name;
        return None, false;
      }
      var k := first.value;
      assert forall j :: 0 <= j <= k ==> names[j] == setup.table[j].name;
      raised := RunPhase(names[k], k, force);
      phaseName := Some(names[k]);
      if raised {
        RaisedStops(setup, View().(raised := true), k + 1, force);
        return;
      }
      raised := RunFrom(k + 1, force);
    }
  }

  /** After an exception nothing happens any more. */
  lemma {:induction false} RaisedWalksNowhere(setup: Setup, p: Progress, i: nat, force: bool)
    requires i < |setup.table| && p.raised
    ensures Walked(setup, p, i, force) == p
  {
    if i == 0 {
    } else {
      RaisedWalksNowhere(setup, p, i - 1, force);
    }
  }

  lemma {:induction false} RaisedStops(setup: Setup, p: Progress, i: nat, force: bool)
    requires i <= |setup.table| && p.raised
    ensures WalkedFrom(setup, p, i, force) == p
    decreases |setup.table| - i
  {
    if i == |setup.table| {
    } else {
      RaisedWalksNowhere(setup, p, i, force);
      RaisedStops(setup, p, i + 1, force);
    }
  }
}
