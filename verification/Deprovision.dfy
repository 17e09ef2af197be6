/**
 Removing a machine: its VM first, its reservation only once the VM is seen to be gone
 (`internal/pkg/provider/deprovision.go`).
 */
module Deprovision {
  import opened Wrappers
  import opened Reservations
  import opened Allocator
  import opened OpenNebula
  import opened Text
  import opened TextLaws

  datatype Reply = Info(state: string, lcmState: string) | Error(kind: ErrorClass)

  /** The calls a client has answered, with the answers. */
  datatype Call =
    | GetVMCall(vmId: int, reply: Reply)
    | TerminateCall(vmId: int, hard: bool, reply: Reply)
    | ForceDeleteCall(vmId: int, reply: Reply)

  /** OpenNebula answers its k-th call with `replies(k)`. */
  class Client {
    var calls: seq<Call>
    const replies: nat -> Reply

    constructor (replies: nat -> Reply)
      ensures calls == [] && this.replies == replies
    {
      this.replies := replies;
      calls := [];
    }

    method GetVM(vmId: int) returns (reply: Reply)
      modifies this
      ensures reply == replies(|old(calls)|) && calls == old(calls) + [GetVMCall(vmId, reply)]
    {
      reply := replies(|calls|);
      calls := calls + [GetVMCall(vmId, reply)];
    }

    method TerminateVM(vmId: int, hard: bool) returns (reply: Reply)
      modifies this
      ensures reply == replies(|old(calls)|) && calls == old(calls) + [TerminateCall(vmId, hard, reply)]
    {
      reply := replies(|calls|);
      calls := calls + [TerminateCall(vmId, hard, reply)];
    }

    method ForceDeleteVM(vmId: int) returns (reply: Reply)
      modifies this
      ensures reply == replies(|old(calls)|) && calls == old(calls) + [ForceDeleteCall(vmId, reply)]
    {
      reply := replies(|calls|);
      calls := calls + [ForceDeleteCall(vmId, reply)];
    }
  }

  // ---------------------------------------------------------------- VM states

  function NormalizeState(s: string): string {
    Upper(TrimSpace(s))
  }

  predicate VmIsTerminallyDeleted(reply: Reply) {
    reply.Info? && NormalizeState(reply.state) == "DONE"
  }

  const FORCED_STATES: set<string> :=
    {"SHUTDOWN", "SHUTDOWN_POWEROFF", "SHUTDOWN_UNDEPLOY", "EPILOG", "EPILOG_STOP", "EPILOG_UNDEPLOY", "CLEANUP_DELETE"}

  predicate VmRequiresForceDelete(reply: Reply, deleteHard: bool) {
    deleteHard && reply.Info? && NormalizeState(reply.lcmState) in FORCED_STATES
  }

  /** The VM is missing or done. */
  predicate IsGone(reply: Reply) {
    reply == Error(ErrorClass.NotFound) || VmIsTerminallyDeleted(reply)
  }

  /** Gone is a VM that OpenNebula does not know, or reports as DONE, in any case and with white space around. */
  lemma {:induction false} GoneExactly(reply: Reply)
    ensures IsGone(reply) <==>
      reply == Error(ErrorClass.NotFound) || (reply.Info? && EqualFold(TrimSpace(reply.state), "DONE"))
  {
    if reply.Info? {
      UpperIsFolded(TrimSpace(reply.state), "DONE");
    }
  }

  /** The life-cycle states in which hard mode forces a VM. */
  lemma {:induction false} ForcedExactly(reply: Reply, deleteHard: bool)
    ensures VmRequiresForceDelete(reply, deleteHard) <==>
      deleteHard && reply.Info?
      && var lcm := TrimSpace(reply.lcmState);
         || SpelledAs(lcm, "SHUTDOWN") || SpelledAs(lcm, "SHUTDOWN_POWEROFF") || SpelledAs(lcm, "SHUTDOWN_UNDEPLOY")
         || SpelledAs(lcm, "EPILOG") || SpelledAs(lcm, "EPILOG_STOP") || SpelledAs(lcm, "EPILOG_UNDEPLOY")
         || SpelledAs(lcm, "CLEANUP_DELETE")
  {
    hide SpelledAs, TrimSpace;
    if reply.Info? {
      forall name ensures NormalizeState(reply.lcmState) == name <==> SpelledAs(TrimSpace(reply.lcmState), name) {
        UpperIsSpelled(TrimSpace(reply.lcmState), name);
      }
    }
  }

  // ---------------------------------------------------------------- the delete mode

  /** What can be read from the provider data of a request. */
  datatype RequestData = NoData | Unparsable | Lifecycle(deleteMode: string)

  function ResolveDeleteMode(machineMode: string, data: RequestData, hardDelete: bool): bool {
    if machineMode != "" then machineMode == "hard"
    else match data
      case NoData => hardDelete
      case Unparsable => hardDelete
      case Lifecycle(mode) =>
        if mode == "hard" && hardDelete then true
        else if mode == "terminate" || mode == "normal" then false
        else hardDelete
  }

  /** The mode recorded on the machine decides; without one the configuration does, unless the request objects. */
  lemma HardExactlyWhen(machineMode: string, data: RequestData, hardDelete: bool)
    ensures ResolveDeleteMode(machineMode, data, hardDelete) <==>
      || machineMode == "hard"
      || (machineMode == "" && hardDelete && data != Lifecycle("terminate") && data != Lifecycle("normal"))
  {
  }

  // ---------------------------------------------------------------- deleting the VM

  datatype PassResult = Done | RetryLater | Fails(kind: ErrorClass)

  function FailureOf(kind: ErrorClass): PassResult {
    if IsRetryableClass(kind) then RetryLater else Fails(kind)
  }

  ghost predicate Answered(calls: seq<Call>, replies: nat -> Reply, from: nat) {
    forall k :: 0 <= k < |calls| ==> calls[k].reply == replies(from + k)
  }

  /** A request for deletion that neither worked nor met a missing VM. */
  predicate Refused(reply: Reply) {
    reply.Error? && !reply.kind.NotFound?
  }

  /** What a look at the VM says; the last one of a pass takes no notice of `DONE`. */
  function Verdict(reply: Reply, doneCounts: bool): Result<bool, PassResult> {
    if reply == Error(ErrorClass.NotFound) || (doneCounts && VmIsTerminallyDeleted(reply)) then Success(true)
    else if reply.Error? then Failure(FailureOf(reply.kind))
    else Success(false)
  }

  predicate IsLook(call: Call, vmId: int) {
    call.GetVMCall? && call.vmId == vmId
  }

  /** A VM that is there is asked to go: by force if it has to be, else by terminating it. */
  predicate IsDeletion(call: Call, seen: Reply, vmId: int, deleteHard: bool) {
    if VmRequiresForceDelete(seen, deleteHard) then call.ForceDeleteCall? && call.vmId == vmId
    else call.TerminateCall? && call.vmId == vmId && call.hard == deleteHard
  }

  /** The second half of a pass: look again, force a VM that is stuck, look once more. */
  ghost predicate Confirmed(made: seq<Call>, r: Result<bool, PassResult>, vmId: int, deleteHard: bool) {
    && made != [] && IsLook(made[0], vmId)
    && if Verdict(made[0].reply, true) != Success(false) || !VmRequiresForceDelete(made[0].reply, deleteHard) then
         |made| == 1 && r == Verdict(made[0].reply, true)
       else
         && |made| >= 2 && made[1].ForceDeleteCall? && made[1].vmId == vmId
         && if Refused(made[1].reply) then |made| == 2 && r == Failure(FailureOf(made[1].reply.kind))
            else |made| == 3 && IsLook(made[2], vmId) && r == Verdict(made[2].reply, false)
  }

  /** A pass from the request for deletion on. */
  ghost predicate Requested(made: seq<Call>, r: Result<bool, PassResult>, seen: Reply, vmId: int, deleteHard: bool) {
    && made != [] && IsDeletion(made[0], seen, vmId, deleteHard)
    && if Refused(made[0].reply) then |made| == 1 && r == Failure(FailureOf(made[0].reply.kind))
       else Confirmed(made[1..], r, vmId, deleteHard)
  }

  /** A pass over a VM: look, ask a VM that is there to go, and confirm. */
  ghost predicate IsPass(made: seq<Call>, r: Result<bool, PassResult>, vmId: int, deleteHard: bool) {
    && made != [] && IsLook(made[0], vmId)
    && if Verdict(made[0].reply, true) != Success(false) then |made| == 1 && r == Verdict(made[0].reply, true)
       else Requested(made[1..], r, made[0].reply, vmId, deleteHard)
  }

  // ---------------------------------------------------------------- what a pass means

  /** A class of errors that asks for another try, or ends the deprovisioning with that class. */
  lemma RetriesExactly(kind: ErrorClass)
    ensures FailureOf(kind) == if IsTemporary(kind) then RetryLater else Fails(kind)
    ensures IsTemporary(kind) <==> kind !in {ErrorClass.NotFound, Auth, Policy, Terminal}
  {
  }

  predicate IsTemporary(kind: ErrorClass) {
    kind == ErrorClass.Retryable || kind == Quota || kind == ErrorClass.Unknown
  }

  /** Calls of one pass: all to one VM, forced only in hard mode and after a listed state was seen. */
  ghost predicate Proper(calls: seq<Call>, vmId: int, deleteHard: bool) {
    forall k :: 0 <= k < |calls| ==> ProperAt(calls, k, vmId, deleteHard)
  }

  predicate ProperAt(calls: seq<Call>, k: nat, vmId: int, deleteHard: bool)
    requires k < |calls|
  {
    && calls[k].vmId == vmId
    && (calls[k].TerminateCall? ==> calls[k].hard == deleteHard)
    && (calls[k].ForceDeleteCall? ==>
          k > 0 && calls[k - 1].GetVMCall? && VmRequiresForceDelete(calls[k - 1].reply, deleteHard))
  }

  /** The last call saw the VM missing or done. */
  ghost predicate SawGone(calls: seq<Call>, vmId: int) {
    |calls| > 0 && IsLook(calls[|calls| - 1], vmId) && IsGone(calls[|calls| - 1].reply)
  }

  /** What the last answer says about the outcome. */
  predicate Concludes(last: Call, r: Result<bool, PassResult>) {
    match r
    case Success(true) => last.GetVMCall? && IsGone(last.reply)
    case Success(false) => last.GetVMCall? && last.reply.Info?
    case Failure(e) => Refused(last.reply) && e == FailureOf(last.reply.kind)
  }

  /**
   However a pass goes, its result is what the last answer says, and deleted means seen missing or
   done. A VM seen done after the second request for deletion counts only in the next pass.
   */
  lemma PassMeans(made: seq<Call>, r: Result<bool, PassResult>, vmId: int, deleteHard: bool)
    requires IsPass(made, r, vmId, deleteHard)
    ensures 1 <= |made| <= 5 && Proper(made, vmId, deleteHard)
    ensures Concludes(made[|made| - 1], r) && (r == Success(true) ==> SawGone(made, vmId))
    ensures r == Success(true) ==>
      var last := made[|made| - 1];
      && last.GetVMCall? && last.vmId == vmId
      && (last.reply == Error(ErrorClass.NotFound)
          || (last.reply.Info? && EqualFold(TrimSpace(last.reply.state), "DONE")))
    ensures IsGone(made[0].reply) ==> r == Success(true)
    ensures r.Failure? ==> r.error != Done
    ensures r == Success(false) ==> |made| >= 3
  {
    hide NormalizeState, EqualFold;
    GoneExactly(made[|made| - 1].reply);
    if Verdict(made[0].reply, true) == Success(false) && !Refused(made[1].reply) {
      assert made[1..][1..] == made[2..];
    }
  }

  // ---------------------------------------------------------------- deleting a VM, call by call

  method TerminateVM(client: Client, machine: MachineState, vmId: int, deleteHard: bool)
    returns (failure: Option<PassResult>)
    modifies client, machine`lastRetry
    ensures client.calls == old(client.calls) + [TerminateCall(vmId, deleteHard, client.replies(|old(client.calls)|))]
    ensures var reply := client.replies(|old(client.calls)|);
            && failure == (if Refused(reply) then Some(FailureOf(reply.kind)) else None)
            && (failure == None <==> reply.Info? || reply == Error(ErrorClass.NotFound))
            && (failure.Some? ==> failure.value == if IsTemporary(reply.kind) then RetryLater else Fails(reply.kind))
            && machine.lastRetry == if reply.Error? then ClassName(reply.kind) else old(machine.lastRetry)
  {
    var reply := client.TerminateVM(vmId, deleteHard);
    if reply.Error? {
      machine.lastRetry := ClassName(reply.kind);
      if reply.kind.NotFound? {
        return None;
      }
      if IsRetryableClass(reply.kind) {
        return Some(RetryLater);
      }
      return Some(Fails(reply.kind));
    }
    failure := None;
  }

  method ForceDeleteVM(client: Client, machine: MachineState, vmId: int) returns (failure: Option<PassResult>)
    modifies client, machine`lastRetry
    ensures client.calls == old(client.calls) + [ForceDeleteCall(vmId, client.replies(|old(client.calls)|))]
    ensures var reply := client.replies(|old(client.calls)|);
            && failure == (if Refused(reply) then Some(FailureOf(reply.kind)) else None)
            && (failure == None <==> reply.Info? || reply == Error(ErrorClass.NotFound))
            && (failure.Some? ==> failure.value == if IsTemporary(reply.kind) then RetryLater else Fails(reply.kind))
            && machine.lastRetry == if reply.Error? then ClassName(reply.kind) else old(machine.lastRetry)
  {
    var reply := client.ForceDeleteVM(vmId);
    if reply.Error? {
      machine.lastRetry := ClassName(reply.kind);
      if reply.kind.NotFound? {
        return None;
      }
      if IsRetryableClass(reply.kind) {
        return Some(RetryLater);
      }
      return Some(Fails(reply.kind));
    }
    failure := None;
  }

  /** Asks for the VM; `settled` when the answer alone ends the pass. */
  method Observe(client: Client, machine: MachineState, vmId: int, doneCounts: bool)
    returns (reply: Reply, settled: Option<Result<bool, PassResult>>)
    modifies client, machine`lastRetry
    ensures reply == client.replies(|old(client.calls)|)
    ensures client.calls == old(client.calls) + [GetVMCall(vmId, reply)]
    ensures settled == if Verdict(reply, doneCounts) == Success(false) then None else Some(Verdict(reply, doneCounts))
    ensures settled == Some(Success(true)) <==>
      || reply == Error(ErrorClass.NotFound)
      || (doneCounts && reply.Info? && EqualFold(TrimSpace(reply.state), "DONE"))
    ensures reply.Error? && reply != Error(ErrorClass.NotFound) ==>
      settled == Some(Failure(if IsTemporary(reply.kind) then RetryLater else Fails(reply.kind)))
    ensures machine.lastRetry == if reply.Error? then ClassName(reply.kind) else old(machine.lastRetry)
  {
    hide EqualFold, TrimSpace, NormalizeState;
    reply := client.GetVM(vmId);
    GoneExactly(reply);
    if reply.Error? {
      machine.lastRetry := ClassName(reply.kind);
      if reply.kind.NotFound? {
        return reply, Some(Success(true));
      }
      if IsRetryableClass(reply.kind) {
        return reply, Some(Failure(RetryLater));
      }
      return reply, Some(Failure(Fails(reply.kind)));
    }
    if doneCounts && VmIsTerminallyDeleted(reply) {
      return reply, Some(Success(true));
    }
    settled := None;
  }

  method RequestDeletion(client: Client, machine: MachineState, vmId: int, deleteHard: bool, seen: Reply)
    returns (failure: Option<PassResult>, ghost call: Call)
    modifies client, machine`lastRetry
    ensures client.calls == old(client.calls) + [call] && call.reply == client.replies(|old(client.calls)|)
    ensures IsDeletion(call, seen, vmId, deleteHard)
    ensures failure == if Refused(call.reply) then Some(FailureOf(call.reply.kind)) else None
  {
    hide NormalizeState;
    if VmRequiresForceDelete(seen, deleteHard) {
      failure := ForceDeleteVM(client, machine, vmId);
      call := ForceDeleteCall(vmId, client.replies(|client.calls| - 1));
    } else {
      failure := TerminateVM(client, machine, vmId, deleteHard);
      call := TerminateCall(vmId, deleteHard, client.replies(|client.calls| - 1));
    }
  }

  /** Asks for the deletion of a VM that was `seen`, then looks again. */
  method DeleteAndConfirm(client: Client, machine: MachineState, vmId: int, deleteHard: bool, seen: Reply)
    returns (r: Result<bool, PassResult>, ghost made: seq<Call>)
    modifies client, machine`lastRetry
    ensures client.calls == old(client.calls) + made
    ensures Answered(made, client.replies, |old(client.calls)|)
    ensures Requested(made, r, seen, vmId, deleteHard)
  {
    hide NormalizeState, FailureOf, IsDeletion, Confirmed;
    var failure;
    ghost var call;
    failure, call := RequestDeletion(client, machine, vmId, deleteHard, seen);
    if failure.Some? {
      return Failure(failure.value), [call];
    }
    ghost var rest;
    r, rest := ConfirmDeleted(client, machine, vmId, deleteHard);
    made := [call] + rest;
    assert made[1..] == rest;
  }

  /** The second half of `ensureVMDeleted`: look again, and in hard mode force a VM that is stuck. */
  method ConfirmDeleted(client: Client, machine: MachineState, vmId: int, deleteHard: bool)
    returns (r: Result<bool, PassResult>, ghost made: seq<Call>)
    modifies client, machine`lastRetry
    ensures client.calls == old(client.calls) + made
    ensures Answered(made, client.replies, |old(client.calls)|)
    ensures Confirmed(made, r, vmId, deleteHard)
  {
    hide NormalizeState, FailureOf, VmIsTerminallyDeleted, VmRequiresForceDelete, EqualFold, TrimSpace;
    var reply, settled := Observe(client, machine, vmId, true);
    made := [GetVMCall(vmId, reply)];
    if settled.Some? {
      return settled.value, made;
    }
    if VmRequiresForceDelete(reply, deleteHard) {
      var failure := ForceDeleteVM(client, machine, vmId);
      made := made + [ForceDeleteCall(vmId, client.replies(|client.calls| - 1))];
      if failure.Some? {
        return Failure(failure.value), made;
      }
      reply, settled := Observe(client, machine, vmId, false);
      made := made + [GetVMCall(vmId, reply)];
      if settled.Some? {
        return settled.value, made;
      }
    }
    r := Success(false);
  }

  method EnsureVMDeleted(client: Client, machine: MachineState, vmId: int, deleteHard: bool)
    returns (r: Result<bool, PassResult>, ghost made: seq<Call>)
    modifies client, machine`lastRetry
    ensures client.calls == old(client.calls) + made
    ensures Answered(made, client.replies, |old(client.calls)|)
    ensures IsPass(made, r, vmId, deleteHard)
    ensures r == Success(true) ==>
      && made != [] && made[|made| - 1].GetVMCall? && made[|made| - 1].vmId == vmId
      && var reply := made[|made| - 1].reply;
         reply == Error(ErrorClass.NotFound) || (reply.Info? && EqualFold(TrimSpace(reply.state), "DONE"))
  {
    hide NormalizeState, FailureOf, Requested, EqualFold, TrimSpace;
    var reply, settled := Observe(client, machine, vmId, true);
    ghost var seen := GetVMCall(vmId, reply);
    if settled.Some? {
      return settled.value, [seen];
    }
    ghost var rest;
    r, rest := DeleteAndConfirm(client, machine, vmId, deleteHard, reply);
    made := [seen] + rest;
    assert made[1..] == rest;
    PassMeans(made, r, vmId, deleteHard);
  }

  // ---------------------------------------------------------------- deprovisioning

  method ClearProvisionedState(machine: MachineState)
    modifies machine
    ensures machine.View() == Cleared(old(machine.View()))
    ensures machine.deleteMode == "" && machine.lastRetry == "" && machine.provisioned == NOT_PROVISIONED
    ensures machine.uuid == old(machine.uuid) && machine.vmId == 0 && machine.sequenceNumber == 0
    ensures machine.vmName == machine.clusterName == machine.clusterPrefix == machine.nodeRole == ""
    ensures machine.reservationId == ""
  {
    machine.lastRetry := "";
    machine.vmId := 0;
    machine.provisioned := NOT_PROVISIONED;
    machine.deleteMode := "";
    machine.vmName, machine.clusterName, machine.clusterPrefix, machine.nodeRole := "", "", "", "";
    machine.sequenceNumber := 0;
    machine.reservationId := "";
  }

  /** Nothing of what identifies the machine, its VM or its name has changed. */
  twostate predicate Untouched(machine: MachineState)
    reads machine
  {
    && machine.View() == old(machine.View())
    && machine.deleteMode == old(machine.deleteMode)
    && machine.provisioned == old(machine.provisioned)
  }

  /** Deprovisioning from `at` on, once `deleted` says what became of the VM; without a VM it counts as deleted. */
  ghost predicate Deprovisioned(omni: OmniState, at: Remote, was: Machine, deleted: Result<bool, PassResult>,
                                end: Remote, now: Machine, r: PassResult)
  {
    if deleted == Success(true) then
      exists failure ::
        && Released(omni, at, was, end, failure)
        && r == (if failure == None then Done else RetryLater)
        && now == (if failure == None then Cleared(was) else was)
    else
      && end == at && now == was
      && r == (if deleted.Success? then RetryLater else deleted.error)
  }

  /** All or nothing: the machine is cleared after VM and reservation are gone, or keeps all it needs to try again. */
  method DeprovisionMachine(client: Client, omni: OmniState?, machine: MachineState, data: RequestData,
                            hardDelete: bool)
    returns (r: PassResult, ghost made: seq<Call>)
    modifies client, machine, if omni == null then {} else {omni}
    ensures client.calls == old(client.calls) + made
    ensures made == [] <==> old(machine.vmId) == 0
    // with a VM the pass decides, without one the release follows at once
    ensures omni != null && old(machine.vmId) == 0 ==>
      Deprovisioned(omni, old(omni.View()), old(machine.View()), Success(true), omni.View(), machine.View(), r)
    ensures old(machine.vmId) != 0 ==>
      && Answered(made, client.replies, |old(client.calls)|)
      && exists deleted ::
           && IsPass(made, deleted, old(machine.vmId), ResolveDeleteMode(old(machine.deleteMode), data, hardDelete))
           && (omni != null ==>
                 Deprovisioned(omni, old(omni.View()), old(machine.View()), deleted, omni.View(), machine.View(), r))
    // success: the VM was seen to be gone, the reservation was destroyed after that, the machine is blank
    ensures r == Done && old(machine.vmId) != 0 ==>
      && made != [] && made[|made| - 1].GetVMCall? && made[|made| - 1].vmId == old(machine.vmId)
      && var reply := made[|made| - 1].reply;
         reply == Error(ErrorClass.NotFound) || (reply.Info? && EqualFold(TrimSpace(reply.state), "DONE"))
    ensures r == Done ==>
      && (old(machine.vmId) == 0 || SawGone(made, old(machine.vmId)))
      && machine.View() == Cleared(old(machine.View()))
      && machine.deleteMode == "" && machine.provisioned == NOT_PROVISIONED
      && (omni != null && old(machine.reservationId) != "" ==>
            omni.reservations == ApplyOp(old(omni.Next()), DestroyOp(old(machine.reservationId))))
    // a machine without a reservation id has the one with its UUID destroyed
    ensures r == Done && omni != null && old(machine.reservationId) == "" && machine.uuid != ""
            && OwnsAny(old(omni.Next()), machine.uuid) && "" !in old(omni.Next()) ==>
      exists id ::
        && Owns(old(omni.Next()), id, machine.uuid)
        && omni.reservations == Effect(omni.outcome(old(omni.clock) + 1),
                                       ApplyAll(old(omni.Next()), omni.others(old(omni.clock) + 1)), DestroyOp(id))
        && id !in omni.reservations
    // a machine that was cleared before stays as it is, and so does the store
    ensures r == Done && omni != null && old(machine.View()) == Cleared(old(machine.View()))
            && !OwnsAny(old(omni.Next()), machine.uuid) ==>
      && machine.View() == old(machine.View()) && made == []
      && omni.reservations == if machine.uuid == "" then old(omni.reservations) else old(omni.Next())
    // anything else: the machine still knows its VM and its name
    ensures r != Done ==> Untouched(machine)
    // a VM not seen to be gone leaves the store alone
    ensures omni != null && old(machine.vmId) != 0 && !SawGone(made, old(machine.vmId)) ==>
      omni.reservations == old(omni.reservations) && omni.clock == old(omni.clock)
    // with the VM gone and the store working, the pass succeeds
    ensures (old(machine.vmId) == 0 || IsGone(client.replies(|old(client.calls)|)))
            && (omni != null ==> omni.outcome(old(omni.clock)).Works? && omni.outcome(old(omni.clock) + 1).Works?)
            ==> r == Done
  {
    hide Proper, ProperAt, NormalizeState, Concludes, Released, ApplyAll, EqualFold, TrimSpace, IsPass,
         ResolveDeleteMode, FailureOf;
    var vmId := machine.vmId;
    made := [];
    if vmId != 0 {
      var deleteHard := ResolveDeleteMode(machine.deleteMode, data, hardDelete);
      var deleted;
      deleted, made := EnsureVMDeleted(client, machine, vmId, deleteHard);
      PassMeans(made, deleted, vmId, deleteHard);
      if deleted.Failure? {
        return deleted.error, made;
      }
      if !deleted.value {
        return RetryLater, made;
      }
    }
    var failure := ReleaseReservation(omni, machine);
    if failure.Some? {
      return RetryLater, made;
    }
    ClearProvisionedState(machine);
    r := Done;
  }
}
