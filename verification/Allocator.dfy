/**
 Allocation, recovery and release of VM names against the shared store of name reservations
 (`internal/pkg/provider/allocator.go`).

 Other workers use the same store. `others(k)` is what they do to it between operation k - 1 and
 operation k of this worker, and `outcome(k)` is what happens to operation k itself.
 */
module Allocator {
  import opened Wrappers
  import opened Naming
  import opened Reservations

  datatype StoreError = NotFound | Conflict | Unavailable

  /** An operation can also fail after it has taken effect, when only its reply is lost. */
  datatype Outcome = Works | FailsBefore | FailsAfter

  datatype AllocationError =
    | NoOmniState
    | StoreFailed(error: StoreError)
    | RequestFailed
    | BadClusterName(prefixError: PrefixError)
    | TooManyConflicts

  datatype StoreOp = CreateOp(id: string, r: NameReservation) | DestroyOp(id: string)

  function ApplyOp(store: Store, op: StoreOp): Store {
    match op
    case CreateOp(id, r) => if id in store then store else store[id := r]
    case DestroyOp(id) => store - {id}
  }

  function ApplyAll(store: Store, ops: seq<StoreOp>): Store
    decreases |ops|
  {
    if ops == [] then store else ApplyAll(ApplyOp(store, ops[0]), ops[1..])
  }

  /** How many creates of a window take effect. */
  function Landed(store: Store, ops: seq<StoreOp>): nat
    decreases |ops|
  {
    if ops == [] then 0
    else
      (if ops[0].CreateOp? && ops[0].id !in store then 1 else 0) + Landed(ApplyOp(store, ops[0]), ops[1..])
  }

  ghost predicate OpsMatch(ops: seq<StoreOp>) {
    forall k :: 0 <= k < |ops| && ops[k].CreateOp? ==> IdMatches(ops[k].id, ops[k].r)
  }

  lemma {:induction false} ApplyAllKeepsIds(store: Store, ops: seq<StoreOp>)
    requires IdsMatch(store) && OpsMatch(ops)
    ensures IdsMatch(ApplyAll(store, ops))
    decreases |ops|
  {
    if ops == [] {
    } else {
      ApplyAllKeepsIds(ApplyOp(store, ops[0]), ops[1..]);
    }
  }

  /** An id can only turn up if somebody's create landed. */
  lemma {:induction false} CreatedMeanwhile(store: Store, ops: seq<StoreOp>, id: string)
    requires id !in store && id in ApplyAll(store, ops)
    ensures Landed(store, ops) >= 1
    decreases |ops|
  {
    if ops[0].CreateOp? && ops[0].id !in store {
    } else {
      CreatedMeanwhile(ApplyOp(store, ops[0]), ops[1..], id);
    }
  }

  /** The store after the windows `from .. from + n`, when this worker changes nothing itself. */
  ghost function Later(store: Store, others: nat -> seq<StoreOp>, from: nat, n: nat): Store {
    if n == 0 then store else ApplyAll(Later(store, others, from, n - 1), others(from + n - 1))
  }

  /** How many creates of others landed between listing and creating in the first `attempts` attempts. */
  ghost function LandedInWindows(store: Store, others: nat -> seq<StoreOp>, from: nat, attempts: nat): nat {
    if attempts == 0 then 0
    else
      var n := 2 * attempts - 1;
      LandedInWindows(store, others, from, attempts - 1) + Landed(Later(store, others, from, n), others(from + n))
  }

  // ---------------------------------------------------------------- the store

  /** The store as this worker last saw it, and how many operations it has made. */
  datatype Remote = Remote(store: Store, clock: nat)

  class OmniState {
    var reservations: Store
    var clock: nat
    const others: nat -> seq<StoreOp>
    const outcome: nat -> Outcome

    function View(): Remote
      reads this
    {
      Remote(reservations, clock)
    }

    /** The store as the next operation finds it. */
    function Next(): Store
      reads this
    {
      ApplyAll(reservations, others(clock))
    }

    /** Every id in the store, and every id others will create, spells its reservation. */
    ghost predicate Valid()
      reads this
    {
      IdsMatch(reservations) && forall k {:trigger others(k)} :: OpsMatch(others(k))
    }

    constructor (reservations: Store, others: nat -> seq<StoreOp>, outcome: nat -> Outcome)
      ensures this.reservations == reservations && this.clock == 0
      ensures this.others == others && this.outcome == outcome
    {
      this.reservations, this.clock, this.others, this.outcome := reservations, 0, others, outcome;
    }

    method List() returns (r: Result<Store, StoreError>)
      modifies this
      ensures clock == old(clock) + 1 && reservations == old(Next())
      ensures r == if outcome(old(clock)).Works? then Success(reservations) else Failure(Unavailable)
    {
      reservations := Next();
      r := if outcome(clock).Works? then Success(reservations) else Failure(Unavailable);
      clock := clock + 1;
    }

    method Get(id: string) returns (r: Result<NameReservation, StoreError>)
      modifies this
      ensures clock == old(clock) + 1 && reservations == old(Next())
      ensures r == if !outcome(old(clock)).Works? then Failure(Unavailable)
                   else if id in reservations then Success(reservations[id]) else Failure(NotFound)
    {
      var listing := List();
      r := match listing
        case Failure(e) => Failure(e)
        case Success(store) => if id in store then Success(store[id]) else Failure(NotFound);
    }

    method Create(id: string, reservation: NameReservation) returns (failure: Option<StoreError>)
      modifies this
      ensures clock == old(clock) + 1
      ensures reservations == Effect(outcome(old(clock)), old(Next()), CreateOp(id, reservation))
      ensures failure == if !outcome(old(clock)).Works? then Some(Unavailable)
                         else if id in old(Next()) then Some(Conflict) else None
    {
      var found := Next();
      reservations := Effect(outcome(clock), found, CreateOp(id, reservation));
      failure := if !outcome(clock).Works? then Some(Unavailable) else if id in found then Some(Conflict) else None;
      clock := clock + 1;
    }

    method Destroy(id: string) returns (failure: Option<StoreError>)
      modifies this
      ensures clock == old(clock) + 1
      ensures reservations == Effect(outcome(old(clock)), old(Next()), DestroyOp(id))
      ensures failure == if !outcome(old(clock)).Works? then Some(Unavailable)
                         else if id in old(Next()) then None else Some(NotFound)
    {
      var found := Next();
      reservations := Effect(outcome(clock), found, DestroyOp(id));
      failure := if !outcome(clock).Works? then Some(Unavailable) else if id in found then None else Some(NotFound);
      clock := clock + 1;
    }
  }

  function Effect(outcome: Outcome, store: Store, op: StoreOp): Store {
    if outcome.FailsBefore? then store else ApplyOp(store, op)
  }

  /** The store as the operation after `at` finds it. */
  ghost function Met(omni: OmniState, at: Remote): Store {
    ApplyAll(at.store, omni.others(at.clock))
  }

  /** What an operation that only reads leaves behind. */
  ghost function Read(omni: OmniState, at: Remote): Remote {
    Remote(Met(omni, at), at.clock + 1)
  }

  /** Whether the operation after `at` works. */
  ghost predicate Serves(omni: OmniState, at: Remote) {
    omni.outcome(at.clock).Works?
  }

  // ---------------------------------------------------------------- the machine's state resource

  /** The remaining fields that provisioning fills and deprovisioning clears. */
  datatype Provisioned = Provisioned(
    templateName: string,
    templateId: int,
    imageId: int,
    imageName: string,
    imageSource: string,
    imageChecksum: string,
    datastore: string,
    flavor: string,
    networkNames: seq<string>,
    schematicId: string,
    talosVersion: string)

  const NOT_PROVISIONED := Provisioned("", 0, 0, "", "", "", "", "", [], "", "")

  class MachineState {
    const id: string
    var uuid: string
    var vmId: int
    var vmName: string
    var clusterName: string
    var clusterPrefix: string
    var nodeRole: string
    var sequenceNumber: int
    var reservationId: string
    var deleteMode: string
    var lastRetry: string
    var provisioned: Provisioned

    constructor (id: string)
      ensures this.id == id && View() == NEW_MACHINE
    {
      this.id := id;
      uuid, vmId, vmName, clusterName, clusterPrefix := "", 0, "", "", "";
      nodeRole, sequenceNumber, reservationId := "", 0, "";
      deleteMode, lastRetry, provisioned := "", "", NOT_PROVISIONED;
    }

    function View(): Machine
      reads this
    {
      Machine(uuid, vmId, vmName, clusterName, clusterPrefix, nodeRole, sequenceNumber, reservationId)
    }

    method ApplyReservation(reservationId: string, r: NameReservation)
      modifies this
      ensures View() == Applied(old(View()), reservationId, r)
      ensures clusterName == r.clusterName && clusterPrefix == r.clusterPrefix && nodeRole == r.role
      ensures sequenceNumber == r.ordinal && vmName == r.vmName && this.reservationId == reservationId
      ensures uuid == old(uuid) && vmId == old(vmId)
    {
      clusterName, clusterPrefix, nodeRole := r.clusterName, r.clusterPrefix, r.role;
      sequenceNumber := r.ordinal;
      this.reservationId := reservationId;
      vmName := r.vmName;
    }
  }

  // ---------------------------------------------------------------- the next ordinal

  ghost function OrdinalsOf(reservations: Store, ids: set<string>, clusterPrefix: string, role: string): set<int>
    requires ids <= reservations.Keys
  {
    set id | id in ids && Matches(reservations[id], clusterPrefix, role) :: reservations[id].ordinal
  }

  lemma OneMore(reservations: Store, ids: set<string>, id: string, clusterPrefix: string, role: string)
    requires ids <= reservations.Keys && id in reservations
    ensures OrdinalsOf(reservations, ids + {id}, clusterPrefix, role)
         == OrdinalsOf(reservations, ids, clusterPrefix, role)
            + if Matches(reservations[id], clusterPrefix, role) then {reservations[id].ordinal} else {}
  {
  }

  lemma OrdinalsOfAll(reservations: Store, clusterPrefix: string, role: string)
    ensures OrdinalsOf(reservations, {}, clusterPrefix, role) == {}
    ensures OrdinalsOf(reservations, reservations.Keys, clusterPrefix, role) ==
            UsedOrdinals(reservations, clusterPrefix, role)
  {
  }

  /** Some reservation of the prefix and the role has the ordinal, which is positive. */
  ghost predicate Takes(reservations: Store, clusterPrefix: string, role: string, n: int) {
    n > 0 && exists id ::
      && id in reservations && reservations[id].ordinal == n
      && reservations[id].clusterPrefix == clusterPrefix && reservations[id].role == role
  }

  lemma OrdinalsAreTaken(reservations: Store, clusterPrefix: string, role: string)
    ensures forall n: int :: n in UsedOrdinals(reservations, clusterPrefix, role) <==>
      Takes(reservations, clusterPrefix, role, n)
  {
  }

  lemma LeastFreeIsUnique(used: set<int>, n: int, m: int)
    requires IsLeastFree(n, used) && IsLeastFree(m, used)
    ensures n == m
  {
  }

  /** The first loop of `nextAvailableOrdinal`: the listing is walked in no particular order. */
  method CollectUsed(reservations: Store, clusterPrefix: string, role: string) returns (used: set<int>)
    ensures used == UsedOrdinals(reservations, clusterPrefix, role)
    ensures forall n: int :: n in used <==> Takes(reservations, clusterPrefix, role, n)
  {
    OrdinalsAreTaken(reservations, clusterPrefix, role);
    hide UsedOrdinals, OrdinalsOf, Takes;
    OrdinalsOfAll(reservations, clusterPrefix, role);
    used := {};
    var left := reservations.Keys;
    ghost var done: set<string> := {};
    while left != {}
      invariant done + left == reservations.Keys
      invariant used == OrdinalsOf(reservations, done, clusterPrefix, role)
    {
      var id :| id in left;
      var r := reservations[id];
      if r.clusterPrefix == clusterPrefix && r.role == role && r.ordinal > 0 {
        used := used + {r.ordinal};
      }
      OneMore(reservations, done, id, clusterPrefix, role);
      left, done := left - {id}, done + {id};
    }
    assert done == reservations.Keys;
  }

  method NextAvailableOrdinal(reservations: Store, clusterPrefix: string, role: string) returns (ordinal: nat)
    ensures IsLeastFree(ordinal, UsedOrdinals(reservations, clusterPrefix, role))
    ensures ordinal == NextOrdinal(reservations, clusterPrefix, role)
    ensures !Takes(reservations, clusterPrefix, role, ordinal) && ordinal >= 1
    ensures forall k :: 1 <= k < ordinal ==> Takes(reservations, clusterPrefix, role, k)
    ensures IdsMatch(reservations) && IsRole(role) ==> IsFirstFreeId(reservations, clusterPrefix, role, ordinal)
    ensures ordinal <= |MatchingIds(reservations, clusterPrefix, role)| + 1
  {
    hide UsedOrdinals, NextOrdinal, MatchingIds, Takes, IsFirstFreeId, IdsMatch, IsRole;
    var used := CollectUsed(reservations, clusterPrefix, role);
    ordinal := 1;
    while ordinal in used
      invariant 1 <= ordinal && forall k :: 1 <= k < ordinal ==> k in used
      invariant ordinal <= |used| + 1
      decreases |used| + 1 - ordinal
    {
      PassedOver(used, ordinal);
      ordinal := ordinal + 1;
    }
    LeastFreeIsUnique(used, ordinal, NextOrdinal(reservations, clusterPrefix, role));
    NextOrdinalBound(reservations, clusterPrefix, role);
    if IdsMatch(reservations) && IsRole(role) {
      NextOrdinalIsFirstFree(reservations, clusterPrefix, role);
    }
  }

  // ---------------------------------------------------------------- allocation

  /** What a worker knows about the request whose machine it names. */
  datatype Request = Request(id: string, clusterName: string, role: string)

  /** The id, and the reservation, that an allocation derives from one listing. */
  function WantedId(listing: Store, clusterPrefix: string, role: string): string {
    ReservationResourceID(clusterPrefix, role, NextOrdinal(listing, clusterPrefix, role))
  }

  function Wanted(listing: Store, request: Request, clusterPrefix: string, uuid: string,
                  machineId: string): NameReservation {
    NewReservation(request.clusterName, clusterPrefix, request.role,
                   NextOrdinal(listing, clusterPrefix, request.role), request.id, uuid, machineId)
  }

  lemma {:induction false} LaterSplits(store: Store, others: nat -> seq<StoreOp>, from: nat, n: nat, m: nat)
    ensures Later(store, others, from, n + m) == Later(Later(store, others, from, n), others, from + n, m)
  {
    if m == 0 {
    } else {
      LaterSplits(store, others, from, n, m - 1);
    }
  }

  /** Storing the wanted reservation keeps the store invariant as long as ordinals fit an int32. */
  lemma WantedKeepsIds(listing: Store, found: Store, request: Request, clusterPrefix: string, uuid: string,
                       machineId: string)
    requires IdsMatch(found) && IsRole(request.role) && |listing| < 0x7FFF_FFFF
    ensures IdsMatch(ApplyOp(found, CreateOp(WantedId(listing, clusterPrefix, request.role),
                                             Wanted(listing, request, clusterPrefix, uuid, machineId))))
  {
    NextOrdinalIsInt32(listing, clusterPrefix, request.role);
  }

  lemma LaterNext(store: Store, others: nat -> seq<StoreOp>, from: nat, n: nat)
    ensures Later(store, others, from, 0) == store
    ensures Later(store, others, from, n + 1) == ApplyAll(Later(store, others, from, n), others(from + n))
  {
  }

  lemma {:induction false} LaterKeepsIds(store: Store, others: nat -> seq<StoreOp>, from: nat, n: nat)
    requires IdsMatch(store) && forall k {:trigger others(k)} :: OpsMatch(others(k))
    ensures IdsMatch(Later(store, others, from, n))
  {
    if n == 0 {
    } else {
      LaterKeepsIds(store, others, from, n - 1);
      assert OpsMatch(others(from + n - 1));
      ApplyAllKeepsIds(Later(store, others, from, n - 1), others(from + n - 1));
    }
  }

  /** One attempt more, lost to a conflict over `id`. */
  lemma ConflictMeansLanded(store: Store, others: nat -> seq<StoreOp>, from: nat, attempt: nat, id: string)
    requires id !in Later(store, others, from, 2 * attempt + 1) && id in Later(store, others, from, 2 * attempt + 2)
    ensures LandedInWindows(store, others, from, attempt + 1) >= LandedInWindows(store, others, from, attempt) + 1
  {
    var n := 2 * attempt + 1;
    assert 2 * (attempt + 1) - 1 == n;
    CreatedMeanwhile(Later(store, others, from, n), others(from + n), id);
  }

  /** The machine and the store after an allocation whose listing was `listing` and whose create met `found`. */
  ghost predicate Allocated(listing: Store, found: Store, after: Store, request: Request, clusterPrefix: string,
                            uuid: string, machineId: string, was: Machine, now: Machine, vmName: string)
  {
    var id := WantedId(listing, clusterPrefix, request.role);
    var reservation := Wanted(listing, request, clusterPrefix, uuid, machineId);
    && id !in found
    && after == found[id := reservation]
    && vmName == reservation.vmName
    && now.(vmName := vmName) == Applied(was, id, reservation)
    && now.vmName == was.vmName
  }

  /** The name taken is the first free one of the listing, and the stored reservation says whose it is. */
  ghost predicate NamedFirstFree(listing: Store, after: Store, request: Request, clusterPrefix: string, uuid: string,
                                 machineId: string, now: Machine, vmName: string)
  {
    exists n: nat ::
      && IsFirstFreeId(listing, clusterPrefix, request.role, n)
      && now.reservationId == ReservationResourceID(clusterPrefix, request.role, n)
      && vmName == SequenceVMName(clusterPrefix, request.role, n)
      && now.clusterName == request.clusterName && now.clusterPrefix == clusterPrefix && now.nodeRole == request.role
      && (|listing| < 0x7FFF_FFFF ==> now.sequenceNumber == n)
      && now.reservationId in after
      && var r := after[now.reservationId];
         && r.clusterName == request.clusterName && r.clusterPrefix == clusterPrefix && r.role == request.role
         && r.vmName == vmName && r.machineRequestId == request.id && r.machineUuid == uuid
         && r.stateResourceId == machineId && r.ordinal == now.sequenceNumber
  }

  lemma {:induction false} AllocatedIsFirstFree(listing: Store, found: Store, after: Store, request: Request,
                                                clusterPrefix: string, uuid: string, machineId: string, was: Machine,
                                                now: Machine, vmName: string)
    requires Allocated(listing, found, after, request, clusterPrefix, uuid, machineId, was, now, vmName)
    requires IdsMatch(listing) && IsRole(request.role)
    ensures NamedFirstFree(listing, after, request, clusterPrefix, uuid, machineId, now, vmName)
  {
    hide ReservationResourceID, SequenceVMName, IdsMatch, NextOrdinal;
    NextOrdinalIsFirstFree(listing, clusterPrefix, request.role);
    if |listing| < 0x7FFF_FFFF {
      NextOrdinalIsInt32(listing, clusterPrefix, request.role);
    }
    var n := NextOrdinal(listing, clusterPrefix, request.role);
    assert Applied(was, WantedId(listing, clusterPrefix, request.role),
                   Wanted(listing, request, clusterPrefix, uuid, machineId)).sequenceNumber == now.sequenceNumber;
  }

  lemma AllocatedAfterCreate(listing: Store, found: Store, request: Request, clusterPrefix: string, uuid: string,
                             machineId: string, was: Machine, now: Machine)
    requires var id := WantedId(listing, clusterPrefix, request.role);
             var reservation := Wanted(listing, request, clusterPrefix, uuid, machineId);
             && id !in found
             && now == was.(clusterName := request.clusterName, clusterPrefix := clusterPrefix,
                            nodeRole := request.role, sequenceNumber := reservation.ordinal, reservationId := id)
    ensures var id := WantedId(listing, clusterPrefix, request.role);
            var reservation := Wanted(listing, request, clusterPrefix, uuid, machineId);
            Allocated(listing, found, ApplyOp(found, CreateOp(id, reservation)), request, clusterPrefix, uuid,
                      machineId, was, now, reservation.vmName)
  {
  }

  /** One round of the retry loop, from `at` and `was` to `end` and `now`. */
  ghost predicate Tried(omni: OmniState, at: Remote, request: Request, clusterPrefix: string, uuid: string,
                        machineId: string, was: Machine, end: Remote, now: Machine, r: Result<string, StoreError>)
  {
    var next := Read(omni, at);
    var found := Met(omni, next);
    var id := WantedId(next.store, clusterPrefix, request.role);
    var create := CreateOp(id, Wanted(next.store, request, clusterPrefix, uuid, machineId));
    if !Serves(omni, at) then r == Failure(Unavailable) && end == next && now == was
    else
      && end.clock == at.clock + 2
      && if !Serves(omni, next) then
           r == Failure(Unavailable) && end.store == Effect(omni.outcome(next.clock), found, create) && now == was
         else if id in found then
           r == Failure(Conflict) && end.store == found && now == was && id !in next.store
         else
           && r.Success?
           && Allocated(next.store, found, end.store, request, clusterPrefix, uuid, machineId, was, now, r.value)
  }

  /** One round of the retry loop: list, pick the least free ordinal, try to create. */
  method TryAllocate(omni: OmniState, machine: MachineState, request: Request, clusterPrefix: string,
                     machineUuid: string)
    returns (r: Result<string, StoreError>)
    requires omni.Valid() && IsRole(request.role)
    modifies omni, machine
    ensures Tried(omni, old(omni.View()), request, clusterPrefix, machineUuid, machine.id,
                  old(machine.View()), omni.View(), machine.View(), r)
    ensures r == Failure(Conflict) || (r.Success? && |old(omni.Next())| < 0x7FFF_FFFF) ==> omni.Valid()
    ensures machine.uuid == old(machine.uuid) && machine.vmId == old(machine.vmId)
  {
    hide NextOrdinal, SequenceVMName, ReservationResourceID, IdMatches, IsRole, ApplyAll, UsedOrdinals, MatchingIds,
         Allocated, Takes, IsFirstFreeId, IsLeastFree;
    assert OpsMatch(omni.others(omni.clock)) && OpsMatch(omni.others(omni.clock + 1));
    ApplyAllKeepsIds(omni.reservations, omni.others(omni.clock));
    var listed := omni.List();
    if listed.Failure? {
      return Failure(listed.error);
    }
    var reservations := listed.value;
    var ordinal := NextAvailableOrdinal(reservations, clusterPrefix, request.role);
    var reservationID := ReservationResourceID(clusterPrefix, request.role, ordinal);
    var reservation := NewReservation(request.clusterName, clusterPrefix, request.role, ordinal,
                                      request.id, machineUuid, machine.id);
    NextIdIsFree(reservations, clusterPrefix, request.role);
    ghost var found := omni.Next();
    ApplyAllKeepsIds(reservations, omni.others(omni.clock));
    var failure := omni.Create(reservationID, reservation);
    if failure.Some? {
      return Failure(failure.value);
    }
    if |reservations| < 0x7FFF_FFFF {
      WantedKeepsIds(reservations, found, request, clusterPrefix, machineUuid, machine.id);
    }
    machine.clusterName, machine.clusterPrefix, machine.nodeRole := request.clusterName, clusterPrefix, request.role;
    machine.sequenceNumber := reservation.ordinal;
    machine.reservationId := reservationID;
    AllocatedAfterCreate(reservations, found, request, clusterPrefix, machineUuid, machine.id,
                         old(machine.View()), machine.View());
    r := Success(reservation.vmName);
  }

  /** The attempt that starts with operation `at.clock + 2 * attempt` lost its id between list and create. */
  ghost predicate Conflicted(omni: OmniState, at: Remote, attempt: nat, clusterPrefix: string, role: string) {
    var n := 2 * attempt;
    var listing, found := Later(at.store, omni.others, at.clock, n + 1), Later(at.store, omni.others, at.clock, n + 2);
    && omni.outcome(at.clock + n).Works? && omni.outcome(at.clock + n + 1).Works?
    && WantedId(listing, clusterPrefix, role) !in listing && WantedId(listing, clusterPrefix, role) in found
  }

  /** The whole retry loop: some conflicts, and one attempt that ends otherwise unless there were 32. */
  ghost predicate Allocation(omni: OmniState, at: Remote, request: Request, clusterPrefix: string, uuid: string,
                             machineId: string, was: Machine, end: Remote, now: Machine,
                             r: Result<string, AllocationError>, conflicts: nat)
  {
    && conflicts <= 32
    && (forall i :: 0 <= i < conflicts ==> Conflicted(omni, at, i, clusterPrefix, request.role))
    && var last := Remote(Later(at.store, omni.others, at.clock, 2 * conflicts), at.clock + 2 * conflicts);
       if conflicts == 32 then r == Failure(TooManyConflicts) && end == last && now == was
       else match r
         case Success(vmName) => Tried(omni, last, request, clusterPrefix, uuid, machineId, was, end, now,
                                       Success(vmName))
         case Failure(e) =>
           && e == StoreFailed(Unavailable)
           && Tried(omni, last, request, clusterPrefix, uuid, machineId, was, end, now, Failure(Unavailable))
  }

  /** What one attempt comes to, seen from the start of the loop. */
  lemma TriedMeans(omni: OmniState, at: Remote, attempt: nat, request: Request, clusterPrefix: string, uuid: string,
                   machineId: string, was: Machine, end: Remote, now: Machine, r: Result<string, StoreError>)
    requires var before := Remote(Later(at.store, omni.others, at.clock, 2 * attempt), at.clock + 2 * attempt);
             Tried(omni, before, request, clusterPrefix, uuid, machineId, was, end, now, r)
    ensures r == Failure(Conflict) ==>
      && Conflicted(omni, at, attempt, clusterPrefix, request.role) && now == was
      && end == Remote(Later(at.store, omni.others, at.clock, 2 * (attempt + 1)), at.clock + 2 * (attempt + 1))
      && LandedInWindows(at.store, omni.others, at.clock, attempt + 1)
           >= LandedInWindows(at.store, omni.others, at.clock, attempt) + 1
    ensures r.Success? ==>
      && Allocated(Later(at.store, omni.others, at.clock, 2 * attempt + 1),
                   Later(at.store, omni.others, at.clock, 2 * attempt + 2), end.store, request, clusterPrefix, uuid,
                   machineId, was, now, r.value)
      && now.uuid == was.uuid && now.vmId == was.vmId
    ensures r.Failure? ==> now == was && r.error != NotFound
    ensures r == Failure(Unavailable) ==>
      exists k: nat :: at.clock + 2 * attempt <= k <= at.clock + 2 * attempt + 1 && !omni.outcome(k).Works?
  {
    hide Later, LandedInWindows, NextOrdinal, ReservationResourceID, SequenceVMName, ApplyAll;
    LaterNext(at.store, omni.others, at.clock, 2 * attempt);
    LaterNext(at.store, omni.others, at.clock, 2 * attempt + 1);
    if r == Failure(Conflict) {
      var listing := Later(at.store, omni.others, at.clock, 2 * attempt + 1);
      ConflictMeansLanded(at.store, omni.others, at.clock, attempt, WantedId(listing, clusterPrefix, request.role));
      assert 2 * (attempt + 1) == 2 * attempt + 2;
    }
  }

  /**
   The retry loop. `conflicts` counts the attempts that met a conflict. The loop gives up only when
   at least 32 creates of others landed inside its own list-to-create windows; when it succeeds it
   adds exactly the reservation for the least free ordinal of its last listing, over no other.
   */
  method AllocateName(omni: OmniState, machine: MachineState, request: Request, clusterPrefix: string,
                      machineUuid: string)
    returns (r: Result<string, AllocationError>, ghost conflicts: nat)
    requires omni.Valid() && IsRole(request.role)
    modifies omni, machine
    ensures Allocation(omni, old(omni.View()), request, clusterPrefix, machineUuid, machine.id,
                       old(machine.View()), omni.View(), machine.View(), r, conflicts)
    ensures conflicts <= 32
    ensures LandedInWindows(old(omni.reservations), omni.others, old(omni.clock), conflicts) >= conflicts
    ensures r == Failure(TooManyConflicts) <==> conflicts == 32
    ensures r == Failure(TooManyConflicts) ==>
      omni.reservations == Later(old(omni.reservations), omni.others, old(omni.clock), 64)
    ensures r.Success? ==>
      var listing := Later(old(omni.reservations), omni.others, old(omni.clock), 2 * conflicts + 1);
      var found := Later(old(omni.reservations), omni.others, old(omni.clock), 2 * conflicts + 2);
      && Allocated(listing, found, omni.reservations, request, clusterPrefix, machineUuid, machine.id,
                   old(machine.View()), machine.View(), r.value)
      && NamedFirstFree(listing, omni.reservations, request, clusterPrefix, machineUuid, machine.id,
                        machine.View(), r.value)
      && (|listing| < 0x7FFF_FFFF ==> omni.Valid())
    ensures r.Failure? ==> machine.View() == old(machine.View())
    ensures r.Failure? && r.error != TooManyConflicts ==>
      && r.error == StoreFailed(Unavailable)
      && exists k: nat :: old(omni.clock) <= k < old(omni.clock) + 64 && !omni.outcome(k).Works?
    ensures machine.uuid == old(machine.uuid) && machine.vmId == old(machine.vmId)
  {
    hide Later, LandedInWindows, WantedId, Wanted, Allocated, ApplyAll, IsRole, IdsMatch, OpsMatch, Tried, Conflicted,
         NamedFirstFree;
    conflicts := 0;
    ghost var at := omni.View();
    LaterNext(at.store, omni.others, at.clock, 0);
    assert LandedInWindows(at.store, omni.others, at.clock, 0) >= 0;
    for attempt := 0 to 32
      invariant conflicts == attempt
      invariant omni.View() == Remote(Later(at.store, omni.others, at.clock, 2 * attempt), at.clock + 2 * attempt)
      invariant LandedInWindows(at.store, omni.others, at.clock, attempt) >= attempt
      invariant forall i :: 0 <= i < attempt ==> Conflicted(omni, at, i, clusterPrefix, request.role)
      invariant omni.Valid()
      invariant machine.View() == old(machine.View())
    {
      LaterNext(at.store, omni.others, at.clock, 2 * attempt);
      var tried := TryAllocate(omni, machine, request, clusterPrefix, machineUuid);
      TriedMeans(omni, at, attempt, request, clusterPrefix, machineUuid, machine.id,
                 old(machine.View()), omni.View(), machine.View(), tried);
      if tried == Failure(Conflict) {
        conflicts := conflicts + 1;
        continue;
      }
      if tried.Success? {
        LaterKeepsIds(at.store, omni.others, at.clock, 2 * attempt + 1);
        AllocatedIsFirstFree(Later(at.store, omni.others, at.clock, 2 * attempt + 1),
                             Later(at.store, omni.others, at.clock, 2 * attempt + 2), omni.reservations, request,
                             clusterPrefix, machineUuid, machine.id, old(machine.View()), machine.View(), tried.value);
      }
      r := match tried case Failure(e) => Failure(StoreFailed(e)) case Success(vmName) => Success(vmName);
      return;
    }
    r := Failure(TooManyConflicts);
  }

  // ---------------------------------------------------------------- recovery

  /** The first reservation of a listing with the given machine UUID; listings have no fixed order. */
  method FindByUuid(reservations: Store, machineUuid: string) returns (found: Option<string>)
    ensures match found
            case Some(id) => Owns(reservations, id, machineUuid)
            case None => !OwnsAny(reservations, machineUuid)
  {
    var left := reservations.Keys;
    while left != {}
      invariant forall id :: id in reservations && id !in left ==> reservations[id].machineUuid != machineUuid
    {
      var id :| id in left;
      if id in reservations && reservations[id].machineUuid == machineUuid {
        return Some(id);
      }
      left := left - {id};
    }
    found := None;
  }

  /**
   Rebuilds a lost reservation. A conflict is swallowed: on success the id is in the store, but it is
   this machine's reservation only if nobody else had taken the id (`RecreatedOverNobody`).
   */
  method RecreateReservation(omni: OmniState, machine: MachineState, machineUuid: string)
    returns (r: Result<string, StoreError>)
    requires CanRecreate(machine.View())
    modifies omni, machine
    ensures omni.clock == old(omni.clock) + 1
    ensures Recreates(old(omni.Next()), omni.reservations, omni.outcome(old(omni.clock)), machine.id, machineUuid,
                      old(machine.View()), machine.View(), r)
    ensures r.Success? ==>
      && r.value == machine.vmName
      && machine.reservationId == ReservationResourceID(machine.clusterPrefix, machine.nodeRole, machine.sequenceNumber)
      && (machine.reservationId !in old(omni.Next()) ==> IsRebuilt(omni.reservations, machine.View(), machineUuid,
                                                                   machine.id))
    ensures machine.View() == old(machine.View()).(reservationId := machine.reservationId)
  {
    var reservationID := ReservationResourceID(machine.clusterPrefix, machine.nodeRole, machine.sequenceNumber);
    var reservation := NameReservation(machine.clusterName, machine.clusterPrefix, machine.nodeRole,
                                       machine.sequenceNumber, machine.vmName, machine.id, machineUuid, machine.id);
    var failure := omni.Create(reservationID, reservation);
    if failure.Some? && failure != Some(Conflict) {
      return Failure(failure.value);
    }
    machine.reservationId := reservationID;
    r := Success(machine.vmName);
  }

  /** The reservation the machine holds says of it what the machine knows. */
  ghost predicate IsRebuilt(store: Store, m: Machine, uuid: string, machineId: string) {
    && m.reservationId in store
    && var r := store[m.reservationId];
       && r.clusterName == m.clusterName && r.clusterPrefix == m.clusterPrefix && r.role == m.nodeRole
       && r.ordinal == m.sequenceNumber && r.vmName == m.vmName
       && r.machineUuid == uuid && r.machineRequestId == machineId && r.stateResourceId == machineId
  }

  /** The machine knows of its name what the reservation it holds says. */
  ghost predicate NamedBy(store: Store, m: Machine) {
    && m.reservationId in store
    && var r := store[m.reservationId];
       && m.clusterName == r.clusterName && m.clusterPrefix == r.clusterPrefix && m.nodeRole == r.role
       && m.sequenceNumber == r.ordinal && m.vmName == r.vmName
  }

  ghost predicate Recreates(before: Store, after: Store, outcome: Outcome, machineId: string, uuid: string,
                            was: Machine, now: Machine, r: Result<string, StoreError>)
    requires CanRecreate(was)
  {
    && after == Effect(outcome, before, CreateOp(RecreatedId(was), Recreated(was, uuid, machineId)))
    && (if outcome.Works? then
          && r == Success(was.vmName)
          && now == was.(reservationId := RecreatedId(was))
          && RecreatedId(was) in after
        else r == Failure(Unavailable) && now == was)
  }

  /** What loading leaves behind when the reservation the machine held is still stored. */
  ghost predicate Reloaded(store: Store, was: Machine, now: Machine, r: Result<Option<string>, StoreError>) {
    && now.reservationId in store
    && now == Applied(was, now.reservationId, store[now.reservationId])
    && r == Success(Some(store[now.reservationId].vmName))
  }

  /** A recreation as one operation after `at`. */
  ghost predicate Recreation(omni: OmniState, at: Remote, uuid: string, machineId: string, was: Machine,
                             end: Remote, now: Machine, r: Result<Option<string>, StoreError>)
    requires CanRecreate(was)
  {
    && end.clock == at.clock + 1
    && exists made ::
         && r == Wrapped(made)
         && Recreates(Met(omni, at), end.store, omni.outcome(at.clock), machineId, uuid, was, now, made)
  }

  /** Recovery by UUID, from `at` and `was` to `end` and `now`. */
  ghost predicate ByUuid(omni: OmniState, at: Remote, uuid: string, machineId: string, was: Machine,
                         end: Remote, now: Machine, r: Result<Option<string>, StoreError>)
  {
    var next := Read(omni, at);
    if uuid == "" then end == at && now == was && r == Success(None)
    else if !Serves(omni, at) then end == next && now == was && r == Failure(Unavailable)
    else if OwnsAny(next.store, uuid) then
      end == next && Reloaded(next.store, was, now, r) && Owns(next.store, now.reservationId, uuid)
    else if was.vmName != "" && CanRecreate(was) then Recreation(omni, next, uuid, machineId, was, end, now, r)
    else end == next && now == was && r == Success(None)
  }

  /** The search for an existing reservation: by the id the machine holds, then by its UUID. */
  ghost predicate Loaded(omni: OmniState, at: Remote, uuid: string, machineId: string, was: Machine,
                         end: Remote, now: Machine, r: Result<Option<string>, StoreError>)
  {
    var next := Read(omni, at);
    if was.reservationId == "" then ByUuid(omni, at, uuid, machineId, was, end, now, r)
    else if !Serves(omni, at) then end == next && now == was && r == Failure(Unavailable)
    else if was.reservationId in next.store then
      end == next && Reloaded(next.store, was, now, r) && now.reservationId == was.reservationId
    else if CanRecreate(was) then Recreation(omni, next, uuid, machineId, was, end, now, r)
    else ByUuid(omni, next, uuid, machineId, was, end, now, r)
  }

  function Wrapped(r: Result<string, StoreError>): Result<Option<string>, StoreError> {
    match r
    case Success(vmName) => Success(Some(vmName))
    case Failure(e) => Failure(e)
  }

  /** Recovery by UUID, once the machine's own reservation id was no help. */
  method LoadByUuid(omni: OmniState, machine: MachineState, machineUuid: string)
    returns (r: Result<Option<string>, StoreError>)
    modifies omni, machine
    ensures ByUuid(omni, old(omni.View()), machineUuid, machine.id, old(machine.View()), omni.View(), machine.View(), r)
  {
    if machineUuid == "" {
      return Success(None);
    }
    var listed := omni.List();
    if listed.Failure? {
      return Failure(listed.error);
    }
    var found := FindByUuid(listed.value, machineUuid);
    if found.Some? {
      machine.ApplyReservation(found.value, listed.value[found.value]);
      return Success(Some(machine.vmName));
    }
    if machine.vmName != "" && machine.clusterPrefix != "" && machine.nodeRole != "" && machine.sequenceNumber > 0 {
      var made := RecreateReservation(omni, machine, machineUuid);
      return Wrapped(made);
    }
    r := Success(None);
  }

  /**
   A stored reservation the machine holds is taken over as it stands; a lost one is recreated from
   the machine; without either the store is searched for the machine's UUID.
   */
  method LoadExistingReservation(omni: OmniState, machine: MachineState, machineUuid: string)
    returns (r: Result<Option<string>, StoreError>)
    modifies omni, machine
    ensures Loaded(omni, old(omni.View()), machineUuid, machine.id, old(machine.View()), omni.View(), machine.View(), r)
  {
    hide ByUuid, Recreates, IdMatches;
    if machine.reservationId != "" {
      var got := omni.Get(machine.reservationId);
      if got.Success? {
        machine.ApplyReservation(machine.reservationId, got.value);
        return Success(Some(got.value.vmName));
      }
      if got.error != NotFound {
        return Failure(got.error);
      }
      if machine.clusterPrefix != "" && machine.nodeRole != "" && machine.sequenceNumber > 0 {
        var made := RecreateReservation(omni, machine, machineUuid);
        return Wrapped(made);
      }
    }
    r := LoadByUuid(omni, machine, machineUuid);
  }

  /**
   What the search comes to. A reservation that is held, or else one with the machine's UUID, is
   taken over and nothing is added; nothing found means that the machine could not have been helped;
   a failure leaves the machine as it was.
   */
  lemma LoadedMeans(omni: OmniState, at: Remote, uuid: string, machineId: string, was: Machine,
                    end: Remote, now: Machine, r: Result<Option<string>, StoreError>)
    requires Loaded(omni, at, uuid, machineId, was, end, now, r)
    ensures Serves(omni, at) && (if was.reservationId != "" then was.reservationId in Met(omni, at)
                                 else uuid != "" && OwnsAny(Met(omni, at), uuid)) ==>
      NamedBy(end.store, now) && r == Success(Some(now.vmName))
    ensures r.Success? && r.value.Some? &&
            (was.clusterPrefix == "" || was.nodeRole == "" || was.sequenceNumber <= 0) ==>
      NamedBy(end.store, now) && r == Success(Some(now.vmName))
    ensures Serves(omni, at) && was.reservationId != "" && was.reservationId !in Met(omni, at) && r.Success?
            && was.clusterPrefix != "" && was.nodeRole != "" && was.sequenceNumber > 0 ==>
      && r == Success(Some(was.vmName))
      && now == was.(reservationId := ReservationResourceID(was.clusterPrefix, was.nodeRole, was.sequenceNumber))
      && now.reservationId in end.store
      && (now.reservationId !in Met(omni, Read(omni, at)) ==> IsRebuilt(end.store, now, uuid, machineId))
    ensures Serves(omni, at) && was.reservationId != "" && was.reservationId in Met(omni, at) ==>
      end.store == Met(omni, at) && Reloaded(end.store, was, now, r) && now.reservationId == was.reservationId
    ensures Serves(omni, at) && was.reservationId == "" && uuid != "" && OwnsAny(Met(omni, at), uuid) ==>
      end.store == Met(omni, at) && Reloaded(end.store, was, now, r) && Owns(end.store, now.reservationId, uuid)
    ensures was.reservationId == "" && !CanRecreate(was) && (uuid == "" || !OwnsAny(Met(omni, at), uuid)) ==>
      r == Success(None) || r.Failure?
    ensures r == Success(None) ==>
      && now == was && !(was.vmName != "" && uuid != "" && CanRecreate(was))
      && (uuid != "" ==> !OwnsAny(end.store, uuid))
      && at.clock <= end.clock && end.store == Later(at.store, omni.others, at.clock, end.clock - at.clock)
    ensures r.Failure? ==> now == was && r.error == Unavailable
    ensures r.Success? && r.value.Some? ==> now.reservationId in end.store && now.vmName == r.value.value
    ensures now.uuid == was.uuid && now.vmId == was.vmId
  {
    LaterNext(at.store, omni.others, at.clock, 0);
    LaterNext(at.store, omni.others, at.clock, 1);
    hide ApplyAll, Later;
  }

  /**
   A successful recreation gives the machine its own reservation back exactly when nobody else's
   reservation has taken the id in the meantime.
   */
  lemma RecreatedOverNobody(before: Store, after: Store, outcome: Outcome, machineId: string, uuid: string,
                            was: Machine, now: Machine, r: Result<string, StoreError>)
    requires CanRecreate(was) && Recreates(before, after, outcome, machineId, uuid, was, now, r) && r.Success?
    ensures after[now.reservationId].machineUuid == uuid && after[now.reservationId].stateResourceId == machineId
       <==> (now.reservationId in before ==>
               before[now.reservationId].machineUuid == uuid && before[now.reservationId].stateResourceId == machineId)
    ensures forall id :: id in before ==> id in after && after[id] == before[id]
  {
  }

  // ---------------------------------------------------------------- the name of a machine

  /** A name allocated from scratch, starting from the store `s` at operation `from`. */
  ghost predicate FreshlyNamed(s: Store, others: nat -> seq<StoreOp>, from: nat, after: Store, request: Request,
                               uuid: string, machineId: string, was: Machine, now: Machine, vmName: string)
  {
    && NormalizedPrefix(request.clusterName).Success?
    && exists n: nat ::
         Allocated(Later(s, others, from, n), Later(s, others, from, n + 1), after, request,
                   NormalizedPrefix(request.clusterName).value, uuid, machineId, was, now, vmName)
  }

  /** At least 32 creates of others land inside 32 list-to-create windows, from some operation on. */
  ghost predicate Crowded(s: Store, others: nat -> seq<StoreOp>, from: nat) {
    exists n: nat :: LandedInWindows(Later(s, others, from, n), others, from + n, 32) >= 32
  }

  /** A name allocated after `n` operations that changed nothing is one allocated from the start. */
  lemma NamedFromLater(s: Store, others: nat -> seq<StoreOp>, from: nat, n: nat, k: nat, after: Store, request: Request,
                       clusterPrefix: string, uuid: string, machineId: string, was: Machine, now: Machine,
                       vmName: string)
    requires NormalizedPrefix(request.clusterName) == Success(clusterPrefix)
    requires var mid := Later(s, others, from, n);
             Allocated(Later(mid, others, from + n, k), Later(mid, others, from + n, k + 1), after, request,
                       clusterPrefix, uuid, machineId, was, now, vmName)
    ensures FreshlyNamed(s, others, from, after, request, uuid, machineId, was, now, vmName)
  {
    hide Later, Allocated, NormalizedPrefix;
    LaterSplits(s, others, from, n, k);
    LaterSplits(s, others, from, n, k + 1);
    var m: nat := n + k;
    assert m + 1 == n + (k + 1);
  }

  /** A name from scratch: the request, then its cluster name, then the retry loop may fail. */
  ghost predicate Scratch(omni: OmniState, at: Remote, lookup: Option<Request>, uuid: string, machineId: string,
                          was: Machine, end: Remote, now: Machine, r: Result<string, AllocationError>)
  {
    if lookup.None? then r == Failure(RequestFailed) && end == at && now == was
    else match NormalizedPrefix(lookup.value.clusterName)
      case Failure(e) => r == Failure(BadClusterName(e)) && end == at && now == was
      case Success(clusterPrefix) =>
        exists conflicts ::
          Allocation(omni, at, lookup.value, clusterPrefix, uuid, machineId, was, end, now, r, conflicts)
  }

  /** The search first, then, if it comes up with nothing, a name from scratch. */
  ghost predicate Resolved(omni: OmniState, at: Remote, lookup: Option<Request>, uuid: string, machineId: string,
                           was: Machine, end: Remote, now: Machine, r: Result<string, AllocationError>)
  {
    exists mid, found, loaded ::
      && Loaded(omni, at, uuid, machineId, was, mid, found, loaded)
      && match loaded
         case Failure(e) => r == Failure(StoreFailed(e)) && end == mid && now == found
         case Success(Some(vmName)) => r == Success(vmName) && end == mid && now == found
         case Success(None) => Scratch(omni, mid, lookup, uuid, machineId, found, end, now, r)
  }

  /** The part of `resolveVMName` behind the search for an existing reservation. */
  method NameFromScratch(omni: OmniState, machine: MachineState, lookup: Option<Request>, machineUuid: string)
    returns (r: Result<string, AllocationError>)
    requires omni.Valid() && (lookup.Some? ==> IsRole(lookup.value.role))
    modifies omni, machine
    ensures Scratch(omni, old(omni.View()), lookup, machineUuid, machine.id, old(machine.View()),
                    omni.View(), machine.View(), r)
    ensures r.Success? ==> lookup.Some? && forall s, from: nat, n: nat ::
      old(omni.reservations) == Later(s, omni.others, from, n) && old(omni.clock) == from + n ==>
        FreshlyNamed(s, omni.others, from, omni.reservations, lookup.value, machineUuid, machine.id,
                     old(machine.View()), machine.View(), r.value)
    ensures r.Failure? ==> machine.View() == old(machine.View())
    ensures machine.uuid == old(machine.uuid) && machine.vmId == old(machine.vmId)
    ensures r == Failure(TooManyConflicts) ==>
      LandedInWindows(old(omni.reservations), omni.others, old(omni.clock), 32) >= 32
  {
    hide Later, LandedInWindows, WantedId, IsRole, NormalizedPrefix, Allocated, FreshlyNamed, Allocation;
    if lookup.None? {
      return Failure(RequestFailed);
    }
    var normalized := NormalizeClusterPrefix(lookup.value.clusterName);
    if normalized.Failure? {
      return Failure(BadClusterName(normalized.error));
    }
    ghost var conflicts;
    r, conflicts := AllocateName(omni, machine, lookup.value, normalized.value, machineUuid);
    if r.Success? {
      forall s, from: nat, n: nat
        | old(omni.reservations) == Later(s, omni.others, from, n) && old(omni.clock) == from + n
        ensures FreshlyNamed(s, omni.others, from, omni.reservations, lookup.value, machineUuid, machine.id,
                             old(machine.View()), machine.View(), r.value)
      {
        NamedFromLater(s, omni.others, from, n, 2 * conflicts + 1, omni.reservations, lookup.value, normalized.value,
                       machineUuid, machine.id, old(machine.View()), machine.View(), r.value);
      }
    }
  }

  /**
   The strategy `cluster-role-sequence` names machines from the store, any other from the request id.
   `lookup` is what the request's labels and its machine set say about the cluster and the role.
   */
  method ResolveVMName(sequenceNames: bool, omni: OmniState?, machine: MachineState, requestId: string,
                       lookup: Option<Request>, machineUuid: string, hash: string -> string)
    returns (r: Result<string, AllocationError>)
    requires omni != null ==> omni.Valid()
    requires lookup.Some? ==> IsRole(lookup.value.role) && lookup.value.id == requestId
    modifies machine, if omni == null then {} else {omni}
    ensures !sequenceNames ==>
      && r == Success(Canonical(requestId, hash)) && machine.View() == old(machine.View())
      && (omni != null ==> omni.reservations == old(omni.reservations))
    ensures sequenceNames && omni == null ==> r == Failure(NoOmniState) && machine.View() == old(machine.View())
    ensures sequenceNames && omni != null ==>
      Resolved(omni, old(omni.View()), lookup, machineUuid, machine.id, old(machine.View()), omni.View(),
               machine.View(), r)
    // a reservation that is held, or that carries the machine's UUID, is found again and nothing is added
    ensures sequenceNames && omni != null && omni.outcome(old(omni.clock)).Works? ==>
      var was, found := old(machine.View()), old(omni.Next());
      if was.reservationId != "" then
        was.reservationId in found ==>
          && machine.View() == Applied(was, was.reservationId, found[was.reservationId])
          && r == Success(found[was.reservationId].vmName) && omni.reservations == found
      else
        machineUuid != "" && OwnsAny(found, machineUuid) ==>
          && machine.reservationId in found && found[machine.reservationId].machineUuid == machineUuid
          && machine.View() == Applied(was, machine.reservationId, found[machine.reservationId])
          && r == Success(found[machine.reservationId].vmName) && omni.reservations == found
    // a new machine gets the least free ordinal of a listing, over nobody's reservation
    ensures sequenceNames && omni != null && r.Success? && machineUuid != "" && old(machine.View()).reservationId == ""
            && !CanRecreate(old(machine.View())) && !OwnsAny(old(omni.Next()), machineUuid) ==>
      lookup.Some? && FreshlyNamed(old(omni.reservations), omni.others, old(omni.clock), omni.reservations,
                                   lookup.value, machineUuid, machine.id, old(machine.View()), machine.View(), r.value)
    ensures r.Failure? ==> machine.View() == old(machine.View())
    ensures machine.uuid == old(machine.uuid) && machine.vmId == old(machine.vmId)
    ensures r == Failure(TooManyConflicts) ==>
      omni != null && Crowded(old(omni.reservations), omni.others, old(omni.clock))
  {
    hide Later, LandedInWindows, FreshlyNamed, IdsMatch, IdMatches, OpsMatch, IsRole, Loaded, Scratch;
    if !sequenceNames {
      var canonical := CanonicalVMName(requestId, hash);
      return Success(canonical);
    }
    if omni == null {
      return Failure(NoOmniState);
    }
    ghost var s, from := omni.reservations, omni.clock;
    var existing := LoadExistingReservation(omni, machine, machineUuid);
    LoadedMeans(omni, old(omni.View()), machineUuid, machine.id, old(machine.View()), omni.View(), machine.View(),
                existing);
    match existing {
      case Failure(e) => return Failure(StoreFailed(e));
      case Success(Some(vmName)) => return Success(vmName);
      case Success(None) =>
    }
    ghost var n: nat := omni.clock - from;
    LaterKeepsIds(s, omni.others, from, n);
    r := NameFromScratch(omni, machine, lookup, machineUuid);
  }

  /** The name is resolved and, if that works, set last. */
  ghost predicate NameAssigned(omni: OmniState, at: Remote, lookup: Option<Request>, uuid: string, machineId: string,
                               was: Machine, end: Remote, now: Machine, r: Option<AllocationError>)
  {
    exists resolved, resolving ::
      && Resolved(omni, at, lookup, uuid, machineId, was, end, resolving, resolved)
      && (resolved.Failure? ==> r == Some(resolved.error) && now == resolving)
      && (resolved.Success? ==> r == None && now == resolving.(vmName := resolved.value))
  }

  /** The first provisioning step. The UUID is drawn once and kept, even when the step then fails. */
  method AssignMachineUUID(sequenceNames: bool, omni: OmniState?, machine: MachineState, requestId: string,
                           lookup: Option<Request>, freshUuid: string, hash: string -> string)
    returns (r: Option<AllocationError>)
    requires omni != null ==> omni.Valid()
    requires lookup.Some? ==> IsRole(lookup.value.role) && lookup.value.id == requestId
    modifies machine, if omni == null then {} else {omni}
    ensures machine.uuid == if old(machine.uuid) == "" then freshUuid else old(machine.uuid)
    ensures machine.vmId == old(machine.vmId)
    ensures r.Some? ==> machine.View() == old(machine.View()).(uuid := machine.uuid)
    ensures sequenceNames && omni != null ==>
      NameAssigned(omni, old(omni.View()), lookup, machine.uuid, machine.id, old(machine.View()).(uuid := machine.uuid),
                   omni.View(), machine.View(), r)
    ensures r.None? && !sequenceNames ==>
      machine.View() == old(machine.View()).(uuid := machine.uuid, vmName := Canonical(requestId, hash))
    // assigning again gives the same name, and the store keeps the one reservation
    ensures sequenceNames && omni != null && omni.outcome(old(omni.clock)).Works?
            && old(machine.reservationId) in old(omni.Next()) && old(machine.reservationId) != "" ==>
      var held := old(omni.Next())[old(machine.reservationId)];
      && r == None && omni.reservations == old(omni.Next())
      && machine.View() == Applied(old(machine.View()).(uuid := machine.uuid), old(machine.reservationId), held)
    // a reservation made before a crash is found by the UUID it was made for
    ensures sequenceNames && omni != null && omni.outcome(old(omni.clock)).Works? && old(machine.reservationId) == ""
            && machine.uuid != "" && OwnsAny(old(omni.Next()), machine.uuid) ==>
      && r == None && omni.reservations == old(omni.Next())
      && machine.reservationId in omni.reservations
      && omni.reservations[machine.reservationId].machineUuid == machine.uuid
      && machine.vmName == omni.reservations[machine.reservationId].vmName
  {
    hide Resolved;
    if machine.uuid == "" {
      machine.uuid := freshUuid;
    }
    var resolved := ResolveVMName(sequenceNames, omni, machine, requestId, lookup, machine.uuid, hash);
    ghost var now := machine.View();
    assert sequenceNames && omni != null ==>
      Resolved(omni, old(omni.View()), lookup, machine.uuid, machine.id, old(machine.View()).(uuid := machine.uuid),
               omni.View(), now, resolved);
    if resolved.Failure? {
      return Some(resolved.error);
    }
    machine.vmName := resolved.value;
    r := None;
    assert machine.View() == now.(vmName := resolved.value);
  }

  // ---------------------------------------------------------------- release

  /** Destroying a reservation as one operation after `at`; a missing one is no failure. */
  ghost predicate Destroyed(omni: OmniState, at: Remote, id: string, end: Remote, failure: Option<StoreError>) {
    && end == Remote(Effect(omni.outcome(at.clock), Met(omni, at), DestroyOp(id)), at.clock + 1)
    && failure == if Serves(omni, at) then None else Some(Unavailable)
  }

  /** A release from `at` to `end`. */
  ghost predicate Released(omni: OmniState, at: Remote, machine: Machine, end: Remote, failure: Option<StoreError>) {
    var next := Read(omni, at);
    if machine.reservationId != "" then Destroyed(omni, at, machine.reservationId, end, failure)
    else if machine.uuid == "" then end == at && failure == None
    else if !Serves(omni, at) then end == next && failure == Some(Unavailable)
    else if !OwnsAny(next.store, machine.uuid) then end == next && failure == None
    else
      exists id ::
        && Owns(next.store, id, machine.uuid)
        && if id == "" then end == next && failure == None else Destroyed(omni, next, id, end, failure)
  }

  /**
   Destroys the reservation the machine holds, or the one with its UUID. The id decides alone: the
   store is not asked whose reservation it is.
   */
  method ReleaseReservation(omni: OmniState?, machine: MachineState) returns (failure: Option<StoreError>)
    modifies omni
    ensures omni == null ==> failure == None
    ensures omni != null ==> Released(omni, old(omni.View()), machine.View(), omni.View(), failure)
    ensures omni != null && machine.reservationId != "" ==>
      && omni.reservations == Effect(omni.outcome(old(omni.clock)), old(omni.Next()), DestroyOp(machine.reservationId))
      && failure == (if omni.outcome(old(omni.clock)).Works? then None else Some(Unavailable))
    ensures omni != null && machine.reservationId == "" && machine.uuid == "" ==>
      failure == None && omni.reservations == old(omni.reservations)
    ensures omni != null && machine.reservationId == "" && machine.uuid != "" &&
            !OwnsAny(old(omni.Next()), machine.uuid) ==>
      omni.reservations == old(omni.Next())
    ensures omni != null && machine.reservationId == "" && machine.uuid != "" && omni.outcome(old(omni.clock)).Works?
            && OwnsAny(old(omni.Next()), machine.uuid) && "" !in old(omni.Next()) ==>
      exists id ::
        && Owns(old(omni.Next()), id, machine.uuid)
        && omni.reservations == Effect(omni.outcome(old(omni.clock) + 1),
                                       ApplyAll(old(omni.Next()), omni.others(old(omni.clock) + 1)), DestroyOp(id))
        && failure == (if omni.outcome(old(omni.clock) + 1).Works? then None else Some(Unavailable))
    ensures omni != null && failure == None && machine.reservationId != "" ==>
      machine.reservationId !in omni.reservations
    ensures omni != null && failure == None && (machine.reservationId != "" || machine.uuid != "") ==>
      omni.outcome(old(omni.clock)).Works?
    ensures failure.Some? ==>
      && failure == Some(Unavailable) && omni != null
      && (!omni.outcome(old(omni.clock)).Works? || !omni.outcome(old(omni.clock) + 1).Works?)
  {
    if omni == null {
      return None;
    }
    var reservationID := machine.reservationId;
    if reservationID == "" && machine.uuid != "" {
      var listed := omni.List();
      if listed.Failure? {
        return Some(listed.error);
      }
      var found := FindByUuid(listed.value, machine.uuid);
      if found.Some? {
        reservationID := found.value;
      }
    }
    if reservationID == "" {
      return None;
    }
    failure := omni.Destroy(reservationID);
    if failure == Some(NotFound) {
      failure := None;
    }
  }
}
