/**
 The values the allocator works on: name reservations, the naming part of a machine's state, and
 the choice of the next ordinal (`internal/pkg/provider/allocator.go`).
 */
module Reservations {
  import opened Wrappers
  import opened Naming
  import Varint

  datatype NameReservation = NameReservation(
    clusterName: string,
    clusterPrefix: string,
    role: string,
    ordinal: int,
    vmName: string,
    machineRequestId: string,
    machineUuid: string,
    stateResourceId: string)

  type Store = map<string, NameReservation>

  /** What a machine's state resource records about its name and its VM. */
  datatype Machine = Machine(
    uuid: string,
    vmId: int,
    vmName: string,
    clusterName: string,
    clusterPrefix: string,
    nodeRole: string,
    sequenceNumber: int,
    reservationId: string)

  const NEW_MACHINE := Machine("", 0, "", "", "", "", 0, "")

  // ---------------------------------------------------------------- ordinals

  /** The positive ordinals taken for a prefix and role. */
  function UsedOrdinals(store: Store, clusterPrefix: string, role: string): set<int> {
    set id | id in store && Matches(store[id], clusterPrefix, role) :: store[id].ordinal
  }

  predicate Matches(r: NameReservation, clusterPrefix: string, role: string) {
    r.clusterPrefix == clusterPrefix && r.role == role && r.ordinal > 0
  }

  /** The reservations that take an ordinal of a prefix and role. */
  function MatchingIds(store: Store, clusterPrefix: string, role: string): set<string> {
    set id | id in store && Matches(store[id], clusterPrefix, role)
  }

  ghost predicate IsLeastFree(n: int, used: set<int>) {
    n >= 1 && n !in used && forall k :: 1 <= k < n ==> k in used
  }

  /** Only |used| ordinals can be passed over. */
  lemma {:induction false} PassedOver(used: set<int>, n: nat)
    requires forall k :: 1 <= k <= n ==> k in used
    ensures n <= |used|
  {
    if n == 0 {
    } else {
      assert forall k :: 1 <= k <= n - 1 ==> k in used - {n};
      PassedOver(used - {n}, n - 1);
    }
  }

  function LeastFreeFrom(used: set<int>, n: nat): (r: nat)
    requires 1 <= n && forall k :: 1 <= k < n ==> k in used
    ensures IsLeastFree(r, used) && r <= |used| + 1
    decreases |used| + 1 - n
  {
    PassedOver(used, n - 1);
    if n !in used then n
    else
      assert forall k :: 1 <= k <= n ==> k in used;
      PassedOver(used, n);
      LeastFreeFrom(used, n + 1)
  }

  function NextOrdinal(store: Store, clusterPrefix: string, role: string): (n: nat)
    ensures IsLeastFree(n, UsedOrdinals(store, clusterPrefix, role))
  {
    LeastFreeFrom(UsedOrdinals(store, clusterPrefix, role), 1)
  }

  /** The next ordinal exceeds the number of matching reservations by at most one. */
  lemma NextOrdinalBound(store: Store, clusterPrefix: string, role: string)
    ensures NextOrdinal(store, clusterPrefix, role) <= |MatchingIds(store, clusterPrefix, role)| + 1
    ensures |MatchingIds(store, clusterPrefix, role)| <= |store|
  {
    UsedAtMost(store, clusterPrefix, role);
    assert MatchingIds(store, clusterPrefix, role) <= store.Keys;
    SubsetSize(MatchingIds(store, clusterPrefix, role), store.Keys);
  }

  lemma {:induction false} SubsetSize<T>(a: set<T>, b: set<T>)
    requires a <= b
    ensures |a| <= |b|
  {
    assert b == a + (b - a);
  }

  lemma {:induction false} ImageSize(store: Store, ids: set<string>)
    requires forall id :: id in ids ==> id in store
    ensures |set id | id in ids :: store[id].ordinal| <= |ids|
    decreases |ids|
  {
    var image := set id | id in ids :: store[id].ordinal;
    if ids == {} {
    } else {
      var id :| id in ids;
      ImageSize(store, ids - {id});
      var rest := set j | j in ids - {id} :: store[j].ordinal;
      assert image == rest + {store[id].ordinal};
    }
  }

  lemma UsedAtMost(store: Store, clusterPrefix: string, role: string)
    ensures |UsedOrdinals(store, clusterPrefix, role)| <= |MatchingIds(store, clusterPrefix, role)|
  {
    var matching := MatchingIds(store, clusterPrefix, role);
    ImageSize(store, matching);
    assert UsedOrdinals(store, clusterPrefix, role) == set id | id in matching :: store[id].ordinal;
  }

  /** With fewer than 2^31 - 1 reservations the int32 fields hold the ordinal. */
  lemma NextOrdinalIsInt32(store: Store, clusterPrefix: string, role: string)
    requires |store| < 0x7FFF_FFFF
    ensures var n := NextOrdinal(store, clusterPrefix, role); Varint.ToInt32(n) == n
  {
    NextOrdinalBound(store, clusterPrefix, role);
  }

  /** With at most 9998 matching reservations every allocated name is a host label. */
  lemma AllocatedNameFits(store: Store, clusterPrefix: string, role: string)
    requires |clusterPrefix| <= 57 && IsRole(role)
    requires |MatchingIds(store, clusterPrefix, role)| <= 9998
    ensures |SequenceVMName(clusterPrefix, role, NextOrdinal(store, clusterPrefix, role))| <= 63
  {
    NextOrdinalBound(store, clusterPrefix, role);
    SequenceVMNameFits(clusterPrefix, role, NextOrdinal(store, clusterPrefix, role));
  }

  // ---------------------------------------------------------------- reservations

  /** The store invariant: every id spells its own prefix, role and ordinal. */
  ghost predicate IdMatches(id: string, r: NameReservation) {
    && IsRole(r.role)
    && r.ordinal > 0
    && id == ReservationResourceID(r.clusterPrefix, r.role, r.ordinal)
    && r.vmName == SequenceVMName(r.clusterPrefix, r.role, r.ordinal)
  }

  ghost predicate IdsMatch(store: Store) {
    forall id :: id in store ==> IdMatches(id, store[id])
  }

  predicate Owns(store: Store, id: string, uuid: string) {
    id in store && store[id].machineUuid == uuid
  }

  ghost predicate OwnsAny(store: Store, uuid: string) {
    exists id :: Owns(store, id, uuid)
  }

  /** The id of the next ordinal is free in the listing it was computed from. */
  lemma NextIdIsFree(store: Store, clusterPrefix: string, role: string)
    requires IdsMatch(store) && IsRole(role)
    ensures ReservationResourceID(clusterPrefix, role, NextOrdinal(store, clusterPrefix, role)) !in store
  {
    var n := NextOrdinal(store, clusterPrefix, role);
    var id := ReservationResourceID(clusterPrefix, role, n);
    if id in store {
      var r := store[id];
      assert IdMatches(id, r);
      assert r.ordinal in UsedOrdinals(store, r.clusterPrefix, r.role);
      ReservationResourceIDInjective(clusterPrefix, role, n, r.clusterPrefix, r.role, r.ordinal);
    }
  }

  /** Of all ids of a prefix and role, in ascending order, that of `n` is the first not in the listing. */
  ghost predicate IsFirstFreeId(listing: Store, clusterPrefix: string, role: string, n: nat) {
    && n >= 1 && ReservationResourceID(clusterPrefix, role, n) !in listing
    && forall k: nat :: 1 <= k < n ==> ReservationResourceID(clusterPrefix, role, k) in listing
  }

  /** Which reservations count for an ordinal is which ids are taken. */
  lemma {:induction false} NextOrdinalIsFirstFree(store: Store, clusterPrefix: string, role: string)
    requires IdsMatch(store) && IsRole(role)
    ensures IsFirstFreeId(store, clusterPrefix, role, NextOrdinal(store, clusterPrefix, role))
  {
    hide ReservationResourceID, SequenceVMName;
    var n := NextOrdinal(store, clusterPrefix, role);
    NextIdIsFree(store, clusterPrefix, role);
    forall k: nat | 1 <= k < n ensures ReservationResourceID(clusterPrefix, role, k) in store {
      assert k in UsedOrdinals(store, clusterPrefix, role);
      var id :| id in store && Matches(store[id], clusterPrefix, role) && store[id].ordinal == k;
      assert IdMatches(id, store[id]);
    }
  }

  /** Two reservations never carry the same VM name. */
  lemma NamesAreDistinct(store: Store, id: string, id': string)
    requires IdsMatch(store) && id in store && id' in store && store[id].vmName == store[id'].vmName
    ensures id == id'
  {
    var r, r' := store[id], store[id'];
    assert IdMatches(id, r) && IdMatches(id', r');
    SameNameSameReservation(r.clusterPrefix, r.role, r.ordinal, r'.clusterPrefix, r'.role, r'.ordinal);
  }

  /** The reservation an allocation attempt tries to create. */
  function NewReservation(clusterName: string, clusterPrefix: string, role: string, ordinal: nat,
                          requestId: string, uuid: string, machineId: string): NameReservation
  {
    NameReservation(clusterName, clusterPrefix, role, Varint.ToInt32(ordinal),
                    SequenceVMName(clusterPrefix, role, ordinal), requestId, uuid, machineId)
  }

  /** `applyReservation`: the machine takes over what the reservation says. */
  function Applied(m: Machine, id: string, r: NameReservation): Machine {
    m.(clusterName := r.clusterName, clusterPrefix := r.clusterPrefix, nodeRole := r.role,
       sequenceNumber := r.ordinal, reservationId := id, vmName := r.vmName)
  }

  /** Whether the machine still knows enough to recreate its reservation. */
  predicate CanRecreate(m: Machine) {
    m.clusterPrefix != "" && m.nodeRole != "" && m.sequenceNumber > 0
  }

  function RecreatedId(m: Machine): string
    requires CanRecreate(m)
  {
    ReservationResourceID(m.clusterPrefix, m.nodeRole, m.sequenceNumber)
  }

  /** `recreateReservation`: the reservation rebuilt from the machine. */
  function Recreated(m: Machine, uuid: string, machineId: string): NameReservation {
    NameReservation(m.clusterName, m.clusterPrefix, m.nodeRole, m.sequenceNumber, m.vmName, machineId, uuid, machineId)
  }

  /** `clearProvisionedState`: the UUID stays. */
  function Cleared(m: Machine): Machine {
    NEW_MACHINE.(uuid := m.uuid)
  }

  /**
   A reservation lost after it was applied is recreated under its id with the naming fields and the
   owner it had; only the request id is replaced by the id of the state resource.
   */
  lemma RecreateRestores(m: Machine, id: string, r: NameReservation)
    requires IdMatches(id, r) && r.clusterPrefix != ""
    ensures var m' := Applied(m, id, r);
            && CanRecreate(m')
            && RecreatedId(m') == id
            && Recreated(m', r.machineUuid, r.stateResourceId) == r.(machineRequestId := r.stateResourceId)
  {
  }
}
