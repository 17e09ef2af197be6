/**
 Reservations that are removed from outside, at any point, and releases that are done but never saved.
 As long as nobody's create takes a lost or freed id that its machine still uses, the state with the
 lost reservations put back stays sound. `LifecycleBoundary.SwallowedConflictBreaksSafety` and
 `LifecycleBoundary.UnsavedReleaseBreaksSafety` are runs in which such a create does land.
 */
module LifecycleLosses {
  import opened Wrappers
  import opened Naming
  import opened Reservations
  import opened Lifecycle
  import opened LifecycleSafety

  /** Its machine works with the reservation, or is about to destroy it. */
  ghost predicate InUse(s: State, id: string, r: NameReservation) {
    && r.stateResourceId in s.workers
    && var w := s.workers[r.stateResourceId]; w.work.reservationId == id || w.pc == DestroyName(id)
  }

  /** A crash of a worker whose release is done and not saved. */
  predicate IsUnsaved(s: State, a: Action) {
    a.Crash? && a.m in s.workers && s.workers[a.m].pc.Released?
  }

  /** An action that is allowed, or any loss, or a release that is never saved. */
  ghost predicate Feasible(s: State, lost: Store, a: Action) {
    && Enabled(s, a)
    && (a.Lose? || IsUnsaved(s, a) || Allowed(s, a))
    && (a.DoListAll? ==> |s.store + lost| < 0x7FFF_FFFF)
  }

  /** A create lands on a lost id that is in use, or an unsaved release finds its freed id taken. */
  ghost predicate TakesLost(s: State, lost: Store, a: Action)
    requires Enabled(s, a)
  {
    || (a.DoCreate? && CreatedId(s.workers[a.m].pc) in lost)
    || (IsUnsaved(s, a) && s.workers[a.m].saved.reservationId in s.store + lost)
  }

  ghost predicate Permitted(s: State, lost: Store, a: Action) {
    Feasible(s, lost, a) && !TakesLost(s, lost, a)
  }

  /** The reservation a worker has freed without saving that, as far as the worker remembers it. */
  function Freed(k: Machine, m: string): NameReservation {
    Recreated(k, k.uuid, m)
  }

  /**
   What is missing after an action: recreating a reservation or giving it up settles its loss, and a
   release that is never saved is the loss of what it has freed.
   */
  ghost function MissingAfter(s: State, lost: Store, a: Action): Store
    requires Enabled(s, a)
  {
    match a
    case Lose(id) => lost[id := s.store[id]]
    case DoRecreate(m) => lost - {RecreatedId(s.workers[m].work)}
    case DoDestroy(m) => lost - {s.workers[m].pc.reservationId}
    case Crash(m) =>
      var k := s.workers[m].saved;
      if s.workers[m].pc.Released? && k.reservationId != "" then lost[k.reservationId := Freed(k, m)] else lost
    case _ => lost
  }

  ghost function Needed(s: State, lost: Store): Store {
    map id | id in lost && InUse(s, id, lost[id]) :: lost[id]
  }

  /** The reservations that are lost after an action, as far as their machines still use them. */
  ghost function LostAfter(s: State, lost: Store, a: Action): Store
    requires Enabled(s, a)
  {
    Needed(Step(s, a), MissingAfter(s, lost, a))
  }

  // ---------------------------------------------------------------- as if nothing were lost

  /** A worker about to recreate its reservation, before it has noticed the loss. */
  function Unaware(w: Worker): Worker {
    if w.pc.Recreate? then w.(pc := GetReservation) else w
  }

  /** The state with the lost reservations put back. */
  ghost function Whole(s: State, lost: Store): State {
    s.(store := s.store + lost, workers := map m | m in s.workers :: Unaware(s.workers[m]))
  }

  /** The prefix a worker allocates under is not empty. */
  predicate IsPrefixed(pc: Pc) {
    pc.ListAll? || pc.CreateName? ==> pc.prefix != ""
  }

  ghost predicate Prefixed(s: State, lost: Store) {
    && (forall id :: id in s.store + lost ==> (s.store + lost)[id].clusterPrefix != "")
    && (forall m :: m in s.workers ==> IsPrefixed(s.workers[m].pc))
  }

  ghost function PutBack(s: State, m: string, k: Machine): State {
    if k.reservationId == "" then s else s.(store := s.store[k.reservationId := Freed(k, m)])
  }

  /** A worker with an unsaved release: what it has saved would be sound if its reservation were put back. */
  ghost predicate FreedSound(s: State, m: string, w: Worker) {
    w.pc.Released? ==>
      var k := w.saved;
      && (w.ready ==> k.reservationId != "")
      && (k.uuid != "" ==> !OwnsAny(s.store, k.uuid))
      && MachineSound(PutBack(s, m, k), m, k)
      && (k.reservationId != "" ==> k.clusterPrefix != "" && IdMatches(k.reservationId, Freed(k, m)))
  }

  ghost predicate AllFreedSound(s: State) {
    forall m :: m in s.workers ==> FreedSound(s, m, s.workers[m])
  }

  /** With what is lost put back the state is sound, and who is about to recreate a reservation has lost it. */
  ghost predicate LossSound(s: State, lost: Store) {
    && Inv(Whole(s, lost)) && Prefixed(s, lost) && AllFreedSound(Whole(s, lost))
    && (forall id :: id in lost ==> id !in s.store)
    && (forall m :: m in s.workers && s.workers[m].pc.Recreate? ==> s.workers[m].work.reservationId in lost)
  }

  ghost predicate LossInv(s: State, lost: Store) {
    LossSound(s, lost) && forall id :: id in lost ==> InUse(s, id, lost[id])
  }

  /** What the invariant says about one worker. */
  lemma LossInvOf(s: State, lost: Store, m: string)
    requires LossInv(s, lost) && m in s.workers
    ensures var v := Whole(s, lost); StoreSound(v.store, v.issued) && WorkerSound(v, m, Unaware(s.workers[m]))
  {
    hide Inv;
    InvOf(Whole(s, lost), m);
  }

  /** A lost reservation belongs to the machine that holds it, and to no other. */
  lemma {:induction false} LostIsHeld(s: State, lost: Store, m: string, id: string)
    requires LossInv(s, lost) && m in s.workers && id in lost && lost[id].machineUuid == s.workers[m].work.uuid
    ensures lost[id].stateResourceId == m
    ensures s.workers[m].work.reservationId == id || s.workers[m].pc == DestroyName(id)
  {
    hide Inv, PcSound, IdsMatch;
    LossInvOf(s, lost, m);
    assert Whole(s, lost).store[id] == lost[id];
  }

  /** A worker that searches by UUID finds the same as if nothing were lost. */
  lemma {:induction false} SearchesAlike(s: State, lost: Store, m: string)
    requires LossInv(s, lost) && m in s.workers
    requires s.workers[m].work.reservationId == "" && !s.workers[m].pc.DestroyName?
    ensures forall id :: Owns(s.store, id, s.workers[m].work.uuid) ==> id !in lost
    ensures forall id :: Owns(s.store, id, s.workers[m].work.uuid) <==>
      Owns(Whole(s, lost).store, id, s.workers[m].work.uuid)
    ensures OwnsAny(s.store, s.workers[m].work.uuid) <==> OwnsAny(Whole(s, lost).store, s.workers[m].work.uuid)
  {
    hide Inv;
    var uuid := s.workers[m].work.uuid;
    forall id ensures Owns(s.store, id, uuid) <==> Owns(Whole(s, lost).store, id, uuid) {
      if id in lost && lost[id].machineUuid == uuid {
        LostIsHeld(s, lost, m, id);
        LossInvOf(s, lost, m);
        StoredIdIsNotEmpty(Whole(s, lost).store, id);
      }
    }
  }

  // ---------------------------------------------------------------- one step

  /** What an action `a` does is what `b` would do if nothing were lost. */
  ghost predicate Mirrors(s: State, lost: Store, a: Action, b: Action)
    requires Enabled(s, a) && IsWorkerAction(a)
  {
    var v, w := Whole(s, lost), s.workers[a.m];
    && IsWorkerAction(b) && b.m == a.m && CanDo(v, Unaware(w), b)
    && NewStore(v, Unaware(w), b) == NewStore(s, w, a) + MissingAfter(s, lost, a)
    && NewVms(v, Unaware(w), b) == NewVms(s, w, a)
    && NewIssued(v, Unaware(w), b) == NewIssued(s, w, a)
    && NewWorker(v, Unaware(w), b) == Unaware(NewWorker(s, w, a))
  }

  lemma MirroredStep(s: State, lost: Store, a: Action, b: Action)
    requires Enabled(s, a) && IsWorkerAction(a) && Mirrors(s, lost, a, b)
    ensures Enabled(Whole(s, lost), b) && Step(Whole(s, lost), b) == Whole(Step(s, a), MissingAfter(s, lost, a))
  {
    hide NewStore, NewVms, NewIssued, NewWorker, CanDo, MissingAfter;
  }

  /** Actions that neither create, list nor look for a reservation do not notice a loss. */
  predicate IsBlind(a: Action) {
    && IsWorkerAction(a) && !a.DoGet? && !a.DoListByUuid? && !a.DoRecreate? && !a.DoListAll? && !a.DoCreate?
    && !a.DoRelease? && !a.DoDestroy?
  }

  lemma BlindMirrors(s: State, lost: Store, a: Action)
    requires Enabled(s, a) && IsBlind(a) && !IsUnsaved(s, a)
    ensures Mirrors(s, lost, a, a)
  {
    hide NextOrdinal, NormalizedPrefix, NewReservation, ReservationResourceID;
  }

  lemma SearchMirrors(s: State, lost: Store, a: Action)
    requires Enabled(s, a) && a.DoListByUuid? && !CanRecreate(s.workers[a.m].work)
    requires var uuid := s.workers[a.m].work.uuid;
             && (OwnsAny(s.store, uuid) <==> OwnsAny(s.store + lost, uuid))
             && (OwnsAny(s.store, uuid) ==> a.pick !in lost)
    ensures Mirrors(s, lost, a, a)
  {
    hide NextOrdinal, NormalizedPrefix, OwnsAny, IsRole, Applied;
    var v, w := Whole(s, lost), s.workers[a.m];
    assert CanDo(v, Unaware(w), a);
    assert NewStore(v, Unaware(w), a) == NewStore(s, w, a) + MissingAfter(s, lost, a);
    assert NewWorker(v, Unaware(w), a) == Unaware(NewWorker(s, w, a));
  }

  lemma ReleaseMirrors(s: State, lost: Store, a: Action)
    requires Enabled(s, a) && a.DoRelease?
    requires var k := s.workers[a.m].work;
             k.reservationId == "" && k.uuid != "" ==>
               && (OwnsAny(s.store, k.uuid) <==> OwnsAny(s.store + lost, k.uuid))
               && (OwnsAny(s.store, k.uuid) ==> a.pick !in lost)
    ensures Mirrors(s, lost, a, a)
  {
    hide NextOrdinal, NormalizedPrefix, OwnsAny, Cleared;
    var v, w := Whole(s, lost), s.workers[a.m];
    assert CanDo(v, Unaware(w), a);
    assert NewStore(v, Unaware(w), a) == NewStore(s, w, a) + MissingAfter(s, lost, a);
    assert NewWorker(v, Unaware(w), a) == Unaware(NewWorker(s, w, a));
  }

  lemma {:induction false} FoundMirrors(s: State, lost: Store, a: Action)
    requires LossInv(s, lost) && Enabled(s, a) && a.DoListByUuid?
    ensures Mirrors(s, lost, a, a)
  {
    hide Mirrors, NormalizedPrefix, OwnsAny, LossInv;
    SearchesEmptyHanded(s, lost, a.m);
    SearchesAlike(s, lost, a.m);
    SearchMirrors(s, lost, a);
  }

  lemma {:induction false} FoundReleaseMirrors(s: State, lost: Store, a: Action)
    requires LossInv(s, lost) && Enabled(s, a) && a.DoRelease?
    ensures Mirrors(s, lost, a, a)
  {
    hide Mirrors, NormalizedPrefix, OwnsAny, LossInv;
    if s.workers[a.m].work.reservationId == "" {
      SearchesAlike(s, lost, a.m);
    }
    ReleaseMirrors(s, lost, a);
  }

  lemma SearchesEmptyHanded(s: State, lost: Store, m: string)
    requires LossInv(s, lost) && m in s.workers && s.workers[m].pc.ListByUuid?
    ensures var k := s.workers[m].work; k.reservationId == "" && k.uuid != "" && !CanRecreate(k)
  {
    hide Inv, IdsMatch, NormalizedPrefix;
    LossInvOf(s, lost, m);
  }

  /** A create that does not land on a lost id. */
  lemma CreateMirrors(s: State, lost: Store, a: Action)
    requires Enabled(s, a) && a.DoCreate? && CreatedId(s.workers[a.m].pc) !in lost
    ensures Mirrors(s, lost, a, a)
  {
    hide NextOrdinal, NormalizedPrefix, CreatedReservation, CreatedId, Applied;
  }

  lemma DestroyMirrors(s: State, lost: Store, a: Action)
    requires Enabled(s, a) && a.DoDestroy?
    ensures Mirrors(s, lost, a, a)
  {
    hide NextOrdinal, NormalizedPrefix, Cleared;
  }

  /** A get that finds the reservation. */
  lemma GetMirrors(s: State, lost: Store, a: Action)
    requires Enabled(s, a) && a.DoGet? && s.workers[a.m].work.reservationId in s.store
    requires s.workers[a.m].work.reservationId !in lost
    ensures Mirrors(s, lost, a, a)
  {
    hide NextOrdinal, NormalizedPrefix, Applied;
  }

  lemma {:induction false} HeldIsStored(s: State, lost: Store, m: string)
    requires LossInv(s, lost) && m in s.workers && (s.workers[m].pc.GetReservation? || s.workers[m].pc.Recreate?)
    ensures var k := s.workers[m].work;
            && k.reservationId in s.store + lost
            && Owns(s.store + lost, k.reservationId, k.uuid)
            && k == Applied(k, k.reservationId, (s.store + lost)[k.reservationId])
  {
    hide Inv, StoreSound;
    LossInvOf(s, lost, m);
  }

  /** One that does not only sees the loss. */
  lemma {:induction false} GetNotices(s: State, lost: Store, a: Action)
    requires LossInv(s, lost) && Enabled(s, a) && a.DoGet? && s.workers[a.m].work.reservationId in lost
    ensures Whole(Step(s, a), lost) == Whole(s, lost) && MissingAfter(s, lost, a) == lost
    ensures Step(s, a) == s.(workers := s.workers[a.m := s.workers[a.m].(pc := Recreate)])
  {
    hide NextOrdinal, NormalizedPrefix, WorkerSound, StoreSound, VmSound;
    HeldIsLost(s, lost, a.m);
  }

  lemma {:induction false} HeldIsLost(s: State, lost: Store, m: string)
    requires LossInv(s, lost) && m in s.workers && (s.workers[m].pc.GetReservation? || s.workers[m].pc.Recreate?)
    requires s.workers[m].work.reservationId in lost
    ensures var k := s.workers[m].work;
            && k.reservationId !in s.store && CanRecreate(k) && RecreatedId(k) == k.reservationId
            && lost[k.reservationId].stateResourceId == m
            && k.uuid == lost[k.reservationId].machineUuid && k == Applied(k, k.reservationId, lost[k.reservationId])
  {
    hide Inv, MachineSound, PcSound, NormalizedPrefix, ReservationResourceID, SequenceVMName;
    LossInvOf(s, lost, m);
    HeldIsStored(s, lost, m);
    var id := s.workers[m].work.reservationId;
    assert (s.store + lost)[id] == lost[id] && IdMatches(id, lost[id]);
    LostIsHeld(s, lost, m, id);
  }

  // ---------------------------------------------------------------- what the invariant does not look at

  /** The request id recorded in a reservation. */
  ghost function Relabelled(s: State, id: string, requestId: string): State
    requires id in s.store
  {
    s.(store := s.store[id := s.store[id].(machineRequestId := requestId)])
  }

  lemma RelabelledMachine(s: State, id: string, requestId: string, m: string, k: Machine)
    requires id in s.store && MachineSound(s, m, k)
    ensures MachineSound(Relabelled(s, id, requestId), m, k)
  {
  }

  lemma RelabelledWorker(s: State, id: string, requestId: string, m: string, w: Worker)
    requires id in s.store && WorkerSound(s, m, w)
    ensures WorkerSound(Relabelled(s, id, requestId), m, w)
  {
    hide MachineSound;
    var s' := Relabelled(s, id, requestId);
    assert forall i, uuid :: Owns(s'.store, i, uuid) <==> Owns(s.store, i, uuid);
    assert forall uuid :: OwnsAny(s'.store, uuid) ==> OwnsAny(s.store, uuid) by {
      forall uuid | OwnsAny(s'.store, uuid) ensures OwnsAny(s.store, uuid) {
        var i :| Owns(s'.store, i, uuid);
        assert Owns(s.store, i, uuid);
      }
    }
    RelabelledMachine(s, id, requestId, m, w.work);
    if !w.pc.Released? {
      RelabelledMachine(s, id, requestId, m, w.saved);
    }
  }

  lemma RelabelledMatches(id: string, r: NameReservation, requestId: string)
    requires IdMatches(id, r)
    ensures IdMatches(id, r.(machineRequestId := requestId))
  {
  }

  lemma RelabelledInv(s: State, id: string, requestId: string)
    requires Inv(s) && id in s.store
    ensures Inv(Relabelled(s, id, requestId))
  {
    hide WorkerSound, VmSound, IdMatches;
    var s' := Relabelled(s, id, requestId);
    assert IdMatches(id, s'.store[id]) by { RelabelledMatches(id, s.store[id], requestId); }
    forall m | m in s'.workers ensures WorkerSound(s', m, s'.workers[m]) {
      RelabelledWorker(s, id, requestId, m, s.workers[m]);
    }
    forall v ensures VmSound(s', v) {
      SameVm(s, s', v);
    }
  }

  lemma SameVm(s: State, s': State, vmId: int)
    requires VmSound(s, vmId) && s'.vms == s.vms
    requires forall m :: m in s.workers ==>
      && m in s'.workers && s'.workers[m].work == s.workers[m].work && s'.workers[m].saved == s.workers[m].saved
      && (s'.workers[m].pc.Instantiated? <==> s.workers[m].pc.Instantiated?)
    ensures VmSound(s', vmId)
  {
  }

  /** The ordinal a machine is about to try. */
  ghost function Retried(s: State, m: string, ordinal: nat): State
    requires m in s.workers && s.workers[m].pc.CreateName?
  {
    s.(workers := s.workers[m := s.workers[m].(pc := s.workers[m].pc.(ordinal := ordinal))])
  }

  lemma RetriedWorker(s: State, m: string, ordinal: nat)
    requires m in s.workers && s.workers[m].pc.CreateName? && WorkerSound(s, m, s.workers[m])
    requires 0 < ordinal && ordinal < 0x8000_0000
    ensures WorkerSound(Retried(s, m, ordinal), m, Retried(s, m, ordinal).workers[m])
  {
    hide NormalizedPrefix;
  }

  lemma RetriedInv(s: State, m: string, ordinal: nat)
    requires Inv(s) && m in s.workers && s.workers[m].pc.CreateName? && 0 < ordinal && ordinal < 0x8000_0000
    ensures Inv(Retried(s, m, ordinal))
  {
    hide WorkerSound, VmSound, StoreSound;
    var s' := Retried(s, m, ordinal);
    RetriedWorker(s, m, ordinal);
    forall m' | m' in s'.workers ensures WorkerSound(s', m', s'.workers[m']) {
      if m' != m {
        SameForWorkers(s, s', m', s.workers[m']);
      }
    }
    forall v ensures VmSound(s', v) {
      SameVm(s, s', v);
    }
  }

  // ---------------------------------------------------------------- one step keeps the rest sound

  /** An action that does what it would do if nothing were lost. */
  lemma {:induction false} MirroredKeepsInv(s: State, lost: Store, a: Action)
    requires LossInv(s, lost) && Permitted(s, lost, a) && IsWorkerAction(a) && !a.DoListAll? && !IsUnsaved(s, a)
    requires Mirrors(s, lost, a, a)
    ensures Allowed(Whole(s, lost), a) && Step(Whole(s, lost), a) == Whole(Step(s, a), MissingAfter(s, lost, a))
    ensures Inv(Whole(Step(s, a), MissingAfter(s, lost, a)))
  {
    hide Inv, Mirrors, Enabled, Step, MissingAfter, Whole;
    MirroredStep(s, lost, a, a);
    assert Allowed(Whole(s, lost), a) by { SameCrash(s, lost, a); }
    StepKeepsInv(Whole(s, lost), a);
  }

  lemma SameCrash(s: State, lost: Store, a: Action)
    requires Allowed(s, a) && IsWorkerAction(a) && !a.DoListAll? && Enabled(Whole(s, lost), a)
    ensures Allowed(Whole(s, lost), a)
  {
    hide Enabled;
    assert a.m in s.workers by { Enables(s, a); }
  }

  lemma Enables(s: State, a: Action)
    requires Enabled(s, a) && IsWorkerAction(a)
    ensures a.m in s.workers && CanDo(s, s.workers[a.m], a)
  {
    hide CanDo;
  }

  /** A listing that leaves out what is lost may come to another ordinal. */
  lemma {:induction false} ListKeepsInv(s: State, lost: Store, a: Action)
    requires LossInv(s, lost) && Permitted(s, lost, a) && a.DoListAll?
    ensures Inv(Whole(Step(s, a), MissingAfter(s, lost, a)))
  {
    hide LossInv, Inv, NextOrdinal, Enabled, Step;
    ListsOtherwise(s, lost, a);
    var v, n := Whole(s, lost), NextOrdinal(s.store, s.workers[a.m].pc.prefix, s.workers[a.m].pc.role);
    assert Inv(v) by { WholeInv(s, lost); }
    StepKeepsInv(v, a);
    NextOrdinalBound(s.store, s.workers[a.m].pc.prefix, s.workers[a.m].pc.role);
    MoreIds(s.store, lost);
    RetriedInv(Step(v, a), a.m, n);
  }

  lemma ListsOtherwise(s: State, lost: Store, a: Action)
    requires Enabled(s, a) && a.DoListAll?
    ensures a.m in s.workers && s.workers[a.m].pc.ListAll? && Enabled(Whole(s, lost), a) &&
            MissingAfter(s, lost, a) == lost
    ensures var listed := Step(Whole(s, lost), a);
            && a.m in listed.workers && listed.workers[a.m].pc.CreateName?
            && var n := NextOrdinal(s.store, s.workers[a.m].pc.prefix, s.workers[a.m].pc.role);
               Whole(Step(s, a), lost) == Retried(listed, a.m, n)
  {
    hide NextOrdinal;
  }

  lemma WholeInv(s: State, lost: Store)
    requires LossInv(s, lost)
    ensures Inv(Whole(s, lost))
  {
  }

  lemma MoreIds(store: Store, lost: Store)
    ensures |store| <= |store + lost|
  {
    SubsetSize(store.Keys, (store + lost).Keys);
  }

  /** Recreating a lost reservation is the get that would have found it, but for the request id it records. */
  lemma {:induction false} RecreateKeepsInv(s: State, lost: Store, a: Action)
    requires LossInv(s, lost) && Permitted(s, lost, a) && a.DoRecreate?
    ensures Inv(Whole(Step(s, a), MissingAfter(s, lost, a)))
  {
    hide LossInv, Inv, NormalizedPrefix, NextOrdinal;
    var v := Whole(s, lost);
    var id := s.workers[a.m].work.reservationId;
    assert Inv(v) by { WholeInv(s, lost); }
    RecreatedIsLost(s, lost, a);
    StepKeepsInv(v, DoGet(a.m));
    RelabelledInv(Step(v, DoGet(a.m)), id, a.m);
    RecreatesTheLost(s, lost, a);
  }

  lemma {:induction false} RecreatedIsLost(s: State, lost: Store, a: Action)
    requires LossInv(s, lost) && Enabled(s, a) && a.DoRecreate?
    ensures var k := s.workers[a.m].work;
            && k.reservationId in lost && RecreatedId(k) == k.reservationId && k.reservationId !in s.store
            && Recreated(k, k.uuid, a.m) == lost[k.reservationId].(machineRequestId := a.m)
            && k == Applied(k, k.reservationId, lost[k.reservationId])
            && lost[k.reservationId].stateResourceId == a.m
    ensures Enabled(Whole(s, lost), DoGet(a.m)) && Allowed(Whole(s, lost), DoGet(a.m))
  {
    hide Inv, NormalizedPrefix, NextOrdinal, ReservationResourceID, SequenceVMName;
    HeldIsLost(s, lost, a.m);
  }

  lemma {:induction false} RecreatesTheLost(s: State, lost: Store, a: Action)
    requires Enabled(s, a) && a.DoRecreate?
    requires var k := s.workers[a.m].work;
             && k.reservationId in lost && RecreatedId(k) == k.reservationId && k.reservationId !in s.store
             && Recreated(k, k.uuid, a.m) == lost[k.reservationId].(machineRequestId := a.m)
             && k == Applied(k, k.reservationId, lost[k.reservationId])
    requires Enabled(Whole(s, lost), DoGet(a.m))
    ensures var id, got := s.workers[a.m].work.reservationId, Step(Whole(s, lost), DoGet(a.m));
            && id in got.store
            && Whole(Step(s, a), MissingAfter(s, lost, a)) == Relabelled(got, id, a.m)
  {
    hide NormalizedPrefix, NextOrdinal, RecreatedId, Recreated, CanRecreate, Applied;
    var id, got := s.workers[a.m].work.reservationId, Step(Whole(s, lost), DoGet(a.m));
    var s', lost' := Step(s, a), MissingAfter(s, lost, a);
    assert s'.store == s.store[id := lost[id].(machineRequestId := a.m)] && lost' == lost - {id};
    assert s'.store + lost' == (s.store + lost)[id := lost[id].(machineRequestId := a.m)];
  }

  /** The loss itself changes nothing of the whole. */
  lemma LossKeepsWhole(s: State, lost: Store, id: string)
    requires id in s.store && id !in lost
    ensures Whole(Step(s, Lose(id)), MissingAfter(s, lost, Lose(id))) == Whole(s, lost)
  {
    assert (s.store - {id}) + lost[id := s.store[id]] == s.store + lost;
  }

  lemma RegisterMirrors(s: State, lost: Store, m: string)
    requires Enabled(s, Register(m))
    ensures Enabled(Whole(s, lost), Register(m))
    ensures Step(Whole(s, lost), Register(m)) == Whole(Step(s, Register(m)), lost)
  {
    var v, s' := Whole(s, lost), Step(s, Register(m));
    assert Step(v, Register(m)).workers == Whole(s', lost).workers;
  }

  lemma StopMirrors(s: State, lost: Store, vmId: int, end: VmState)
    requires Enabled(s, VmStops(vmId, end))
    ensures Enabled(Whole(s, lost), VmStops(vmId, end))
    ensures Step(Whole(s, lost), VmStops(vmId, end)) == Whole(Step(s, VmStops(vmId, end)), lost)
  {
  }

  /** A new machine, or a VM that stops by itself. */
  lemma {:induction false} OutsideMirrors(s: State, lost: Store, a: Action)
    requires Allowed(s, a) && !IsWorkerAction(a)
    ensures Allowed(Whole(s, lost), a) && Step(Whole(s, lost), a) == Whole(Step(s, a), MissingAfter(s, lost, a))
  {
    hide Step, Whole, CanDo;
    match a
    case Register(m) => RegisterMirrors(s, lost, m);
    case VmStops(vmId, end) => StopMirrors(s, lost, vmId, end);
  }

  lemma OutsideKeepsInv(s: State, lost: Store, a: Action)
    requires LossInv(s, lost) && Permitted(s, lost, a) && !IsWorkerAction(a)
    ensures Inv(Whole(Step(s, a), MissingAfter(s, lost, a)))
  {
    hide LossInv, Inv, Step, Whole, MissingAfter;
    WholeInv(s, lost);
    if a.Lose? {
      LostIsNotStored(s, lost);
      LossKeepsWhole(s, lost, a.id);
    } else {
      OutsideMirrors(s, lost, a);
      StepKeepsInv(Whole(s, lost), a);
    }
  }

  lemma LostIsNotStored(s: State, lost: Store)
    requires LossInv(s, lost)
    ensures forall id :: id in lost ==> id !in s.store
  {
    hide Inv;
  }

  // ---------------------------------------------------------------- a release that is never saved

  /** The state in which a worker has its freed reservation back. */
  ghost function Unreleased(s: State, m: string): State
    requires m in s.workers
  {
    var w := s.workers[m];
    PutBack(s, m, w.saved).(workers := s.workers[m := w.(work := w.saved, pc := Idle)])
  }

  lemma CrashGoesBack(s: State, m: string)
    requires Enabled(s, Crash(m))
    ensures Step(s, Crash(m)) == s.(workers := s.workers[m := s.workers[m].(work := s.workers[m].saved, pc := Idle)])
  {
  }

  lemma WorkersGoBack(s: State, lost: Store, m: string)
    requires m in s.workers && s.workers[m].pc.Released?
    ensures var w := s.workers[m];
            var crashed := s.(workers := s.workers[m := w.(work := w.saved, pc := Idle)]);
            Whole(crashed, lost).workers == Unreleased(Whole(s, lost), m).workers && Whole(s, lost).workers[m] == w
  {
    hide PutBack;
  }

  /** Who forgets a release is where it would be if the reservation it has freed were lost. */
  lemma {:induction false} UnsavedIsUnreleased(s: State, lost: Store, a: Action)
    requires Permitted(s, lost, a) && IsUnsaved(s, a)
    ensures var w := s.workers[a.m];
            && w.saved.reservationId !in s.store + lost && Step(s, a).store == s.store
            && Whole(s, lost).workers[a.m] == w
            && Whole(Step(s, a), MissingAfter(s, lost, a)) == Unreleased(Whole(s, lost), a.m)
  {
    hide Step, CanDo, Freed, Allowed, Unaware;
    CrashGoesBack(s, a.m);
    WorkersGoBack(s, lost, a.m);
    var id, r := s.workers[a.m].saved.reservationId, Freed(s.workers[a.m].saved, a.m);
    assert (s.store + lost)[id := r] == s.store + lost[id := r];
  }

  lemma UnreleasedUndisturbed(s: State, m: string, m': string)
    requires m in s.workers && m' != m && s.workers[m].saved.reservationId !in s.store
    ensures Undisturbed(s, Unreleased(s, m), m')
  {
  }

  lemma UnreleasedStore(s: State, m: string)
    requires StoreSound(s.store, s.issued) && m in s.workers && s.workers[m].pc.Released?
    requires FreedSound(s, m, s.workers[m]) && s.workers[m].saved.reservationId !in s.store
    ensures StoreSound(Unreleased(s, m).store, s.issued)
  {
    hide IdMatches, IdsMatch, OwnsAny;
    var k := s.workers[m].saved;
    if k.reservationId != "" {
      AddedSound(s.store, s.issued, k.reservationId, Freed(k, m));
    }
  }

  lemma {:induction false} UnreleasedWorker(s: State, m: string)
    requires Inv(s) && m in s.workers && s.workers[m].pc.Released? && FreedSound(s, m, s.workers[m])
    ensures WorkerSound(Unreleased(s, m), m, Unreleased(s, m).workers[m])
  {
    hide Inv, OwnsAny, IdMatches, StoreSound;
    InvOf(s, m);
    SameMachine(PutBack(s, m, s.workers[m].saved), Unreleased(s, m), m, s.workers[m].saved);
    hide MachineSound, PutBack;
  }

  lemma SameMachine(s: State, s': State, m: string, k: Machine)
    requires MachineSound(s, m, k) && s'.store == s.store && s'.vms == s.vms && s'.issued == s.issued
    ensures MachineSound(s', m, k)
  {
  }

  lemma {:induction false} UnreleasedVm(s: State, m: string, vmId: int)
    requires Inv(s) && m in s.workers && s.workers[m].pc.Released?
    ensures VmSound(Unreleased(s, m), vmId)
  {
    hide StoreSound, MachineSound;
    assert VmSound(s, vmId);
    InvOf(s, m);
  }

  lemma {:induction false} UnreleasedInv(s: State, m: string)
    requires Inv(s) && m in s.workers && s.workers[m].pc.Released?
    requires FreedSound(s, m, s.workers[m]) && s.workers[m].saved.reservationId !in s.store
    ensures Inv(Unreleased(s, m))
  {
    UnreleasedStore(s, m);
    hide WorkerSound, VmSound, StoreSound, FreedSound;
    var s' := Unreleased(s, m);
    forall m' | m' in s'.workers ensures WorkerSound(s', m', s'.workers[m']) {
      if m' == m {
        UnreleasedWorker(s, m);
      } else {
        UnreleasedUndisturbed(s, m, m');
        UndisturbedWorker(s, s', m', s.workers[m']);
      }
    }
    forall v ensures VmSound(s', v) {
      UnreleasedVm(s, m, v);
    }
  }

  lemma FreedOf(s: State, lost: Store, m: string)
    requires LossInv(s, lost) && m in s.workers
    ensures FreedSound(Whole(s, lost), m, Unaware(s.workers[m]))
  {
    hide Inv, FreedSound, Prefixed;
    assert m in Whole(s, lost).workers && Whole(s, lost).workers[m] == Unaware(s.workers[m]);
  }

  lemma {:induction false} UnsavedKeepsInv(s: State, lost: Store, a: Action)
    requires LossInv(s, lost) && Permitted(s, lost, a) && IsUnsaved(s, a)
    ensures Inv(Whole(Step(s, a), MissingAfter(s, lost, a)))
  {
    hide LossInv, Inv, FreedSound, Unreleased, Step, MissingAfter, Permitted;
    UnsavedIsUnreleased(s, lost, a);
    FreedOf(s, lost, a.m);
    WholeInv(s, lost);
    UnreleasedInv(Whole(s, lost), a.m);
  }

  // ---------------------------------------------------------------- every action

  lemma {:induction false} WholeKeepsInv(s: State, lost: Store, a: Action)
    requires LossInv(s, lost) && Permitted(s, lost, a)
    ensures Inv(Whole(Step(s, a), MissingAfter(s, lost, a)))
  {
    hide LossInv, Inv, Mirrors, Whole, Step, MissingAfter;
    if !IsWorkerAction(a) {
      OutsideKeepsInv(s, lost, a);
    } else if a.DoListAll? {
      ListKeepsInv(s, lost, a);
    } else if a.DoRecreate? {
      RecreateKeepsInv(s, lost, a);
    } else if a.DoGet? && s.workers[a.m].work.reservationId in lost {
      GetNotices(s, lost, a);
      WholeInv(s, lost);
    } else if IsUnsaved(s, a) {
      UnsavedKeepsInv(s, lost, a);
    } else {
      Mirrored(s, lost, a);
      MirroredKeepsInv(s, lost, a);
    }
  }

  lemma {:induction false} Mirrored(s: State, lost: Store, a: Action)
    requires LossInv(s, lost) && Permitted(s, lost, a) && IsWorkerAction(a) && !a.DoListAll? && !a.DoRecreate?
    requires !IsUnsaved(s, a) && (a.DoGet? ==> s.workers[a.m].work.reservationId !in lost)
    ensures Mirrors(s, lost, a, a)
  {
    hide LossInv, Inv, Mirrors, Step, MissingAfter, NormalizedPrefix, NewReservation;
    if a.DoGet? {
      HeldIsStored(s, lost, a.m);
      GetMirrors(s, lost, a);
    } else if a.DoListByUuid? {
      FoundMirrors(s, lost, a);
    } else if a.DoRelease? {
      FoundReleaseMirrors(s, lost, a);
    } else if a.DoCreate? {
      CreateMirrors(s, lost, a);
    } else if a.DoDestroy? {
      DestroyMirrors(s, lost, a);
    } else {
      BlindMirrors(s, lost, a);
    }
  }

  // ---------------------------------------------------------------- what is lost stays lost

  lemma OthersStay(s: State, a: Action, m: string)
    requires Enabled(s, a) && m in s.workers && (IsWorkerAction(a) ==> a.m != m)
    ensures m in Step(s, a).workers && Step(s, a).workers[m] == s.workers[m]
  {
    hide NewStore, NewVms, NewIssued, NewWorker, CanDo;
  }

  /** No action brings back a lost id but the recreation by its machine, which settles the loss. */
  lemma {:induction false} StaysLost(s: State, lost: Store, a: Action, id: string)
    requires LossInv(s, lost) && Permitted(s, lost, a) && id in MissingAfter(s, lost, a)
    ensures id !in Step(s, a).store
  {
    hide LossInv, Inv, NewVms, NewIssued, NewWorker, CreatedId, CreatedReservation, RecreatedId, Recreated;
    LostIsNotStored(s, lost);
  }

  lemma NotNew(s: State, a: Action, m: string)
    requires Enabled(s, a) && m in Step(s, a).workers && !Step(s, a).workers[m].pc.Idle?
    ensures m in s.workers
  {
    hide NewStore, NewVms, NewIssued, NewWorker, CanDo;
  }

  /** A worker turns to recreation when its get finds nothing, or a search that could have found it does. */
  lemma TurnsToRecreate(s: State, w: Worker, a: Action)
    requires IsWorkerAction(a) && CanDo(s, w, a) && NewWorker(s, w, a).pc.Recreate?
    ensures (a.DoGet? && w.work.reservationId !in s.store) || (a.DoListByUuid? && CanRecreate(w.work))
    ensures NewWorker(s, w, a).work == w.work
  {
    hide NextOrdinal, NormalizedPrefix, NewReservation, OwnsAny, Stopped, CanRecreate;
  }

  lemma {:induction false} EntersRecreate(s: State, lost: Store, a: Action)
    requires LossInv(s, lost) && Permitted(s, lost, a) && IsWorkerAction(a)
    requires Step(s, a).workers[a.m].pc.Recreate?
    ensures Step(s, a).workers[a.m].work.reservationId in MissingAfter(s, lost, a)
  {
    hide LossInv, Inv, NewVms, NewIssued, NewStore, NewWorker, CanRecreate;
    TurnsToRecreate(s, s.workers[a.m], a);
    if a.DoGet? {
      HeldIsStored(s, lost, a.m);
    } else {
      SearchesEmptyHanded(s, lost, a.m);
    }
  }

  /** A machine at its recreation keeps its loss while another one acts. */
  lemma {:induction false} LostOfAnother(s: State, lost: Store, a: Action, m: string)
    requires LossInv(s, lost) && Permitted(s, lost, a) && m in s.workers && s.workers[m].pc.Recreate?
    requires IsWorkerAction(a) ==> a.m != m
    ensures s.workers[m].work.reservationId in MissingAfter(s, lost, a)
  {
    hide LossInv, Inv, Step, CanDo, CanRecreate, RecreatedId, Recreated, TakesLost, Applied;
    var id := s.workers[m].work.reservationId;
    assert id in lost by { AtRecreate(s, lost, m); }
    HeldIsLost(s, lost, m);
    if a.DoRecreate? {
      RecreatedIsLost(s, lost, a);
    } else if a.DoDestroy? {
      DestroysItsOwnHere(s, lost, a);
    }
  }

  lemma AtRecreate(s: State, lost: Store, m: string)
    requires LossInv(s, lost) && m in s.workers && s.workers[m].pc.Recreate?
    ensures s.workers[m].work.reservationId in lost
  {
    hide Inv;
  }

  lemma {:induction false} DestroysItsOwnHere(s: State, lost: Store, a: Action)
    requires LossInv(s, lost) && Enabled(s, a) && a.DoDestroy?
    ensures var id := s.workers[a.m].pc.reservationId;
            id in s.store + lost && (s.store + lost)[id].stateResourceId == a.m
  {
    hide Inv, MachineSound, StoreSound;
    LossInvOf(s, lost, a.m);
  }

  /** A worker that is about to recreate its reservation has lost it. */
  lemma {:induction false} RecreatesOnlyLost(s: State, lost: Store, a: Action, m: string)
    requires LossInv(s, lost) && Permitted(s, lost, a)
    requires m in Step(s, a).workers && Step(s, a).workers[m].pc.Recreate?
    ensures Step(s, a).workers[m].work.reservationId in MissingAfter(s, lost, a)
  {
    hide LossInv, Inv, NewVms, NewIssued, NewStore, NewWorker, CanDo;
    if IsWorkerAction(a) && a.m == m {
      EntersRecreate(s, lost, a);
    } else {
      NotNew(s, a, m);
      OthersStay(s, a, m);
      LostOfAnother(s, lost, a, m);
    }
  }

  // ---------------------------------------------------------------- prefixes

  /** A worker comes to allocate under a normalized prefix. */
  lemma PrefixedWorker(s: State, w: Worker, a: Action)
    requires IsWorkerAction(a) && CanDo(s, w, a) && IsPrefixed(w.pc)
    ensures IsPrefixed(NewWorker(s, w, a).pc)
  {
    hide NextOrdinal, NewReservation, OwnsAny, Stopped, CanRecreate;
  }

  lemma PrefixedStore(s: State, w: Worker, a: Action, id: string)
    requires IsWorkerAction(a) && CanDo(s, w, a) && IsPrefixed(w.pc)
    requires id in NewStore(s, w, a)
    ensures NewStore(s, w, a)[id].clusterPrefix != "" || (id in s.store && NewStore(s, w, a)[id] == s.store[id])
  {
    hide NextOrdinal, NormalizedPrefix, SequenceVMName, ReservationResourceID, OwnsAny, Stopped;
  }

  lemma PrefixedOf(s: State, lost: Store)
    requires LossInv(s, lost)
    ensures Prefixed(s, lost)
  {
    hide Inv, AllFreedSound, InUse, Prefixed;
  }

  lemma FreedIsPrefixed(s: State, lost: Store, m: string)
    requires LossInv(s, lost) && m in s.workers && s.workers[m].pc.Released?
    ensures var k := s.workers[m].saved; k.reservationId != "" ==> k.clusterPrefix != ""
  {
    hide LossInv, MachineSound, IdMatches, OwnsAny;
    FreedOf(s, lost, m);
  }

  lemma {:induction false} MissingIsPrefixed(s: State, lost: Store, a: Action, id: string)
    requires LossInv(s, lost) && Permitted(s, lost, a) && id in MissingAfter(s, lost, a)
    ensures MissingAfter(s, lost, a)[id].clusterPrefix != ""
  {
    hide LossInv, Inv, TakesLost, CanDo, Allowed, IsPrefixed;
    PrefixedOf(s, lost);
    assert id in lost ==> lost[id] == (s.store + lost)[id];
    LostIsNotStored(s, lost);
    if a.Lose? {
      assert s.store[a.id] == (s.store + lost)[a.id];
    } else if IsUnsaved(s, a) {
      FreedIsPrefixed(s, lost, a.m);
    }
  }

  lemma {:induction false} StoredIsPrefixed(s: State, lost: Store, a: Action, id: string)
    requires LossInv(s, lost) && Permitted(s, lost, a) && id in Step(s, a).store
    ensures Step(s, a).store[id].clusterPrefix != ""
  {
    hide LossInv, NewStore, NewWorker, NewVms, NewIssued, CanDo, TakesLost;
    PrefixedOf(s, lost);
    LostIsNotStored(s, lost);
    assert id in s.store ==> s.store[id] == (s.store + lost)[id];
    if IsWorkerAction(a) {
      PrefixedStore(s, s.workers[a.m], a, id);
    }
  }

  lemma {:induction false} StaysPrefixed(s: State, lost: Store, a: Action)
    requires LossInv(s, lost) && Permitted(s, lost, a)
    ensures Prefixed(Step(s, a), MissingAfter(s, lost, a))
  {
    hide LossInv, NewStore, NewWorker, NewVms, NewIssued, CanDo, MissingAfter, TakesLost, Allowed;
    var s', lost' := Step(s, a), MissingAfter(s, lost, a);
    PrefixedOf(s, lost);
    forall id | id in s'.store + lost' ensures (s'.store + lost')[id].clusterPrefix != "" {
      if id in lost' {
        MissingIsPrefixed(s, lost, a, id);
      } else {
        StoredIsPrefixed(s, lost, a, id);
      }
    }
    forall m | m in s'.workers ensures IsPrefixed(s'.workers[m].pc) {
      if IsWorkerAction(a) && m == a.m {
        PrefixedWorker(s, s.workers[m], a);
      }
    }
  }

  // ---------------------------------------------------------------- unsaved releases stay sound

  /** Nothing happens to an unsaved release as long as nothing happens to its machine. */
  lemma {:induction false} FreedUndisturbed(s: State, s': State, m: string, w: Worker)
    requires FreedSound(s, m, w) && WorkerSound(s, m, w) && Undisturbed(s, s', m) && StoreSound(s'.store, s'.issued)
    ensures FreedSound(s', m, w)
  {
    hide StoreSound, PcSound, OwnsAny, IdMatches, OwnedKept, Freed;
    if w.pc.Released? && w.saved.uuid != "" {
      assert w.saved.uuid in s.issued && s.issued[w.saved.uuid] == m;
      UndisturbedOwner(s, s', m, w.saved.uuid);
    }
  }

  lemma SameUndisturbed(s: State, s': State, m: string)
    requires s'.store == s.store && s'.vms == s.vms && s'.issued == s.issued
    ensures Undisturbed(s, s', m)
  {
  }

  lemma RelabelUndisturbs(s: State, s': State, id: string, requestId: string, m: string)
    requires id in s.store && s.store[id].stateResourceId != m && s'.vms == s.vms && s'.issued == s.issued
    requires s'.store == s.store[id := s.store[id].(machineRequestId := requestId)]
    ensures Undisturbed(s, s', m)
  {
  }

  lemma {:induction false} RecreateUndisturbs(s: State, lost: Store, a: Action, m: string)
    requires LossInv(s, lost) && Permitted(s, lost, a) && a.DoRecreate? && m != a.m
    ensures Undisturbed(Whole(s, lost), Whole(Step(s, a), MissingAfter(s, lost, a)), m)
  {
    hide LossInv, NewStore, NewWorker, NewVms, NewIssued, RecreatedId, Recreated, CanRecreate, Undisturbed;
    RecreatedIsLost(s, lost, a);
    RecreatesTheLost(s, lost, a);
    var id := s.workers[a.m].work.reservationId;
    assert Step(Whole(s, lost), DoGet(a.m)).store == Whole(s, lost).store by { GetKeepsStore(Whole(s, lost), a.m); }
    RecreateKeepsVms(s, a);
    RelabelUndisturbs(Whole(s, lost), Whole(Step(s, a), MissingAfter(s, lost, a)), id, a.m, m);
  }

  lemma GetKeepsStore(s: State, m: string)
    requires Enabled(s, DoGet(m))
    ensures Step(s, DoGet(m)).store == s.store
  {
    hide NewWorker;
  }

  lemma RecreateKeepsVms(s: State, a: Action)
    requires Enabled(s, a) && a.DoRecreate?
    ensures Step(s, a).vms == s.vms && Step(s, a).issued == s.issued
  {
    hide NewWorker, NewStore;
  }

  /** An action of another machine, or outside, does not disturb a machine. */
  lemma {:induction false} WholeUndisturbed(s: State, lost: Store, a: Action, m: string)
    requires LossInv(s, lost) && Permitted(s, lost, a) && (IsWorkerAction(a) ==> a.m != m)
    ensures Undisturbed(Whole(s, lost), Whole(Step(s, a), MissingAfter(s, lost, a)), m)
  {
    hide LossInv, Inv, Mirrors, Step, MissingAfter, Undisturbed, TakesLost, CanDo;
    WholeInv(s, lost);
    if a.Lose? {
      LostIsNotStored(s, lost);
      LossKeepsWhole(s, lost, a.id);
      SameUndisturbed(Whole(s, lost), Whole(s, lost), m);
    } else if !IsWorkerAction(a) {
      OutsideMirrors(s, lost, a);
      OutsideUndisturbed(Whole(s, lost), a, m);
    } else if a.DoListAll? {
      ListsOtherwise(s, lost, a);
      ListUndisturbs(s, lost, a, m);
    } else if a.DoRecreate? {
      RecreateUndisturbs(s, lost, a, m);
    } else if a.DoGet? && s.workers[a.m].work.reservationId in lost {
      GetNotices(s, lost, a);
      SameUndisturbed(Whole(s, lost), Whole(s, lost), m);
    } else if IsUnsaved(s, a) {
      UnsavedIsUnreleased(s, lost, a);
      UnreleasedUndisturbed(Whole(s, lost), a.m, m);
    } else {
      Mirrored(s, lost, a);
      MirroredKeepsInv(s, lost, a);
      StepUndisturbed(Whole(s, lost), a, m);
    }
  }

  lemma ListUndisturbs(s: State, lost: Store, a: Action, m: string)
    requires Enabled(s, a) && a.DoListAll?
    ensures Undisturbed(Whole(s, lost), Whole(Step(s, a), MissingAfter(s, lost, a)), m)
  {
    hide NewWorker;
  }

  /** The end of a release, by a search that found nothing or by the destroy. */
  lemma {:induction false} ReleasedIsFreed(s: State, a: Action)
    requires Inv(s) && Allowed(s, a) && a.DoRelease? && NewWorker(s, s.workers[a.m], a).pc.Released?
    ensures FreedSound(After(s, a), a.m, NewWorker(s, s.workers[a.m], a))
  {
    hide Inv, StoreSound, NormalizedPrefix, NextOrdinal;
    InvOf(s, a.m);
  }

  /** A destroy removes the only reservation of a UUID. */
  lemma {:induction false} DestroyedWasLast(s: State, m: string)
    requires Inv(s) && m in s.workers && s.workers[m].pc.DestroyName?
    ensures var w := s.workers[m];
            && w.work == w.saved && MachineSound(s, m, w.work) && (w.ready ==> w.saved.reservationId != "")
            && w.pc.reservationId in s.store
            && (w.work.reservationId != "" ==> w.pc.reservationId == w.work.reservationId)
            && !OwnsAny(s.store - {w.pc.reservationId}, w.work.uuid)
  {
    hide Inv, IdsMatch, MachineSound;
    InvOf(s, m);
  }

  lemma DestroyedWorker(s: State, a: Action)
    requires Allowed(s, a) && a.DoDestroy?
    ensures var w := s.workers[a.m];
            && NewWorker(s, w, a) == w.(work := Cleared(w.work), pc := Released)
            && After(s, a) == s.(store := s.store - {w.pc.reservationId})
  {
    hide Cleared;
  }

  lemma FreedFields(s: State, m: string, k: Machine)
    requires MachineSound(s, m, k) && k.reservationId != "" && IdsMatch(s.store)
    ensures k.reservationId in s.store && IdMatches(k.reservationId, Freed(k, m))
    ensures k.clusterPrefix == s.store[k.reservationId].clusterPrefix
  {
    assert IdMatches(k.reservationId, s.store[k.reservationId]);
  }

  lemma PutBackSound(s: State, s': State, m: string, k: Machine)
    requires MachineSound(s, m, k) && s'.vms == s.vms && s'.issued == s.issued
    ensures MachineSound(PutBack(s', m, k), m, k)
  {
  }

  lemma {:induction false} DestroyedIsFreed(s: State, a: Action)
    requires Inv(s) && Allowed(s, a) && a.DoDestroy?
    requires forall id :: id in s.store ==> s.store[id].clusterPrefix != ""
    ensures FreedSound(After(s, a), a.m, NewWorker(s, s.workers[a.m], a))
  {
    hide MachineSound, NewWorker, After, IdMatches, OwnsAny, PutBack, Cleared, WorkerSound, VmSound;
    DestroyedWasLast(s, a.m);
    DestroyedWorker(s, a);
    var k := s.workers[a.m].work;
    PutBackSound(s, After(s, a), a.m, k);
    if k.reservationId != "" {
      FreedFields(s, a.m, k);
    }
  }

  lemma OnlyReleaseEnds(s: State, w: Worker, a: Action)
    requires IsWorkerAction(a) && CanDo(s, w, a) && NewWorker(s, w, a).pc.Released?
    ensures a.DoRelease? || a.DoDestroy?
  {
    hide NextOrdinal, NormalizedPrefix, NewReservation, OwnsAny, Stopped, CanRecreate;
  }

  lemma SameFreed(s: State, s': State, m: string, w: Worker)
    requires FreedSound(s, m, w) && s'.store == s.store && s'.vms == s.vms && s'.issued == s.issued
    ensures FreedSound(s', m, w)
  {
  }

  /** A worker that has come to the end of a release. */
  lemma {:induction false} BecomesFreed(s: State, lost: Store, a: Action)
    requires LossInv(s, lost) && Permitted(s, lost, a) && IsWorkerAction(a) && Step(s, a).workers[a.m].pc.Released?
    ensures FreedSound(Whole(Step(s, a), MissingAfter(s, lost, a)), a.m, Step(s, a).workers[a.m])
  {
    hide LossInv, Inv, Mirrors, NewWorker, NewStore, NewVms, NewIssued, FreedSound, TakesLost, MissingAfter, CanDo;
    OnlyReleaseEnds(s, s.workers[a.m], a);
    Mirrored(s, lost, a);
    MirroredKeepsInv(s, lost, a);
    var v := Whole(s, lost);
    WholeInv(s, lost);
    WholeIsPrefixed(s, lost);
    var w' := Step(s, a).workers[a.m];
    assert Step(v, a).workers[a.m] == w';
    if a.DoRelease? {
      ReleasedIsFreed(v, a);
    } else {
      DestroyedIsFreed(v, a);
    }
    SameFreed(After(v, a), Step(v, a), a.m, w');
  }

  lemma WholeIsPrefixed(s: State, lost: Store)
    requires LossInv(s, lost)
    ensures forall id :: id in Whole(s, lost).store ==> Whole(s, lost).store[id].clusterPrefix != ""
  {
    hide Inv, AllFreedSound, InUse;
  }

  lemma {:induction false} KeepsFreed(s: State, lost: Store, a: Action, m: string)
    requires LossInv(s, lost) && Permitted(s, lost, a) && m in s.workers && (IsWorkerAction(a) ==> a.m != m)
    ensures FreedSound(Whole(Step(s, a), MissingAfter(s, lost, a)), m, Unaware(s.workers[m]))
  {
    hide LossInv, Inv, FreedSound, Undisturbed, Step, MissingAfter, WorkerSound, StoreSound, Whole;
    var v, v' := Whole(s, lost), Whole(Step(s, a), MissingAfter(s, lost, a));
    FreedOf(s, lost, m);
    LossInvOf(s, lost, m);
    WholeUndisturbed(s, lost, a, m);
    WholeKeepsInv(s, lost, a);
    assert StoreSound(v'.store, v'.issued) by { StoreOf(v'); }
    FreedUndisturbed(v, v', m, Unaware(s.workers[m]));
  }

  lemma StoreOf(s: State)
    requires Inv(s)
    ensures StoreSound(s.store, s.issued)
  {
  }

  lemma {:induction false} StaysFreed(s: State, lost: Store, a: Action)
    requires LossInv(s, lost) && Permitted(s, lost, a)
    ensures AllFreedSound(Whole(Step(s, a), MissingAfter(s, lost, a)))
  {
    hide LossInv, Inv, FreedSound, TakesLost, CanDo, Step, MissingAfter;
    var s', v' := Step(s, a), Whole(Step(s, a), MissingAfter(s, lost, a));
    forall m | m in v'.workers ensures FreedSound(v', m, v'.workers[m]) {
      if IsWorkerAction(a) && m == a.m {
        if s'.workers[m].pc.Released? {
          BecomesFreed(s, lost, a);
        } else {
          NotFreed(v', m, v'.workers[m]);
        }
      } else if s'.workers[m].pc.Idle? {
        NotFreed(v', m, v'.workers[m]);
      } else {
        NotNew(s, a, m);
        OthersStay(s, a, m);
        KeepsFreed(s, lost, a, m);
      }
    }
  }

  lemma NotFreed(s: State, m: string, w: Worker)
    requires !w.pc.Released?
    ensures FreedSound(s, m, w)
  {
  }

  // ---------------------------------------------------------------- losses that nobody needs

  /** A reservation that its machine does not use can go for good. */
  ghost predicate Shrinks(s: State, s': State) {
    && s' == s.(store := s'.store)
    && (forall id :: id in s'.store ==> id in s.store && s'.store[id] == s.store[id])
    && (forall id :: id in s.store && InUse(s, id, s.store[id]) ==> id in s'.store)
  }

  /** The reservation a worker has saved is the one it works with. */
  lemma SavedIsInUse(s: State, m: string)
    requires Inv(s) && m in s.workers && !s.workers[m].pc.Released? && s.workers[m].saved.reservationId != ""
    ensures s.workers[m].work.reservationId == s.workers[m].saved.reservationId
  {
    hide Inv, PcSound, IdsMatch;
    InvOf(s, m);
  }

  lemma ShrunkMachine(s: State, s': State, m: string, k: Machine)
    requires MachineSound(s, m, k) && Shrinks(s, s') && m in s.workers
    requires k.reservationId != "" ==> k.reservationId == s.workers[m].work.reservationId
    ensures MachineSound(s', m, k)
  {
  }

  lemma {:induction false} ShrunkWorker(s: State, s': State, m: string)
    requires Inv(s) && Shrinks(s, s') && m in s.workers
    ensures WorkerSound(s', m, s.workers[m])
  {
    hide Inv, MachineSound, StoreSound;
    InvOf(s, m);
    var w := s.workers[m];
    ShrunkMachine(s, s', m, w.work);
    if !w.pc.Released? {
      if w.saved.reservationId != "" {
        SavedIsInUse(s, m);
      }
      ShrunkMachine(s, s', m, w.saved);
    }
    assert forall uuid :: OwnsAny(s'.store, uuid) ==> OwnsAny(s.store, uuid) by {
      forall uuid | OwnsAny(s'.store, uuid) ensures OwnsAny(s.store, uuid) {
        var i :| Owns(s'.store, i, uuid);
        assert Owns(s.store, i, uuid);
      }
    }
  }

  lemma {:induction false} ShrunkInv(s: State, s': State)
    requires Inv(s) && Shrinks(s, s')
    ensures Inv(s')
  {
    hide WorkerSound, VmSound, IdMatches, InUse;
    forall m | m in s'.workers ensures WorkerSound(s', m, s'.workers[m]) {
      ShrunkWorker(s, s', m);
    }
    forall v ensures VmSound(s', v) {
      SameVm(s, s', v);
    }
  }

  lemma NeededShrinks(s: State, lost: Store)
    requires forall id :: id in lost ==> id !in s.store
    ensures Shrinks(Whole(s, lost), Whole(s, Needed(s, lost)))
  {
  }

  lemma {:induction false} RecreatesTheNeeded(s: State, lost: Store, m: string)
    requires LossSound(s, lost) && m in s.workers && s.workers[m].pc.Recreate?
    ensures s.workers[m].work.reservationId in Needed(s, lost)
  {
    hide Inv, Prefixed, IdsMatch;
    InvOf(Whole(s, lost), m);
  }

  lemma ShrunkFreed(s: State, s': State, m: string, w: Worker)
    requires FreedSound(s, m, w) && Shrinks(s, s')
    ensures FreedSound(s', m, w)
  {
    hide IdMatches, InUse, Freed;
    assert forall uuid, id :: Owns(s'.store, id, uuid) ==> Owns(s.store, id, uuid);
  }

  /** What is lost and not needed can be forgotten. */
  lemma {:induction false} NeededKeepsInv(s: State, lost: Store)
    requires LossSound(s, lost)
    ensures LossInv(s, Needed(s, lost))
  {
    hide Inv, InUse, FreedSound, Shrinks;
    var whole, shrunk := Whole(s, lost), Whole(s, Needed(s, lost));
    NeededShrinks(s, lost);
    ShrunkInv(whole, shrunk);
    forall m | m in shrunk.workers ensures FreedSound(shrunk, m, shrunk.workers[m]) {
      ShrunkFreed(whole, shrunk, m, whole.workers[m]);
    }
    forall m | m in s.workers && s.workers[m].pc.Recreate?
      ensures s.workers[m].work.reservationId in Needed(s, lost)
    {
      RecreatesTheNeeded(s, lost, m);
    }
  }

  /** Every permitted action keeps the invariant: the state with the lost reservations put back is sound. */
  lemma {:induction false} StepKeepsLossInv(s: State, lost: Store, a: Action)
    requires LossInv(s, lost) && Permitted(s, lost, a)
    ensures LossInv(Step(s, a), LostAfter(s, lost, a))
  {
    hide Inv, Whole, Step, MissingAfter, CanDo, InUse, TakesLost, Prefixed, AllFreedSound;
    var s', lost' := Step(s, a), MissingAfter(s, lost, a);
    WholeKeepsInv(s, lost, a);
    StaysFreed(s, lost, a);
    StaysPrefixed(s, lost, a);
    forall id | id in lost' ensures id !in s'.store {
      StaysLost(s, lost, a, id);
    }
    forall m | m in s'.workers && s'.workers[m].pc.Recreate? ensures s'.workers[m].work.reservationId in lost' {
      RecreatesOnlyLost(s, lost, a, m);
    }
    NeededKeepsInv(s', lost');
  }
}
