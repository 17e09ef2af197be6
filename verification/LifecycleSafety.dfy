/**
 What every run of the provider keeps: reservations are owned, live VMs are backed by the reservation
 of their machine, no two live VMs share a name, and a machine keeps its name until it releases it.
 */
module LifecycleSafety {
  import opened Wrappers
  import opened Naming
  import opened Reservations
  import opened Lifecycle

  // ---------------------------------------------------------------- the invariant

  /** Every reservation belongs to the machine that drew its UUID, and a UUID has at most one. */
  ghost predicate StoreSound(store: Store, issued: map<string, string>) {
    && IdsMatch(store)
    && "" !in issued
    && (forall id :: id in store ==>
          store[id].machineUuid in issued && issued[store[id].machineUuid] == store[id].stateResourceId)
    && (forall id, id' :: id in store && id' in store && store[id].machineUuid == store[id'].machineUuid ==> id == id')
  }

  /** A machine state, saved or in work: it holds its own reservation with all its fields, or nothing. */
  ghost predicate MachineSound(s: State, m: string, k: Machine) {
    && (k.uuid != "" ==> k.uuid in s.issued && s.issued[k.uuid] == m)
    && (if k.reservationId == "" then k == NEW_MACHINE.(uuid := k.uuid) else Holds(s, m, k))
    && (k.vmId != 0 ==> k.vmId in s.vms && s.vms[k.vmId].owner == m && s.vms[k.vmId].name == k.vmName)
  }

  /** There is no VM with this id that could still be live; id 0 means no VM. */
  ghost predicate Gone(s: State, vmId: int) {
    vmId != 0 ==> Stopped(s, vmId)
  }

  ghost predicate Holds(s: State, m: string, k: Machine) {
    && k.uuid != ""
    && Owns(s.store, k.reservationId, k.uuid)
    && s.store[k.reservationId].stateResourceId == m
    && Applied(k, k.reservationId, s.store[k.reservationId]) == k
  }

  ghost predicate PcSound(s: State, m: string, w: Worker) {
    match w.pc
    case Idle => w.work == w.saved
    case GetReservation => w.work.reservationId != "" && w.work.uuid != "" && w.work.vmId == w.saved.vmId
    case ListByUuid => w.work.uuid != "" && w.work.reservationId == "" && w.saved.vmId == 0
    case Recreate => false
    case ListAll(_, _, role, attempt) => Allocating(s, w, role, attempt)
    case CreateName(_, _, role, attempt, ordinal) =>
      Allocating(s, w, role, attempt) && 0 < ordinal && ordinal < 0x8000_0000
    case Assigned => w.work.reservationId != "" && w.work.vmId == w.saved.vmId
    case Instantiate => w.work == w.saved && w.work.reservationId != "" && w.work.vmId == 0
    case Instantiated => w.work.vmId != 0 && w.saved == w.work.(vmId := 0)
    case Release => w.work == w.saved && Gone(s, w.work.vmId)
    case DestroyName(id) =>
      && w.work == w.saved && Gone(s, w.work.vmId)
      && Owns(s.store, id, w.work.uuid) && s.store[id].stateResourceId == m
      && (w.work.reservationId != "" ==> id == w.work.reservationId)
    case Released =>
      && w.work == Cleared(w.saved) && Gone(s, w.saved.vmId)
      && (w.saved.vmId != 0 ==> w.saved.vmId in s.vms && s.vms[w.saved.vmId].owner == m)
    case _ => w.work == w.saved && w.work.vmId != 0
  }

  ghost predicate Allocating(s: State, w: Worker, role: string, attempt: nat) {
    && IsRole(role) && attempt < 32
    && w.work.uuid != "" && w.work.reservationId == "" && w.saved.vmId == 0
    && !OwnsAny(s.store, w.work.uuid)
  }

  ghost predicate WorkerSound(s: State, m: string, w: Worker) {
    && MachineSound(s, m, w.work)
    && PcSound(s, m, w)
    && (w.saved.uuid != "" ==> w.work.uuid == w.saved.uuid)
    && (!w.pc.Released? ==> MachineSound(s, m, w.saved) && SavedSound(w))
  }

  ghost predicate SavedSound(w: Worker) {
    && (w.ready ==> w.saved.reservationId != "")
    && (w.work.reservationId == "" ==> w.saved.reservationId == "")
  }

  /** The machine of a live VM knows it, and has it saved once its instantiation is saved. */
  ghost predicate VmSound(s: State, vmId: int) {
    vmId in s.vms && s.vms[vmId].state.Active? ==>
      && vmId != 0
      && s.vms[vmId].owner in s.workers
      && var w := s.workers[s.vms[vmId].owner];
         w.work.vmId == vmId && (!w.pc.Instantiated? ==> w.saved.vmId == vmId)
  }

  ghost predicate Inv(s: State) {
    && StoreSound(s.store, s.issued)
    && (forall m :: m in s.workers ==> WorkerSound(s, m, s.workers[m]))
    && (forall vmId :: VmSound(s, vmId))
  }

  // ---------------------------------------------------------------- one step keeps it

  lemma IdIsNotEmpty(prefix: string, role: string, ordinal: nat)
    ensures ReservationResourceID(prefix, role, ordinal) != ""
  {
    assert |ReservationResourceID(prefix, role, ordinal)| >= |"name-reservation/"|;
  }

  /** Nothing that concerns machine `m` changes between the two states. */
  ghost predicate Undisturbed(s: State, s': State, m: string) {
    && (forall u :: u in s.issued ==> u in s'.issued && s'.issued[u] == s.issued[u])
    && OwnedKept(s.store, s'.store, m)
    && VmsKept(s.vms, s'.vms, m)
  }

  ghost predicate OwnedKept(store: Store, store': Store, m: string) {
    && (forall id :: id in store && store[id].stateResourceId == m ==> id in store' && store'[id] == store[id])
    && (forall id :: id in store' && store'[id].stateResourceId == m ==> id in store && store'[id] == store[id])
  }

  ghost predicate VmsKept(vms: map<int, VM>, vms': map<int, VM>, m: string) {
    forall v :: v in vms && vms[v].owner == m ==>
      && v in vms' && vms'[v].owner == m && vms'[v].name == vms[v].name
      && (vms'[v].state.Active? ==> vms[v].state.Active?)
  }

  lemma UndisturbedMachine(s: State, s': State, m: string, k: Machine)
    requires MachineSound(s, m, k) && Undisturbed(s, s', m)
    ensures MachineSound(s', m, k)
    ensures Gone(s, k.vmId) && (k.vmId != 0 ==> k.vmId in s.vms) ==> Gone(s', k.vmId)
  {
  }

  lemma UndisturbedOwner(s: State, s': State, m: string, uuid: string)
    requires Undisturbed(s, s', m) && StoreSound(s'.store, s'.issued) && uuid in s.issued && s.issued[uuid] == m
    requires !OwnsAny(s.store, uuid)
    ensures !OwnsAny(s'.store, uuid)
  {
    assert forall id :: Owns(s'.store, id, uuid) ==> Owns(s.store, id, uuid);
  }

  lemma UndisturbedWorker(s: State, s': State, m: string, w: Worker)
    requires WorkerSound(s, m, w) && Undisturbed(s, s', m) && StoreSound(s'.store, s'.issued)
    ensures WorkerSound(s', m, w)
  {
    UndisturbedMachine(s, s', m, w.work);
    if !w.pc.Released? {
      UndisturbedMachine(s, s', m, w.saved);
    }
    if w.pc.ListAll? || w.pc.CreateName? {
      UndisturbedOwner(s, s', m, w.work.uuid);
    }
  }

  /** What the invariant says about one machine. */
  lemma InvOf(s: State, m: string)
    requires Inv(s) && m in s.workers
    ensures StoreSound(s.store, s.issued) && WorkerSound(s, m, s.workers[m])
  {
  }

  predicate IsWorkerAction(a: Action) {
    !a.Register? && !a.VmStops? && !a.Lose?
  }

  /** Without outside losses no worker gets as far as recreating a reservation. */
  lemma RecreateIsNeverReached(s: State, a: Action)
    requires Inv(s) && a.DoRecreate?
    ensures !Allowed(s, a)
  {
    hide Inv, MachineSound, NewWorker, NormalizedPrefix;
    if a.m in s.workers {
      InvOf(s, a.m);
    }
  }

  lemma {:induction false} DestroysItsOwn(s: State, a: Action)
    requires Inv(s) && Allowed(s, a) && a.DoDestroy?
    ensures var w := s.workers[a.m];
            Owns(s.store, w.pc.reservationId, w.work.uuid) && s.store[w.pc.reservationId].stateResourceId == a.m
  {
    hide Inv, MachineSound, NewWorker, NormalizedPrefix;
    InvOf(s, a.m);
  }

  /** The store changes only when a worker creates over nobody's reservation or destroys its own. */
  lemma {:induction false} StoreChange(s: State, a: Action)
    requires Inv(s) && Allowed(s, a) && IsWorkerAction(a)
    ensures var w := s.workers[a.m];
            var store := NewStore(s, w, a);
            || store == s.store
            || (a.DoCreate? && CreatedId(w.pc) !in s.store &&
                store == s.store[CreatedId(w.pc) := CreatedReservation(w, a.m)])
            || (a.DoDestroy? && Owns(s.store, w.pc.reservationId, w.work.uuid)
                && s.store[w.pc.reservationId].stateResourceId == a.m && store == s.store - {w.pc.reservationId})
  {
    hide Inv, NextOrdinal, NormalizedPrefix, ReservationResourceID, CreatedReservation, NewWorker, NewIssued, NewVms;
    if a.DoRecreate? {
      RecreateIsNeverReached(s, a);
    } else if a.DoDestroy? {
      DestroysItsOwn(s, a);
    }
  }

  lemma AddedSound(store: Store, issued: map<string, string>, id: string, r: NameReservation)
    requires StoreSound(store, issued) && IdMatches(id, r)
    requires r.machineUuid in issued && issued[r.machineUuid] == r.stateResourceId && !OwnsAny(store, r.machineUuid)
    ensures StoreSound(store[id := r], issued)
  {
    hide IdMatches;
    forall i | i in store ensures store[i].machineUuid != r.machineUuid {
      assert !Owns(store, i, r.machineUuid);
    }
  }

  lemma CreatedMatches(w: Worker, m: string)
    requires w.pc.CreateName? && IsRole(w.pc.role) && 0 < w.pc.ordinal && w.pc.ordinal < 0x8000_0000
    ensures IdMatches(CreatedId(w.pc), CreatedReservation(w, m))
    ensures CreatedReservation(w, m).machineUuid == w.work.uuid && CreatedReservation(w, m).stateResourceId == m
  {
    hide SequenceVMName, ReservationResourceID;
  }

  lemma {:induction false} StepStoreSound(s: State, a: Action)
    requires Inv(s) && Allowed(s, a) && IsWorkerAction(a)
    ensures var w := s.workers[a.m]; StoreSound(NewStore(s, w, a), NewIssued(s, w, a))
  {
    hide Inv, IdsMatch, VmSound, NextOrdinal, NormalizedPrefix, NewWorker, NewVms, CreatedReservation, CreatedId,
         NewStore, IdMatches;
    InvOf(s, a.m);
    StoreChange(s, a);
    var w := s.workers[a.m];
    if a.DoCreate? && CreatedId(w.pc) !in s.store {
      CreatedMatches(w, a.m);
      AddedSound(s.store, s.issued, CreatedId(w.pc), CreatedReservation(w, a.m));
    } else if a.DoDestroy? {
      RemovedSound(s.store, s.issued, w.pc.reservationId);
    }
  }

  lemma RemovedSound(store: Store, issued: map<string, string>, id: string)
    requires StoreSound(store, issued)
    ensures StoreSound(store - {id}, issued)
  {
    hide IdMatches;
  }

  lemma {:induction false} StepOwnedKept(s: State, a: Action, m: string)
    requires Inv(s) && Allowed(s, a) && IsWorkerAction(a) && m != a.m
    ensures OwnedKept(s.store, NewStore(s, s.workers[a.m], a), m)
  {
    hide NewStore, NewWorker, WorkerSound, StoreSound, VmSound, CreatedId, NewIssued, NewVms, Inv, CanDo, Allowed,
         NormalizedPrefix, NextOrdinal;
    StoreChange(s, a);
  }

  lemma StepVmsKept(s: State, a: Action, m: string)
    requires Enabled(s, a) && IsWorkerAction(a) && m != a.m
    ensures VmsKept(s.vms, NewVms(s, s.workers[a.m], a), m)
  {
    hide NewStore, NewWorker, NewIssued;
  }

  lemma {:induction false} StepUndisturbed(s: State, a: Action, m: string)
    requires Inv(s) && Allowed(s, a) && IsWorkerAction(a) && m != a.m
    ensures Undisturbed(s, Step(s, a), m)
  {
    StepOwnedKept(s, a, m);
    StepVmsKept(s, a, m);
    hide NewStore, NewVms, NewWorker, WorkerSound, StoreSound, VmSound, OwnedKept, VmsKept, NormalizedPrefix;
  }

  /** The state a worker of machine `m` meets after its action, but for the table of workers. */
  ghost function After(s: State, a: Action): State
    requires Enabled(s, a) && IsWorkerAction(a)
  {
    var w := s.workers[a.m];
    s.(store := NewStore(s, w, a), vms := NewVms(s, w, a), issued := NewIssued(s, w, a))
  }

  predicate IsQuiet(a: Action) {
    IsWorkerAction(a) && !a.DoCreate? && !a.DoRecreate? && !a.DoDestroy? && !a.DoInstantiate?
  }

  /** Quiet actions leave the store and the VMs alone. */
  lemma QuietKeeps(s: State, a: Action)
    requires Enabled(s, a) && IsQuiet(a)
    ensures After(s, a) == s.(issued := NewIssued(s, s.workers[a.m], a))
    ensures !a.BeginAssign? ==> After(s, a) == s
  {
    hide NewWorker;
  }

  lemma BeginAssignSound(s: State, a: Action)
    requires Inv(s) && Allowed(s, a) && a.BeginAssign?
    ensures WorkerSound(After(s, a), a.m, NewWorker(s, s.workers[a.m], a))
  {
    hide Inv, IdsMatch, VmSound, NextOrdinal, NormalizedPrefix, After, NewStore, NewVms;
    InvOf(s, a.m);
    QuietKeeps(s, a);
  }

  lemma DoGetSound(s: State, a: Action)
    requires Inv(s) && Allowed(s, a) && a.DoGet?
    ensures WorkerSound(After(s, a), a.m, NewWorker(s, s.workers[a.m], a))
  {
    hide Inv, IdsMatch, VmSound, NextOrdinal, NormalizedPrefix, After, NewStore, NewVms;
    InvOf(s, a.m);
    QuietKeeps(s, a);
  }

  lemma StoredIdIsNotEmpty(store: Store, id: string)
    requires IdsMatch(store) && id in store
    ensures id != ""
  {
    IdIsNotEmpty(store[id].clusterPrefix, store[id].role, store[id].ordinal);
    assert IdMatches(id, store[id]);
  }

  lemma DoListByUuidSound(s: State, a: Action)
    requires Inv(s) && Allowed(s, a) && a.DoListByUuid?
    ensures WorkerSound(After(s, a), a.m, NewWorker(s, s.workers[a.m], a))
  {
    hide Inv, IdsMatch, VmSound, NextOrdinal, NormalizedPrefix, After, NewStore, NewVms, IdMatches;
    InvOf(s, a.m);
    QuietKeeps(s, a);
    if OwnsAny(s.store, s.workers[a.m].work.uuid) {
      StoredIdIsNotEmpty(s.store, a.pick);
    }
  }

  lemma DoListAllSound(s: State, a: Action)
    requires Inv(s) && Allowed(s, a) && a.DoListAll?
    ensures WorkerSound(After(s, a), a.m, NewWorker(s, s.workers[a.m], a))
  {
    hide Inv, IdsMatch, VmSound, NextOrdinal, NormalizedPrefix, After, NewStore, NewVms;
    InvOf(s, a.m);
    QuietKeeps(s, a);
    NextOrdinalBound(s.store, s.workers[a.m].pc.prefix, s.workers[a.m].pc.role);
  }

  predicate EndsStep(a: Action) {
    a.Save? || a.Fail? || a.Crash?
  }

  lemma EndOfStepSound(s: State, a: Action)
    requires Inv(s) && Allowed(s, a) && EndsStep(a)
    ensures WorkerSound(After(s, a), a.m, NewWorker(s, s.workers[a.m], a))
  {
    hide Inv, IdsMatch, VmSound, NextOrdinal, NormalizedPrefix, After, NewStore, NewVms;
    InvOf(s, a.m);
    QuietKeeps(s, a);
  }

  predicate IsBegin(a: Action) {
    a.BeginInstantiate? || a.BeginDeprovision?
  }

  lemma BeginSound(s: State, a: Action)
    requires Inv(s) && Allowed(s, a) && IsBegin(a)
    ensures WorkerSound(After(s, a), a.m, NewWorker(s, s.workers[a.m], a))
  {
    hide Inv, StoreSound, MachineSound, VmSound, NextOrdinal, NormalizedPrefix, After, NewStore, NewVms;
    InvOf(s, a.m);
    QuietKeeps(s, a);
  }

  predicate IsVmQuery(a: Action) {
    a.DoObserve? || a.DoDelete? || a.DoConfirm? || a.DoForce? || a.DoConfirmForced?
  }

  lemma {:induction false} VmQuerySound(s: State, a: Action)
    requires Inv(s) && Allowed(s, a) && IsVmQuery(a)
    ensures WorkerSound(After(s, a), a.m, NewWorker(s, s.workers[a.m], a))
  {
    hide Inv, StoreSound, MachineSound, VmSound, NextOrdinal, NormalizedPrefix, After, NewStore, NewVms;
    InvOf(s, a.m);
    QuietKeeps(s, a);
  }

  lemma {:induction false} DoReleaseSound(s: State, a: Action)
    requires Inv(s) && Allowed(s, a) && a.DoRelease?
    ensures WorkerSound(After(s, a), a.m, NewWorker(s, s.workers[a.m], a))
  {
    hide Inv, IdsMatch, VmSound, NextOrdinal, NormalizedPrefix, After, NewStore, NewVms;
    InvOf(s, a.m);
    QuietKeeps(s, a);
  }

  lemma DoInstantiateSound(s: State, a: Action)
    requires Inv(s) && Allowed(s, a) && a.DoInstantiate?
    ensures WorkerSound(After(s, a), a.m, NewWorker(s, s.workers[a.m], a))
  {
    hide Inv, IdsMatch, VmSound, NextOrdinal, NormalizedPrefix;
    InvOf(s, a.m);
  }

  lemma {:induction false} DoDestroySound(s: State, a: Action)
    requires Inv(s) && Allowed(s, a) && a.DoDestroy?
    ensures WorkerSound(After(s, a), a.m, NewWorker(s, s.workers[a.m], a))
  {
    hide Inv, IdsMatch, VmSound, NextOrdinal, NormalizedPrefix;
    InvOf(s, a.m);
  }

  lemma DoCreateSound(s: State, a: Action)
    requires Inv(s) && Allowed(s, a) && a.DoCreate?
    ensures WorkerSound(After(s, a), a.m, NewWorker(s, s.workers[a.m], a))
  {
    hide Inv, IdsMatch, VmSound, NextOrdinal, NormalizedPrefix, ReservationResourceID;
    InvOf(s, a.m);
    var w := s.workers[a.m];
    IdIsNotEmpty(w.pc.prefix, w.pc.role, w.pc.ordinal);
  }

  lemma {:induction false} ActorSound(s: State, a: Action)
    requires Inv(s) && Allowed(s, a) && IsWorkerAction(a)
    ensures WorkerSound(After(s, a), a.m, NewWorker(s, s.workers[a.m], a))
  {
    hide Inv, WorkerSound, NewWorker, NewStore, NewVms, NewIssued, After;
    match a
    case BeginAssign(_, _) => BeginAssignSound(s, a);
    case DoGet(_) => DoGetSound(s, a);
    case DoListByUuid(_, _, _, _) => DoListByUuidSound(s, a);
    case DoRecreate(_) => RecreateIsNeverReached(s, a);
    case DoListAll(_) => DoListAllSound(s, a);
    case DoCreate(_, _) => DoCreateSound(s, a);
    case DoInstantiate(_, _) => DoInstantiateSound(s, a);
    case DoRelease(_, _) => DoReleaseSound(s, a);
    case DoDestroy(_) => DoDestroySound(s, a);
    case _ =>
      if EndsStep(a) { EndOfStepSound(s, a); } else if IsBegin(a) { BeginSound(s, a); } else { VmQuerySound(s, a); }
  }

  /** A worker knows its live VM in work, and as saved unless it has just instantiated it. */
  predicate Knows(w: Worker, vmId: int) {
    w.work.vmId == vmId && (!w.pc.Instantiated? ==> w.saved.vmId == vmId)
  }

  /** A worker forgets its VM only when that is gone. */
  lemma {:induction false} ActorKnows(s: State, a: Action, vmId: int)
    requires Inv(s) && Allowed(s, a) && IsWorkerAction(a) && !a.DoInstantiate?
    requires vmId != 0 && vmId in s.vms && s.vms[vmId].state.Active? && Knows(s.workers[a.m], vmId)
    ensures Knows(NewWorker(s, s.workers[a.m], a), vmId)
  {
    hide Inv, StoreSound, MachineSound, VmSound, NextOrdinal, NormalizedPrefix, ReservationResourceID, NewReservation,
         NewStore;
    InvOf(s, a.m);
  }

  lemma {:induction false} StepVmSound(s: State, a: Action, vmId: int)
    requires Inv(s) && Allowed(s, a)
    ensures VmSound(Step(s, a), vmId)
  {
    hide NewStore, NewWorker, NewIssued, WorkerSound, StoreSound;
    assert VmSound(s, vmId);
    if a.DoInstantiate? {
      InstantiatedVmSound(s, a, vmId);
    } else if IsWorkerAction(a) {
      hide CanDo;
      if vmId != 0 && vmId in s.vms && s.vms[vmId].state.Active? && s.vms[vmId].owner == a.m {
        ActorKnows(s, a, vmId);
      }
    }
  }

  lemma {:induction false} InstantiatedVmSound(s: State, a: Action, vmId: int)
    requires Inv(s) && Allowed(s, a) && a.DoInstantiate?
    ensures VmSound(Step(s, a), vmId)
  {
    hide NewStore, NewWorker, NewIssued, WorkerSound, StoreSound;
    assert VmSound(s, vmId);
    InstantiatedKnows(s, a);
    InstantiatesOnce(s, a);
  }

  lemma InstantiatedKnows(s: State, a: Action)
    requires Enabled(s, a) && a.DoInstantiate?
    ensures var w := NewWorker(s, s.workers[a.m], a); w.work.vmId == a.vmId && w.pc.Instantiated?
  {
  }

  /** A machine that is about to be instantiated has no live VM. */
  lemma InstantiatesOnce(s: State, a: Action)
    requires Inv(s) && Allowed(s, a) && a.DoInstantiate?
    ensures forall v :: v in s.vms && s.vms[v].owner == a.m ==> !s.vms[v].state.Active?
  {
    hide StoreSound, NewWorker, NewStore;
    InvOf(s, a.m);
    forall v | v in s.vms && s.vms[v].owner == a.m ensures !s.vms[v].state.Active? {
      assert VmSound(s, v);
    }
  }

  lemma {:induction false} StepWorkerSound(s: State, a: Action, m: string)
    requires Inv(s) && Allowed(s, a) && m in Step(s, a).workers
    ensures WorkerSound(Step(s, a), m, Step(s, a).workers[m])
  {
    hide NewStore, NewVms, NewIssued, NewWorker, MachineSound, PcSound, StoreSound, VmSound;
    if IsWorkerAction(a) {
      if m == a.m {
        ActorSound(s, a);
        SameForWorkers(After(s, a), Step(s, a), m, Step(s, a).workers[m]);
      } else {
        InvOf(s, m);
        StepUndisturbed(s, a, m);
        StepStoreSound(s, a);
        UndisturbedWorker(s, Step(s, a), m, s.workers[m]);
      }
    } else {
      OutsideSound(s, a, m);
    }
  }

  lemma SameForWorkers(s: State, s': State, m: string, w: Worker)
    requires WorkerSound(s, m, w) && s'.store == s.store && s'.vms == s.vms && s'.issued == s.issued
    ensures WorkerSound(s', m, w)
  {
  }

  lemma OutsideUndisturbed(s: State, a: Action, m: string)
    requires Allowed(s, a) && !IsWorkerAction(a)
    ensures Undisturbed(s, Step(s, a), m) && Step(s, a).store == s.store && Step(s, a).issued == s.issued
  {
    hide NewStore, NewVms, NewIssued, NewWorker;
  }

  lemma OutsideWorkers(s: State, a: Action, m: string)
    requires Allowed(s, a) && !IsWorkerAction(a) && m in Step(s, a).workers
    ensures Step(s, a).workers[m] == if m in s.workers then s.workers[m]
            else Worker(NEW_MACHINE, NEW_MACHINE, false, Idle)
  {
  }

  /** A new machine, or a VM that stops by itself. */
  lemma OutsideSound(s: State, a: Action, m: string)
    requires Inv(s) && Allowed(s, a) && !IsWorkerAction(a) && m in Step(s, a).workers
    ensures WorkerSound(Step(s, a), m, Step(s, a).workers[m])
  {
    OutsideUndisturbed(s, a, m);
    OutsideWorkers(s, a, m);
    hide Inv, StoreSound, WorkerSound, Undisturbed, Step;
    if m in s.workers {
      InvOf(s, m);
      UndisturbedWorker(s, Step(s, a), m, s.workers[m]);
    } else {
      NewWorkerSound(Step(s, a), m);
    }
  }

  lemma NewWorkerSound(s: State, m: string)
    ensures WorkerSound(s, m, Worker(NEW_MACHINE, NEW_MACHINE, false, Idle))
  {
  }

  /** Every allowed action keeps the invariant. */
  lemma {:induction false} StepKeepsInv(s: State, a: Action)
    requires Inv(s) && Allowed(s, a)
    ensures Inv(Step(s, a))
  {
    hide NewStore, NewVms, NewIssued, NewWorker, WorkerSound, StoreSound, VmSound;
    if IsWorkerAction(a) {
      StepStoreSound(s, a);
    }
    forall m | m in Step(s, a).workers ensures WorkerSound(Step(s, a), m, Step(s, a).workers[m]) {
      StepWorkerSound(s, a, m);
    }
    forall vmId ensures VmSound(Step(s, a), vmId) {
      StepVmSound(s, a, vmId);
    }
  }

  // ---------------------------------------------------------------- what runs guarantee

  lemma {:induction false} RunKeepsInv(s: State, run: seq<Action>, s': State)
    requires Inv(s) && Leads(s, run, s')
    ensures Inv(s')
    decreases |run|
  {
    hide Inv, Enabled, Step;
    if run == [] {
    } else {
      StepKeepsInv(s, run[0]);
      RunKeepsInv(Step(s, run[0]), run[1..], s');
    }
  }

  /** Every live VM's name is that of a stored reservation held by its machine. */
  ghost predicate Backed(s: State) {
    forall vmId :: vmId in s.vms && s.vms[vmId].state.Active? ==>
      var vm := s.vms[vmId];
      && vm.owner in s.workers
      && var id := s.workers[vm.owner].work.reservationId;
         id in s.store && s.store[id].vmName == vm.name && s.store[id].stateResourceId == vm.owner
  }

  ghost predicate LiveNamesDiffer(s: State) {
    forall v, v' :: v in s.vms && v' in s.vms && v != v' && s.vms[v].state.Active? && s.vms[v'].state.Active? ==>
      s.vms[v].name != s.vms[v'].name
  }

  ghost predicate OneReservationPerUuid(s: State) {
    forall id, id' :: id in s.store && id' in s.store && s.store[id].machineUuid == s.store[id'].machineUuid ==>
        id == id'
  }

  lemma LiveVmHolds(s: State, vmId: int)
    requires Inv(s) && vmId in s.vms && s.vms[vmId].state.Active?
    ensures var m := s.vms[vmId].owner;
            && m in s.workers && s.workers[m].work.vmId == vmId && s.workers[m].work.vmName == s.vms[vmId].name
            && Holds(s, m, s.workers[m].work)
  {
    hide PcSound, StoreSound;
    assert VmSound(s, vmId);
    InvOf(s, s.vms[vmId].owner);
  }

  lemma InvBacks(s: State)
    requires Inv(s)
    ensures Backed(s)
  {
    hide Inv;
    forall vmId | vmId in s.vms && s.vms[vmId].state.Active?
      ensures var vm := s.vms[vmId];
              && vm.owner in s.workers
              && var id := s.workers[vm.owner].work.reservationId;
                 id in s.store && s.store[id].vmName == vm.name && s.store[id].stateResourceId == vm.owner
    {
      LiveVmHolds(s, vmId);
    }
  }

  lemma InvSeparatesNames(s: State)
    requires Inv(s)
    ensures LiveNamesDiffer(s)
  {
    hide WorkerSound, VmSound, MachineSound;
    forall v, v' | v in s.vms && v' in s.vms && v != v' && s.vms[v].state.Active? && s.vms[v'].state.Active?
      ensures s.vms[v].name != s.vms[v'].name
    {
      LiveVmHolds(s, v);
      LiveVmHolds(s, v');
      if s.vms[v].name == s.vms[v'].name {
        var id, id' := s.workers[s.vms[v].owner].work.reservationId, s.workers[s.vms[v'].owner].work.reservationId;
        NamesAreDistinct(s.store, id, id');
      }
    }
  }

  /** Safety: in every reachable state live VMs have names of their own, each backed by a reservation. */
  lemma {:induction false} ReachableIsSafe(run: seq<Action>, s: State)
    requires Leads(START, run, s)
    ensures Inv(s) && Backed(s) && LiveNamesDiffer(s) && OneReservationPerUuid(s)
  {
    RunKeepsInv(START, run, s);
    InvBacks(s);
    InvSeparatesNames(s);
  }

  /** Only a worker's destroy removes a reservation. */
  lemma {:induction false} RemovedByDestroy(s: State, a: Action, id: string)
    requires Inv(s) && Allowed(s, a) && id in s.store && id !in Step(s, a).store
    ensures Step(s, a).store == s.store - {id}
  {
    hide NewStore, NewWorker, NewVms, NewIssued, Inv, CanDo;
    if IsWorkerAction(a) {
      StoreChange(s, a);
    }
  }

  /** No action frees a name while a VM of that name lives. */
  lemma {:induction false} NoLiveNameIsFreed(s: State, a: Action, id: string, vmId: int)
    requires Inv(s) && Allowed(s, a) && id in s.store && id !in Step(s, a).store
    requires vmId in Step(s, a).vms && Step(s, a).vms[vmId].state.Active?
    ensures Step(s, a).vms[vmId].name != s.store[id].vmName
  {
    assert IdsMatch(s.store);
    hide Inv, Step, Allowed, IdsMatch;
    StepKeepsInv(s, a);
    InvBacks(Step(s, a));
    RemovedByDestroy(s, a, id);
    var s' := Step(s, a);
    var id' := s'.workers[s'.vms[vmId].owner].work.reservationId;
    assert id' in s'.store && s'.store[id'].vmName == s'.vms[vmId].name;
    if s.store[id].vmName == s.store[id'].vmName {
      NamesAreDistinct(s.store, id, id');
    }
  }

  // ---------------------------------------------------------------- names are stable

  /** Only its own machine's release removes a reservation, and nothing changes it. */
  lemma {:induction false} ReservationStays(s: State, a: Action, id: string)
    requires Inv(s) && Allowed(s, a) && id in s.store && a != DoDestroy(s.store[id].stateResourceId)
    ensures id in Step(s, a).store && Step(s, a).store[id] == s.store[id]
  {
    hide NewStore, NewWorker, NewVms, NewIssued, WorkerSound, StoreSound, VmSound, Inv;
    if IsWorkerAction(a) {
      StoreChange(s, a);
    }
  }

  lemma {:induction false} ReservationSurvives(s: State, run: seq<Action>, s': State, id: string)
    requires Inv(s) && Leads(s, run, s') && id in s.store && DoDestroy(s.store[id].stateResourceId) !in run
    ensures Inv(s') && id in s'.store && s'.store[id] == s.store[id]
    decreases |run|
  {
    hide Inv, Enabled, Step;
    if run == [] {
    } else {
      StepKeepsInv(s, run[0]);
      ReservationStays(s, run[0], id);
      assert run[0] in run && forall a :: a in run[1..] ==> a in run;
      ReservationSurvives(Step(s, run[0]), run[1..], s', id);
    }
  }

  /** Whoever holds a reservation under a UUID holds the only one there is. */
  lemma HoldsTheOne(s: State, m: string, k: Machine, id: string)
    requires StoreSound(s.store, s.issued) && MachineSound(s, m, k) && k.reservationId != "" &&
             Owns(s.store, id, k.uuid)
    ensures k.reservationId == id && k.vmName == s.store[id].vmName
  {
    hide IdsMatch;
  }

  /**
   Name stability: once a UUID has a reservation, every later assignment under that UUID, however
   often steps fail, crash and run again, ends with that reservation and its name, and no second
   reservation is made, until the machine itself releases it.
   */
  lemma {:induction false} NameIsStable(s: State, run: seq<Action>, s': State, id: string, m: string)
    requires Inv(s) && Leads(s, run, s') && id in s.store && DoDestroy(s.store[id].stateResourceId) !in run
    requires m in s'.workers
    ensures id in s'.store && s'.store[id] == s.store[id]
    ensures forall id' :: Owns(s'.store, id', s.store[id].machineUuid) ==> id' == id
    ensures var w := s'.workers[m];
            && (w.work.uuid == s.store[id].machineUuid && w.work.reservationId != "" ==>
                  w.work.reservationId == id && w.work.vmName == s.store[id].vmName)
            && (w.saved.uuid == s.store[id].machineUuid && w.saved.reservationId != "" && !w.pc.Released? ==>
                  w.saved.reservationId == id && w.saved.vmName == s.store[id].vmName)
  {
    hide Leads, PcSound, VmSound, MachineSound;
    ReservationSurvives(s, run, s', id);
    InvOf(s', m);
    var w := s'.workers[m];
    if w.work.uuid == s.store[id].machineUuid && w.work.reservationId != "" {
      HoldsTheOne(s', m, w.work, id);
    }
    if w.saved.uuid == s.store[id].machineUuid && w.saved.reservationId != "" && !w.pc.Released? {
      HoldsTheOne(s', m, w.saved, id);
    }
  }

  /** A worker after a crash in front of its save, and after starting over. */
  lemma CrashAndRestart(s: State, m: string, drawn: string)
    requires m in s.workers && s.workers[m].pc.Assigned? && s.workers[m].saved.uuid != ""
    ensures var w := s.workers[m];
            var s1 := s.(workers := s.workers[m := w.(work := w.saved, pc := Idle)]);
            var pc := if w.saved.reservationId == "" then ListByUuid else GetReservation;
            && Allowed(s, Crash(m)) && Step(s, Crash(m)) == s1
            && Allowed(s1, BeginAssign(m, drawn))
            && Step(s1, BeginAssign(m, drawn)) == s.(workers := s.workers[m := w.(work := w.saved, pc := pc)])
  {
    hide NormalizedPrefix, NextOrdinal;
    var w := s.workers[m];
    var s1 := s.(workers := s.workers[m := w.(work := w.saved, pc := Idle)]);
    var w2 := w.(work := w.saved, pc := if w.saved.reservationId == "" then ListByUuid else GetReservation);
    assert s1.workers[m := w2] == s.workers[m := w2];
  }

  /** The search by UUID takes over the reservation it finds and leaves the store alone. */
  lemma FoundByUuid(s: State, m: string, pick: string, clusterName: string, role: string)
    requires m in s.workers && s.workers[m].pc.ListByUuid? && Owns(s.store, pick, s.workers[m].work.uuid)
    requires NormalizedPrefix(clusterName).Success? && IsRole(role)
    ensures var a := DoListByUuid(m, pick, clusterName, role);
            var w := s.workers[m];
            && Allowed(s, a)
            && Step(s, a) ==
               s.(workers := s.workers[m := w.(work := Applied(w.work, pick, s.store[pick]), pc := Assigned)])
  {
    hide NormalizedPrefix, NextOrdinal, IsRole;
    assert OwnsAny(s.store, s.workers[m].work.uuid);
  }

  /** The reservation a machine holds is read again. */
  lemma FoundById(s: State, m: string)
    requires m in s.workers && s.workers[m].pc.GetReservation? && s.workers[m].work.reservationId in s.store
    ensures var w := s.workers[m];
            var id := w.work.reservationId;
            && Allowed(s, DoGet(m))
            && Step(s, DoGet(m)) ==
               s.(workers := s.workers[m := w.(work := Applied(w.work, id, s.store[id]), pc := Assigned)])
  {
    hide NormalizedPrefix, NextOrdinal;
  }

  lemma {:induction false} ThreeSteps(s: State, a: Action, b: Action, c: Action)
    requires Allowed(s, a) && Allowed(Step(s, a), b) && Allowed(Step(Step(s, a), b), c)
    ensures Leads(s, [a, b, c], Step(Step(Step(s, a), b), c))
  {
    hide Enabled, Step;
    var s3 := Step(Step(Step(s, a), b), c);
    assert Leads(s3, [], s3);
    assert [c][1..] == [] && [b, c][1..] == [c] && [a, b, c][1..] == [b, c];
    assert Leads(Step(Step(s, a), b), [c], s3);
    assert Leads(Step(s, a), [b, c], s3);
  }

  /** How the next assignment looks for the reservation of a machine that has crashed. */
  ghost function Lookup(s: State, m: string, clusterName: string, role: string): Action
    requires m in s.workers
  {
    if s.workers[m].saved.reservationId == "" then DoListByUuid(m, s.workers[m].work.reservationId, clusterName, role)
    else DoGet(m)
  }

  /** At the end of an assignment the saved state is the one in work, or lacks just the naming. */
  lemma AssignedHolds(s: State, m: string)
    requires Inv(s) && m in s.workers && s.workers[m].pc.Assigned? && s.workers[m].saved.uuid != ""
    ensures var w := s.workers[m];
            var id := w.work.reservationId;
            && Owns(s.store, id, w.saved.uuid)
            && (w.saved.reservationId != "" ==> w.saved.reservationId == id)
            && Applied(w.saved, id, s.store[id]) == w.work
  {
    hide Inv, IdsMatch, NormalizedPrefix;
    InvOf(s, m);
  }

  /**
   A reservation made or held just before a crash is the one the next assignment finds, by its id or
   under the machine's saved UUID: the machine ends up as if the crash had not happened.
   `LifecycleLeaks.RecoversExactlyWhen` shows that without a saved UUID nothing finds it.
   */
  lemma {:induction false} CrashedAssignmentRecovers(s: State, m: string, drawn: string, clusterName: string,
                                                     role: string)
    requires Inv(s) && m in s.workers && s.workers[m].pc.Assigned? && s.workers[m].saved.uuid != ""
    requires NormalizedPrefix(clusterName).Success? && IsRole(role)
    ensures forall pick :: Owns(s.store, pick, s.workers[m].saved.uuid) ==> pick == s.workers[m].work.reservationId
    ensures Leads(s, [Crash(m), BeginAssign(m, drawn), Lookup(s, m, clusterName, role)], s)
  {
    hide NormalizedPrefix, IsRole, NextOrdinal, Allowed, Step, IdsMatch, WorkerSound, VmSound, Leads;
    AssignedHolds(s, m);
    var w := s.workers[m];
    CrashAndRestart(s, m, drawn);
    if w.saved.reservationId == "" {
      var s2 := s.(workers := s.workers[m := w.(work := w.saved, pc := ListByUuid)]);
      FoundByUuid(s2, m, w.work.reservationId, clusterName, role);
      assert s2.workers[m := w] == s.workers;
    } else {
      var s2 := s.(workers := s.workers[m := w.(work := w.saved, pc := GetReservation)]);
      FoundById(s2, m);
      assert s2.workers[m := w] == s.workers;
    }
    ThreeSteps(s, Crash(m), BeginAssign(m, drawn), Lookup(s, m, clusterName, role));
  }
}
