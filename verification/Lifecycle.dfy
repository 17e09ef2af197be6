/**
 The whole provider as a state machine: any number of machines are assigned a name, instantiated and
 deprovisioned against one store of reservations and one OpenNebula. Every call to the store and to
 OpenNebula is one atomic action, and actions of different machines interleave freely
 (`allocator.go`, `provision.go`, `deprovision.go` under `internal/pkg/provider/`).
 */
module Lifecycle {
  import opened Wrappers
  import opened Naming
  import opened Reservations

  /** A VM that is done or missing never becomes active again, and ids are not used twice. */
  datatype VmState = Active | Done | Missing

  datatype VM = VM(name: string, state: VmState, owner: string)

  /** Where a worker is inside a step; `Assigned`, `Instantiated` and `Released` await their save. */
  datatype Pc =
    | Idle
    | GetReservation
    | ListByUuid
    | Recreate
    | ListAll(clusterName: string, prefix: string, role: string, attempt: nat)
    | CreateName(clusterName: string, prefix: string, role: string, attempt: nat, ordinal: nat)
    | Assigned
    | Instantiate
    | Instantiated
    | ObserveVM
    | DeleteVM
    | ConfirmVM
    | ForceVM
    | ConfirmForced
    | Release
    | DestroyName(reservationId: string)
    | Released

  /** `saved` is the stored state resource, `work` the copy a running step changes; `ready` once a name is saved. */
  datatype Worker = Worker(saved: Machine, work: Machine, ready: bool, pc: Pc)

  /** `issued` remembers which machine drew which UUID; nothing in the provider reads it. */
  datatype State = State(store: Store, vms: map<int, VM>, workers: map<string, Worker>, issued: map<string, string>)

  const START := State(map[], map[], map[], map[])

  datatype Action =
    | Register(m: string)
    | BeginAssign(m: string, drawn: string)
    | DoGet(m: string)
    | DoListByUuid(m: string, pick: string, clusterName: string, role: string)
    | DoRecreate(m: string)
    | DoListAll(m: string)
    | DoCreate(m: string, replied: bool)
    | BeginInstantiate(m: string)
    | DoInstantiate(m: string, vmId: int)
    | BeginDeprovision(m: string)
    | DoObserve(m: string)
    | DoDelete(m: string)
    | DoConfirm(m: string)
    | DoForce(m: string)
    | DoConfirmForced(m: string)
    | DoRelease(m: string, pick: string)
    | DoDestroy(m: string)
    | Save(m: string)
    | Fail(m: string)
    | Crash(m: string)
    | VmStops(vmId: int, end: VmState)
    | Lose(id: string)

  predicate Stopped(s: State, vmId: int) {
    vmId in s.vms ==> !s.vms[vmId].state.Active?
  }

  ghost predicate Enabled(s: State, a: Action) {
    match a
    case Register(m) => m !in s.workers
    case VmStops(vmId, end) => vmId in s.vms && !end.Active?
    case Lose(id) => id in s.store
    case _ => a.m in s.workers && CanDo(s, s.workers[a.m], a)
  }

  /** What the worker itself must have reached. */
  ghost predicate CanDo(s: State, w: Worker, a: Action)
    requires !a.Register? && !a.VmStops? && !a.Lose?
  {
    match a
    case BeginAssign(_, drawn) => w.pc.Idle? && (w.work.uuid == "" ==> drawn != "" && drawn !in s.issued)
    case DoGet(_) => w.pc.GetReservation?
    case DoListByUuid(_, pick, clusterName, role) =>
      && w.pc.ListByUuid?
      && (OwnsAny(s.store, w.work.uuid) ==> Owns(s.store, pick, w.work.uuid))
      && NormalizedPrefix(clusterName).Success? && IsRole(role)
    case DoRecreate(_) => w.pc.Recreate? && CanRecreate(w.work)
    case DoListAll(_) => w.pc.ListAll?
    case DoCreate(_, _) => w.pc.CreateName?
    case BeginInstantiate(_) => w.pc.Idle? && w.ready
    case DoInstantiate(_, vmId) => w.pc.Instantiate? && vmId != 0 && vmId !in s.vms
    case BeginDeprovision(_) => w.pc.Idle?
    case DoObserve(_) => w.pc.ObserveVM?
    case DoDelete(_) => w.pc.DeleteVM?
    case DoConfirm(_) => w.pc.ConfirmVM?
    case DoForce(_) => w.pc.ForceVM?
    case DoConfirmForced(_) => w.pc.ConfirmForced?
    case DoRelease(_, pick) =>
      && w.pc.Release?
      && (w.work.reservationId == "" && w.work.uuid != "" && OwnsAny(s.store, w.work.uuid) ==>
          Owns(s.store, pick, w.work.uuid))
    case DoDestroy(_) => w.pc.DestroyName?
    case Save(_) => w.pc.Assigned? || w.pc.Instantiated? || w.pc.Released?
    case Fail(_) => !w.pc.Idle? && !w.pc.Assigned? && !w.pc.Instantiated? && !w.pc.Released?
    case Crash(_) => true
  }

  ghost function Step(s: State, a: Action): State
    requires Enabled(s, a)
  {
    match a
    case Register(m) => s.(workers := s.workers[m := Worker(NEW_MACHINE, NEW_MACHINE, false, Idle)])
    case VmStops(vmId, end) => s.(vms := s.vms[vmId := s.vms[vmId].(state := end)])
    case Lose(id) => s.(store := s.store - {id})
    case _ =>
      var w := s.workers[a.m];
      State(NewStore(s, w, a), NewVms(s, w, a), s.workers[a.m := NewWorker(s, w, a)], NewIssued(s, w, a))
  }

  ghost function NewIssued(s: State, w: Worker, a: Action): map<string, string> {
    if a.BeginAssign? && w.work.uuid == "" then s.issued[a.drawn := a.m] else s.issued
  }

  ghost function NewVms(s: State, w: Worker, a: Action): map<int, VM> {
    if a.DoInstantiate? then s.vms[a.vmId := VM(w.work.vmName, Active, a.m)] else s.vms
  }

  function CreatedId(pc: Pc): string
    requires pc.CreateName?
  {
    ReservationResourceID(pc.prefix, pc.role, pc.ordinal)
  }

  function CreatedReservation(w: Worker, m: string): NameReservation
    requires w.pc.CreateName?
  {
    NewReservation(w.pc.clusterName, w.pc.prefix, w.pc.role, w.pc.ordinal, m, w.work.uuid, m)
  }

  ghost function NewStore(s: State, w: Worker, a: Action): Store
    requires !a.Register? && !a.VmStops? && !a.Lose? && CanDo(s, w, a)
  {
    match a
    case DoCreate(m, _) =>
      if CreatedId(w.pc) in s.store then s.store else s.store[CreatedId(w.pc) := CreatedReservation(w, m)]
    case DoRecreate(m) =>
      if RecreatedId(w.work) in s.store then s.store
      else s.store[RecreatedId(w.work) := Recreated(w.work, w.work.uuid, m)]
    case DoDestroy(_) => s.store - {w.pc.reservationId}
    case _ => s.store
  }

  ghost function NewWorker(s: State, w: Worker, a: Action): Worker
    requires !a.Register? && !a.VmStops? && !a.Lose? && CanDo(s, w, a)
  {
    match a
    case BeginAssign(_, drawn) =>
      w.(work := if w.work.uuid == "" then w.work.(uuid := drawn) else w.work,
         pc := if w.work.reservationId != "" then GetReservation else ListByUuid)
    case DoGet(_) =>
      var id := w.work.reservationId;
      if id in s.store then w.(work := Applied(w.work, id, s.store[id]), pc := Assigned)
      else if CanRecreate(w.work) then w.(pc := Recreate)
      else w.(pc := ListByUuid)
    case DoListByUuid(_, pick, clusterName, role) =>
      if OwnsAny(s.store, w.work.uuid) then w.(work := Applied(w.work, pick, s.store[pick]), pc := Assigned)
      else if w.work.vmName != "" && CanRecreate(w.work) then w.(pc := Recreate)
      else w.(pc := ListAll(clusterName, NormalizedPrefix(clusterName).value, role, 0))
    case DoRecreate(_) => w.(work := w.work.(reservationId := RecreatedId(w.work)), pc := Assigned)
    case DoListAll(_) =>
      w.(pc := CreateName(w.pc.clusterName, w.pc.prefix, w.pc.role, w.pc.attempt,
                          NextOrdinal(s.store, w.pc.prefix, w.pc.role)))
    case DoCreate(m, replied) =>
      if !replied then w.(saved := w.work, pc := Idle)
      else if CreatedId(w.pc) !in s.store then
        w.(work := Applied(w.work, CreatedId(w.pc), CreatedReservation(w, m)), pc := Assigned)
      else if w.pc.attempt + 1 < 32 then w.(pc := ListAll(w.pc.clusterName, w.pc.prefix, w.pc.role, w.pc.attempt + 1))
      else w.(saved := w.work, pc := Idle)
    case BeginInstantiate(_) => if w.work.vmId != 0 then w else w.(pc := Instantiate)
    case DoInstantiate(_, vmId) => w.(work := w.work.(vmId := vmId), pc := Instantiated)
    case BeginDeprovision(_) => w.(pc := if w.work.vmId == 0 then Release else ObserveVM)
    case DoObserve(_) => w.(pc := if Stopped(s, w.work.vmId) then Release else DeleteVM)
    case DoDelete(_) => w.(pc := ConfirmVM)
    case DoConfirm(_) => w.(pc := if Stopped(s, w.work.vmId) then Release else ForceVM)
    case DoForce(_) => w.(pc := ConfirmForced)
    case DoConfirmForced(_) =>
      if w.work.vmId !in s.vms || s.vms[w.work.vmId].state.Missing? then w.(pc := Release)
      else w.(saved := w.work, pc := Idle)
    case DoRelease(_, pick) =>
      if w.work.reservationId != "" then w.(pc := DestroyName(w.work.reservationId))
      else if w.work.uuid != "" && OwnsAny(s.store, w.work.uuid) then w.(pc := DestroyName(pick))
      else w.(work := Cleared(w.work), pc := Released)
    case DoDestroy(_) => w.(work := Cleared(w.work), pc := Released)
    case Save(_) =>
      w.(saved := w.work, pc := Idle,
         ready := if w.pc.Assigned? then true else if w.pc.Released? then false else w.ready)
    case Fail(_) => w.(saved := w.work, pc := Idle)
    case Crash(_) => w.(work := w.saved, pc := Idle)
  }

  /**
   The assumptions on runs: a finished instantiation or release is saved before anything else happens
   to its machine, nobody but the provider removes reservations, and ordinals stay below 2^31.
   */
  ghost predicate Allowed(s: State, a: Action) {
    && Enabled(s, a)
    && !a.Lose?
    && (a.Crash? ==> !s.workers[a.m].pc.Instantiated? && !s.workers[a.m].pc.Released?)
    && (a.DoListAll? ==> |s.store| < 0x7FFF_FFFF)
  }

  /** `run` leads from `s` to `s'` by allowed actions. */
  ghost predicate Leads(s: State, run: seq<Action>, s': State)
    decreases |run|
  {
    if run == [] then s == s'
    else Allowed(s, run[0]) && Leads(Step(s, run[0]), run[1..], s')
  }
}
