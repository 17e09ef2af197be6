/**
 Reservations that no machine will release. A machine draws its UUID and makes its reservation in one
 step, so a crash before the first save loses the UUID: the reservation stays for good, and the next
 assignment makes a second one. Such a crash is the only way to either.
 */
module LifecycleLeaks {
  import opened Wrappers
  import opened Naming
  import opened Reservations
  import opened Lifecycle
  import opened LifecycleSafety
  import opened LifecycleBoundary

  /** The machine a reservation was made for works under its UUID. */
  ghost predicate Carries(s: State, m: string, uuid: string) {
    m in s.workers && s.workers[m].work.uuid == uuid
  }

  /** The reservation's machine works under another UUID, or none. */
  ghost predicate Leaked(s: State, id: string) {
    id in s.store && !Carries(s, s.store[id].stateResourceId, s.store[id].machineUuid)
  }

  ghost predicate IsOf(s: State, id: string, m: string) {
    id in s.store && s.store[id].stateResourceId == m
  }

  ghost predicate HasLeak(s: State, m: string) {
    exists id :: IsOf(s, id, m) && Leaked(s, id)
  }

  ghost predicate HasSecond(s: State, m: string) {
    exists id, id' :: IsOf(s, id, m) && IsOf(s, id', m) && id != id'
  }

  /** A crash of a worker that has saved no UUID, while the UUID it works under owns `id`. */
  ghost predicate Forgets(s: State, a: Action, id: string) {
    && a.Crash? && a.m in s.workers
    && s.workers[a.m].saved.uuid == ""
    && Owns(s.store, id, s.workers[a.m].work.uuid)
  }

  // ---------------------------------------------------------------- one step

  lemma WorkerUuid(s: State, w: Worker, a: Action)
    requires IsWorkerAction(a) && CanDo(s, w, a)
    ensures NewWorker(s, w, a).work.uuid == if a.BeginAssign? && w.work.uuid == "" then a.drawn
                                            else if a.Crash? then w.saved.uuid
                                            else w.work.uuid
  {
    hide NormalizedPrefix, NewReservation, ReservationResourceID, NextOrdinal, Stopped, OwnsAny, Owns,
         CreatedReservation;
  }

  /** The UUID a machine works under changes only when it draws one or when a crash loses it. */
  lemma UuidAfter(s: State, a: Action, m: string)
    requires Allowed(s, a) && m in s.workers
    ensures m in Step(s, a).workers
    ensures var w, w' := s.workers[m], Step(s, a).workers[m];
            w'.work.uuid == if a.BeginAssign? && a.m == m && w.work.uuid == "" then a.drawn
                            else if a == Crash(m) then w.saved.uuid
                            else w.work.uuid
  {
    hide NewStore, NewVms, NewIssued, NewWorker, CanDo;
    if IsWorkerAction(a) && a.m == m {
      WorkerUuid(s, s.workers[m], a);
    }
  }

  /** What the invariant says about the machine and the UUID of a stored reservation. */
  lemma OwnerOf(s: State, id: string)
    requires Inv(s) && id in s.store
    ensures var r := s.store[id];
            && r.machineUuid != "" && r.machineUuid in s.issued && s.issued[r.machineUuid] == r.stateResourceId
            && forall m :: Carries(s, m, r.machineUuid) ==> m == r.stateResourceId
  {
    hide PcSound, IdsMatch, VmSound;
    forall m | Carries(s, m, s.store[id].machineUuid) ensures m == s.store[id].stateResourceId {
      InvOf(s, m);
    }
  }

  /** A reservation that is added carries the UUID its machine works under. */
  lemma {:induction false} AddedIsCarried(s: State, a: Action, id: string)
    requires Inv(s) && Allowed(s, a) && id in Step(s, a).store && id !in s.store
    ensures a.DoCreate? && !Leaked(Step(s, a), id) && Step(s, a).store[id].stateResourceId == a.m
  {
    hide Inv, NewStore, NewWorker, NewVms, NewIssued, NextOrdinal, NormalizedPrefix, ReservationResourceID;
    assert IsWorkerAction(a);
    StoreChange(s, a);
    UuidAfter(s, a, a.m);
  }

  /** A stored reservation that is not removed is not changed. */
  lemma {:induction false} KeptAsItIs(s: State, a: Action, id: string)
    requires Inv(s) && Allowed(s, a) && id in s.store && id in Step(s, a).store
    ensures Step(s, a).store[id] == s.store[id]
  {
    hide Inv, NewStore, NewWorker, NewVms, NewIssued;
    if IsWorkerAction(a) {
      StoreChange(s, a);
    }
  }

  /** No action removes or changes a leaked reservation. */
  lemma {:induction false} LeakedStays(s: State, a: Action, id: string)
    requires Inv(s) && Allowed(s, a) && Leaked(s, id)
    ensures Leaked(Step(s, a), id) && Step(s, a).store[id] == s.store[id]
  {
    hide Inv, Enabled, Step, Owns;
    OwnerOf(s, id);
    var m, uuid := s.store[id].stateResourceId, s.store[id].machineUuid;
    if id !in Step(s, a).store {
      Unowned(s, a, id);
    }
    KeptAsItIs(s, a, id);
    if Carries(Step(s, a), m, uuid) {
      NotTakenUp(s, a, m, uuid);
    }
  }

  lemma Unowned(s: State, a: Action, id: string)
    requires Inv(s) && Allowed(s, a) && id in s.store && id !in Step(s, a).store
    ensures a.DoDestroy? && Owns(s.store, id, s.workers[a.m].work.uuid) &&
            Carries(s, s.store[id].stateResourceId, s.store[id].machineUuid)
  {
    hide Inv, NewStore, NewWorker, NewVms, NewIssued, CanDo;
    assert IsWorkerAction(a);
    StoreChange(s, a);
    OwnerOf(s, id);
  }

  /** A UUID that was drawn once and is not carried is not carried again. */
  lemma {:induction false} NotTakenUp(s: State, a: Action, m: string, uuid: string)
    requires Inv(s) && Allowed(s, a) && uuid != "" && uuid in s.issued && Carries(Step(s, a), m, uuid)
    ensures Carries(s, m, uuid)
  {
    hide Inv, NewStore, NewWorker, NewVms, NewIssued, MachineSound, PcSound;
    if m in s.workers {
      UuidAfter(s, a, m);
      InvOf(s, m);
    }
  }

  /** The machine of a carried reservation carries it on, or forgets it, or destroys it. */
  lemma {:induction false} CarriedUntilForgotten(s: State, a: Action, id: string)
    requires Inv(s) && Allowed(s, a) && id in s.store && !Leaked(s, id)
    ensures Leaked(Step(s, a), id) <==> Forgets(s, a, id)
  {
    hide Inv, Enabled, Step, WorkerSound;
    OwnerOf(s, id);
    var m := s.store[id].stateResourceId;
    UuidAfter(s, a, m);
    if id in Step(s, a).store {
      KeptAsItIs(s, a, id);
      CarriedOn(s, a, id);
    } else {
      Unowned(s, a, id);
    }
  }

  lemma CarriedOn(s: State, a: Action, id: string)
    requires Inv(s) && Allowed(s, a) && id in s.store && !Leaked(s, id)
    ensures Carries(Step(s, a), s.store[id].stateResourceId, s.store[id].machineUuid) <==> !Forgets(s, a, id)
  {
    hide Inv, Enabled, Step, MachineSound, PcSound;
    OwnerOf(s, id);
    var m := s.store[id].stateResourceId;
    UuidAfter(s, a, m);
    InvOf(s, m);
    if Forgets(s, a, id) {
      assert Carries(s, a.m, s.store[id].machineUuid);
    }
  }

  /** A reservation is leaked by a crash that loses its UUID before the first save, and by nothing else. */
  lemma {:induction false} LeaksExactlyWhen(s: State, a: Action, id: string)
    requires Inv(s) && Allowed(s, a)
    ensures Leaked(Step(s, a), id) <==> Leaked(s, id) || Forgets(s, a, id)
  {
    hide Inv, Enabled, Step, Leaked, Forgets;
    if Leaked(s, id) {
      LeakedStays(s, a, id);
    } else if id in s.store {
      CarriedUntilForgotten(s, a, id);
    } else {
      NotStored(s, a, id);
    }
  }

  lemma NotStored(s: State, a: Action, id: string)
    requires Inv(s) && Allowed(s, a) && id !in s.store
    ensures !Leaked(Step(s, a), id) && !Forgets(s, a, id)
  {
    hide Inv, Enabled, Step;
    if id in Step(s, a).store {
      AddedIsCarried(s, a, id);
    }
  }

  // ---------------------------------------------------------------- a second reservation

  /** What a machine has in the store while it asks for a name is leaked. */
  lemma {:induction false} OldOnesAreLeaked(s: State, m: string, id: string)
    requires Inv(s) && m in s.workers && s.workers[m].pc.CreateName? && IsOf(s, id, m)
    ensures Leaked(s, id)
  {
    hide Inv, MachineSound, NormalizedPrefix;
    InvOf(s, m);
    assert !Owns(s.store, id, s.workers[m].work.uuid);
  }

  /** The create of a machine lands. */
  ghost predicate Lands(s: State, a: Action, m: string) {
    && a.DoCreate? && a.m == m && m in s.workers && s.workers[m].pc.CreateName?
    && CreatedId(s.workers[m].pc) !in s.store
  }

  /** A machine comes to own a second reservation when its create lands over a leaked one, and only then. */
  lemma {:induction false} SecondExactlyWhen(s: State, a: Action, m: string)
    requires Inv(s) && Allowed(s, a) && !HasSecond(s, m)
    ensures HasSecond(Step(s, a), m) <==> Lands(s, a, m) && HasLeak(s, m)
  {
    hide Inv, Enabled, Step, Leaked, Lands;
    if HasSecond(Step(s, a), m) {
      var id, id' :| IsOf(Step(s, a), id, m) && IsOf(Step(s, a), id', m) && id != id';
      SecondIsAdded(s, a, m, id, id');
    }
    if Lands(s, a, m) && HasLeak(s, m) {
      var id :| IsOf(s, id, m) && Leaked(s, id);
      LandsBeside(s, a, m, id);
    }
  }

  lemma {:induction false} SecondIsAdded(s: State, a: Action, m: string, id: string, id': string)
    requires Inv(s) && Allowed(s, a)
    requires IsOf(Step(s, a), id, m) && IsOf(Step(s, a), id', m) && id != id'
    ensures HasSecond(s, m) || (Lands(s, a, m) && HasLeak(s, m))
  {
    hide Inv, Enabled, Step, Leaked;
    var added, kept := if id in s.store then id' else id, if id in s.store then id else id';
    if added in s.store {
      KeptAsItIs(s, a, added);
      KeptAsItIs(s, a, kept);
      assert IsOf(s, added, m) && IsOf(s, kept, m);
    } else {
      AddedIsCarried(s, a, added);
      AddsOne(s, a, added, kept);
      KeptAsItIs(s, a, kept);
      OldOnesAreLeaked(s, m, kept);
    }
  }

  lemma {:induction false} AddsOne(s: State, a: Action, added: string, kept: string)
    requires Inv(s) && Allowed(s, a) && a.DoCreate? && added in Step(s, a).store && added !in s.store
    requires kept in Step(s, a).store && kept != added
    ensures kept in s.store && Lands(s, a, a.m)
  {
    hide Inv, NewWorker, NewVms, NewIssued, CreatedReservation, CreatedId, NextOrdinal, NormalizedPrefix;
  }

  lemma {:induction false} LandsBeside(s: State, a: Action, m: string, id: string)
    requires Inv(s) && Allowed(s, a) && Lands(s, a, m) && IsOf(s, id, m)
    ensures HasSecond(Step(s, a), m)
  {
    hide Inv, NewWorker, NewVms, NewIssued, CreatedId, NextOrdinal, NormalizedPrefix, ReservationResourceID;
    var s' := Step(s, a);
    assert IsOf(s', id, m) && IsOf(s', CreatedId(s.workers[m].pc), m);
  }

  /** One of two reservations of a machine is leaked: a UUID has at most one. */
  lemma SecondMeansLeak(s: State, m: string)
    requires Inv(s) && HasSecond(s, m)
    ensures HasLeak(s, m)
  {
    hide IdsMatch, WorkerSound, VmSound;
    var id, id' :| IsOf(s, id, m) && IsOf(s, id', m) && id != id';
    assert Leaked(s, id) || Leaked(s, id');
  }

  // ---------------------------------------------------------------- runs

  /** Some crash of the run leaks a reservation of `m`. */
  ghost predicate ForgetsAlong(s: State, run: seq<Action>, m: string)
    decreases |run|
  {
    && run != [] && Enabled(s, run[0])
    && ((exists id :: IsOf(s, id, m) && Forgets(s, run[0], id)) || ForgetsAlong(Step(s, run[0]), run[1..], m))
  }

  lemma {:induction false} LeakExactlyWhen(s: State, a: Action, m: string)
    requires Inv(s) && Allowed(s, a)
    ensures HasLeak(Step(s, a), m) <==> HasLeak(s, m) || exists id :: IsOf(s, id, m) && Forgets(s, a, id)
  {
    hide Inv, Enabled, Step, Leaked, Forgets;
    var s' := Step(s, a);
    if HasLeak(s', m) {
      var id :| IsOf(s', id, m) && Leaked(s', id);
      LeaksExactlyWhen(s, a, id);
      LeakedIsOf(s, a, id, m);
    }
    if id :| IsOf(s, id, m) && (Leaked(s, id) || Forgets(s, a, id)) {
      LeaksExactlyWhen(s, a, id);
      LeakedIsOf(s, a, id, m);
    }
  }

  lemma LeakedIsOf(s: State, a: Action, id: string, m: string)
    requires Inv(s) && Allowed(s, a) && Leaked(Step(s, a), id)
    ensures IsOf(s, id, m) <==> IsOf(Step(s, a), id, m)
  {
    hide Inv, Enabled, Step;
    if id in s.store {
      KeptAsItIs(s, a, id);
    } else {
      AddedIsCarried(s, a, id);
    }
  }

  /** Over a whole run a machine has a leaked reservation exactly if it had one or some crash forgot one. */
  lemma {:induction false} RunLeaksExactlyWhen(s: State, run: seq<Action>, s': State, m: string)
    requires Inv(s) && Leads(s, run, s')
    ensures HasLeak(s', m) <==> HasLeak(s, m) || ForgetsAlong(s, run, m)
    decreases |run|
  {
    hide Inv, Enabled, Step, HasLeak, Forgets;
    if run == [] {
      assert s' == s;
    } else {
      StepKeepsInv(s, run[0]);
      LeakExactlyWhen(s, run[0], m);
      RunLeaksExactlyWhen(Step(s, run[0]), run[1..], s', m);
    }
  }

  /** A leaked reservation is there for good: no run destroys it, changes it or takes it up again. */
  lemma {:induction false} LeakIsPermanent(s: State, run: seq<Action>, s': State, id: string)
    requires Inv(s) && Leads(s, run, s') && Leaked(s, id)
    ensures Inv(s') && Leaked(s', id) && s'.store[id] == s.store[id]
    ensures forall m :: m in s'.workers ==> s'.workers[m].work.reservationId != id
    decreases |run|
  {
    hide Inv, Enabled, Step, Leaked;
    if run == [] {
      forall m | m in s.workers ensures s.workers[m].work.reservationId != id {
        HoldsNoLeak(s, m, id);
      }
    } else {
      StepKeepsInv(s, run[0]);
      LeakedStays(s, run[0], id);
      LeakIsPermanent(Step(s, run[0]), run[1..], s', id);
    }
  }

  lemma HoldsNoLeak(s: State, m: string, id: string)
    requires Inv(s) && Leaked(s, id) && m in s.workers
    ensures s.workers[m].work.reservationId != id
  {
    hide Inv, IdsMatch;
    assert StoreSound(s.store, s.issued) by { InvOf(s, m); }
    StoredIdIsNotEmpty(s.store, id);
    if s.workers[m].work.reservationId != "" {
      HeldIsCarried(s, m);
    }
  }

  lemma HeldIsCarried(s: State, m: string)
    requires Inv(s) && m in s.workers && s.workers[m].work.reservationId != ""
    ensures !Leaked(s, s.workers[m].work.reservationId)
  {
    hide Inv, PcSound, IdsMatch;
    InvOf(s, m);
  }

  lemma NothingFromStart(m: string)
    ensures !HasLeak(START, m) && Inv(START)
  {
  }

  /**
   When a machine comes to own more than one reservation, in any state runs reach: when its create
   lands after a crash that came before the first save of its UUID and forgot a reservation.
   */
  lemma {:induction false} SecondReservationExactlyWhen(run: seq<Action>, s: State, a: Action, m: string)
    requires Leads(START, run, s) && Allowed(s, a) && !HasSecond(s, m)
    ensures HasSecond(Step(s, a), m) <==> Lands(s, a, m) && ForgetsAlong(START, run, m)
  {
    hide Inv, Enabled, Step, HasLeak, HasSecond, Leads, Lands, ForgetsAlong;
    NothingFromStart(m);
    RunKeepsInv(START, run, s);
    RunLeaksExactlyWhen(START, run, s, m);
    SecondExactlyWhen(s, a, m);
  }

  // ---------------------------------------------------------------- stable machines

  ghost predicate KeepsOne(s: State, m: string, id: string, r: NameReservation) {
    && id in s.store && s.store[id] == r
    && (forall id' :: IsOf(s, id', m) ==> id' == id)
    && m in s.workers
    && var w := s.workers[m];
       && w.work.uuid == r.machineUuid
       && (w.work.reservationId != "" ==> w.work.reservationId == id && w.work.vmName == r.vmName)
       && (w.saved.reservationId != "" && !w.pc.Released? ==> w.saved.reservationId == id && w.saved.vmName == r.vmName)
  }

  /**
   A machine keeps its name, its one reservation and its UUID over every run without its own release,
   exactly if no crash in it forgot the UUID before it was saved.
   */
  lemma {:induction false} MachineKeepsName(s: State, run: seq<Action>, s': State, id: string, m: string)
    requires Inv(s) && Leads(s, run, s') && IsOf(s, id, m) && !HasLeak(s, m) && DoDestroy(m) !in run
    ensures KeepsOne(s', m, id, s.store[id]) <==> !ForgetsAlong(s, run, m)
  {
    hide Inv, Enabled, Step, Leads, ForgetsAlong;
    ReservationSurvives(s, run, s', id);
    RunLeaksExactlyWhen(s, run, s', m);
    hide HasLeak;
    KeepsOneExactlyWhen(s', m, id);
  }

  lemma {:induction false} KeepsOneExactlyWhen(s: State, m: string, id: string)
    requires Inv(s) && IsOf(s, id, m)
    ensures KeepsOne(s, m, id, s.store[id]) <==> !HasLeak(s, m)
  {
    hide Inv, KeepsOne;
    OwnerOf(s, id);
    if HasLeak(s, m) {
      var id' :| IsOf(s, id', m) && Leaked(s, id');
      NotKept(s, m, id, id');
    } else {
      assert !Leaked(s, id);
      if HasSecond(s, m) {
        SecondMeansLeak(s, m);
      }
      CarriedIsKept(s, m, id);
    }
  }

  lemma NotKept(s: State, m: string, id: string, id': string)
    requires IsOf(s, id, m) && IsOf(s, id', m) && Leaked(s, id')
    ensures !KeepsOne(s, m, id, s.store[id])
  {
  }

  lemma CarriedIsKept(s: State, m: string, id: string)
    requires Inv(s) && IsOf(s, id, m) && !Leaked(s, id) && !HasSecond(s, m)
    ensures KeepsOne(s, m, id, s.store[id])
  {
    hide Inv, PcSound, MachineSound;
    InvOf(s, m);
    var w := s.workers[m];
    if w.work.reservationId != "" {
      HoldsTheOne(s, m, w.work, id);
    }
    if w.saved.reservationId != "" && !w.pc.Released? {
      SavedUuid(s, m);
      HoldsTheOne(s, m, w.saved, id);
    }
  }

  lemma SavedUuid(s: State, m: string)
    requires Inv(s) && m in s.workers && s.workers[m].saved.reservationId != "" && !s.workers[m].pc.Released?
    ensures s.workers[m].saved.uuid == s.workers[m].work.uuid
  {
    hide Inv, PcSound, IdsMatch;
    InvOf(s, m);
  }

  // ---------------------------------------------------------------- recovery

  /** After a crash at the end of an assignment some run leads back to the reservation iff the UUID was saved. */
  lemma {:induction false} RecoversExactlyWhen(s: State, m: string)
    requires Inv(s) && m in s.workers && s.workers[m].pc.Assigned?
    ensures Enabled(s, Crash(m))
    ensures (exists s' :: Reaches(Step(s, Crash(m)), s') && m in s'.workers
                          && s'.workers[m].work.reservationId == s.workers[m].work.reservationId)
       <==> s.workers[m].saved.uuid != ""
  {
    hide Inv, Leads, Reaches, NextOrdinal, NormalizedPrefix, Step;
    assert Allowed(s, Crash(m));
    if s.workers[m].saved.uuid != "" {
      LeadsBack(s, m);
    } else {
      HeldIsForgotten(s, m);
      var id := s.workers[m].work.reservationId;
      StepKeepsInv(s, Crash(m));
      LeaksExactlyWhen(s, Crash(m), id);
      forall s' | Reaches(Step(s, Crash(m)), s') && m in s'.workers ensures s'.workers[m].work.reservationId != id {
        NeverHeldAgain(Step(s, Crash(m)), s', m, id);
      }
    }
  }

  lemma NeverHeldAgain(s: State, s': State, m: string, id: string)
    requires Inv(s) && Leaked(s, id) && Reaches(s, s') && m in s'.workers
    ensures s'.workers[m].work.reservationId != id
  {
    hide Inv, Leads, Leaked;
    var run :| Leads(s, run, s');
    LeakIsPermanent(s, run, s', id);
  }

  lemma HeldIsForgotten(s: State, m: string)
    requires Inv(s) && m in s.workers && s.workers[m].pc.Assigned? && s.workers[m].saved.uuid == ""
    ensures Forgets(s, Crash(m), s.workers[m].work.reservationId)
  {
    hide Inv, StoreSound, NormalizedPrefix;
    InvOf(s, m);
  }

  lemma LeadsBack(s: State, m: string)
    requires Inv(s) && m in s.workers && s.workers[m].pc.Assigned? && s.workers[m].saved.uuid != ""
    ensures Enabled(s, Crash(m)) && Reaches(Step(s, Crash(m)), s)
  {
    hide Inv, Enabled, Step, Reaches;
    ClusterPrefix();
    CrashedAssignmentRecovers(s, m, "", CLUSTER, ROLE_WORKER);
    RestLeads(s, [Crash(m), BeginAssign(m, ""), Lookup(s, m, CLUSTER, ROLE_WORKER)], s);
  }

  lemma RestLeads(s: State, run: seq<Action>, s': State)
    requires Leads(s, run, s') && run != []
    ensures Enabled(s, run[0]) && Reaches(Step(s, run[0]), s')
  {
    hide Enabled, Step;
  }

  // ---------------------------------------------------------------- a run that leaks

  /** The store after the crash, and what the machine's second create asks for. */
  ghost function Orphaned(): State {
    State(map[Id() := ReservationOf("a", "u1")], map[], map["a" := Resting(NEW_MACHINE, false)], map["u1" := "a"])
  }

  const SECOND := CreateName(CLUSTER, CLUSTER, ROLE_WORKER, 0, 2)

  /** Up to the first create nothing is saved, and the crash takes the UUID. */
  lemma ReachesOrphaned()
    ensures Reaches(START, Orphaned())
  {
    hide Reaches, NextOrdinal, NormalizedPrefix, NewReservation, ReservationResourceID;
    var s1 := START.(workers := map["a" := Resting(NEW_MACHINE, false)]);
    ReachesOne(START, Register("a"), s1);
    var s2 := s1.(issued := map["u1" := "a"]);
    var s3 := Unnamed(s2, "a", NEW_MACHINE, "u1", ListByUuid);
    ReachesOne(s1, BeginAssign("a", "u1"), s3);
    var s4 := Unnamed(s2, "a", NEW_MACHINE, "u1", CreateName(CLUSTER, CLUSTER, ROLE_WORKER, 0, 1));
    Lists(s2, "a", NEW_MACHINE, "u1");
    CrashesAfterCreate(s4);
    ReachesThen(START, s1, s3);
    ReachesThen(START, s3, s4);
    ReachesThen(START, s4, Orphaned());
  }

  lemma CrashesAfterCreate(s: State)
    requires s == State(map[], map[],
                        map["a" := Worker(NEW_MACHINE, NEW_MACHINE.(uuid := "u1"), false,
                                          CreateName(CLUSTER, CLUSTER, ROLE_WORKER, 0, 1))],
                        map["u1" := "a"])
    ensures Reaches(s, Orphaned())
  {
    hide Reaches, NextOrdinal, NormalizedPrefix, NewReservation, ReservationResourceID;
    var created := Orphaned().(workers := map["a" := Worker(NEW_MACHINE, Named("a", "u1"), false, Assigned)]);
    ReachesOne(s, DoCreate("a", true), created);
    CrashForgets(created, "a");
    hide Step, Enabled;
    ReachesOne(created, Crash("a"), Orphaned());
    ReachesThen(s, created, Orphaned());
  }

  lemma SecondOrdinal()
    ensures NextOrdinal(Orphaned().store, CLUSTER, ROLE_WORKER) == 2
  {
    var store := Orphaned().store;
    hide ReservationResourceID, SequenceVMName;
    assert Matches(store[Id()], CLUSTER, ROLE_WORKER) && store[Id()].ordinal == 1;
    assert UsedOrdinals(store, CLUSTER, ROLE_WORKER) == {1};
  }

  /** The next assignment draws another UUID, finds nothing under it and lists. */
  lemma ListsAgain()
    ensures Reaches(Orphaned(), Unnamed(Orphaned().(issued := map["u1" := "a", "u2" := "a"]), "a", NEW_MACHINE, "u2",
                                        SECOND))
  {
    hide Reaches, NextOrdinal, NormalizedPrefix, ReservationResourceID, SequenceVMName;
    var s0 := Orphaned();
    var s := s0.(issued := map["u1" := "a", "u2" := "a"]);
    ReachesOne(s0, BeginAssign("a", "u2"), Unnamed(s, "a", NEW_MACHINE, "u2", ListByUuid));
    assert ReservationOf("a", "u1").machineUuid == "u1";
    assert !OwnsAny(s.store, "u2");
    ClusterPrefix();
    SecondOrdinal();
    ReachesTwo(Unnamed(s, "a", NEW_MACHINE, "u2", ListByUuid), DoListByUuid("a", "", CLUSTER, ROLE_WORKER),
               Unnamed(s, "a", NEW_MACHINE, "u2", ListAll(CLUSTER, CLUSTER, ROLE_WORKER, 0)), DoListAll("a"),
               Unnamed(s, "a", NEW_MACHINE, "u2", SECOND));
    ReachesThen(s0, Unnamed(s, "a", NEW_MACHINE, "u2", ListByUuid), Unnamed(s, "a", NEW_MACHINE, "u2", SECOND));
  }

  /** An allowed run on which one machine comes to own two reservations; the first is leaked. */
  lemma CrashLeavesTwoReservations()
    ensures exists s :: Reaches(START, s) && HasSecond(s, "a") && Leaked(s, Id())
  {
    hide Reaches, NextOrdinal, NormalizedPrefix, NewReservation, ReservationResourceID;
    ReachesOrphaned();
    ListsAgain();
    var s := Unnamed(Orphaned().(issued := map["u1" := "a", "u2" := "a"]), "a", NEW_MACHINE, "u2", SECOND);
    ReachesThen(START, Orphaned(), s);
    SecondIsFree();
    assert Lands(s, DoCreate("a", true), "a");
    var s' := Step(s, DoCreate("a", true));
    ReachesOne(s, DoCreate("a", true), s');
    ReachesThen(START, s, s');
    TwoOfA(s, s');
  }

  lemma SecondIsFree()
    ensures CreatedId(SECOND) != Id()
  {
    if CreatedId(SECOND) == Id() {
      ReservationResourceIDInjective(CLUSTER, ROLE_WORKER, 2, CLUSTER, ROLE_WORKER, 1);
    }
  }

  lemma TwoOfA(s: State, s': State)
    requires s == Unnamed(Orphaned().(issued := map["u1" := "a", "u2" := "a"]), "a", NEW_MACHINE, "u2", SECOND)
    requires CreatedId(SECOND) != Id() && Allowed(s, DoCreate("a", true)) && s' == Step(s, DoCreate("a", true))
    ensures HasSecond(s', "a") && Leaked(s', Id())
  {
    hide ReservationResourceID, SequenceVMName;
    assert s'.store[Id()] == ReservationOf("a", "u1");
    assert IsOf(s', Id(), "a") && IsOf(s', CreatedId(SECOND), "a");
  }
}
