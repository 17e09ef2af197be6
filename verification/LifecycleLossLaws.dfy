/**
 What runs with losses come to: they are safe, a lost reservation is recreated as it was, and exactly
 the creates on a lost id and the releases that are forgotten too late leave a machine with an id that
 belongs to another.
 */
module LifecycleLossLaws {
  import opened Wrappers
  import opened Naming
  import opened Reservations
  import opened Lifecycle
  import opened LifecycleSafety
  import opened LifecycleLosses
  import A = Allocator

  // ---------------------------------------------------------------- what runs with losses guarantee

  /** `run` leads by permitted actions from `s`, with `lost` gone, to `s'`, with `lost'` gone. */
  ghost predicate LossyLeads(s: State, lost: Store, run: seq<Action>, s': State, lost': Store)
    decreases |run|
  {
    if run == [] then s == s' && lost == lost'
    else Permitted(s, lost, run[0]) && LossyLeads(Step(s, run[0]), LostAfter(s, lost, run[0]), run[1..], s', lost')
  }

  lemma {:induction false} LossyRunKeepsInv(s: State, lost: Store, run: seq<Action>, s': State, lost': Store)
    requires LossInv(s, lost) && LossyLeads(s, lost, run, s', lost')
    ensures LossInv(s', lost')
    decreases |run|
  {
    hide LossInv, Enabled, Step, LostAfter;
    if run == [] {
      assert s == s' && lost == lost';
    } else {
      StepKeepsLossInv(s, lost, run[0]);
      LossyRunKeepsInv(Step(s, run[0]), LostAfter(s, lost, run[0]), run[1..], s', lost');
    }
  }

  /** The name of a live VM is that of a reservation of its machine, stored or lost. */
  ghost predicate BackedOrLost(s: State, lost: Store) {
    forall vmId :: vmId in s.vms && s.vms[vmId].state.Active? ==>
      var vm := s.vms[vmId];
      && vm.owner in s.workers
      && var id := s.workers[vm.owner].work.reservationId;
         && id in s.store + lost
         && (s.store + lost)[id].vmName == vm.name && (s.store + lost)[id].stateResourceId == vm.owner
  }

  /** Safety with losses: live VMs still have names of their own, backed by what is stored or lost. */
  lemma {:induction false} LossyRunsAreSafe(run: seq<Action>, s: State, lost: Store)
    requires LossyLeads(START, map[], run, s, lost)
    ensures LossInv(s, lost) && LiveNamesDiffer(s) && BackedOrLost(s, lost)
  {
    hide Inv, LossyLeads;
    StartIsWhole();
    LossyRunKeepsInv(START, map[], run, s, lost);
    WholeInv(s, lost);
    hide LossInv;
    InvSeparatesNames(Whole(s, lost));
    InvBacks(Whole(s, lost));
  }

  lemma StartIsWhole()
    ensures LossInv(START, map[])
  {
    assert Whole(START, map[]).store == map[] && Whole(START, map[]).workers == map[];
  }

  /** What all machines still use stays lost. */
  lemma AllNeeded(s: State, lost: Store)
    requires forall id :: id in lost ==> InUse(s, id, lost[id])
    ensures Needed(s, lost) == lost
  {
  }

  /** A worker that keeps what it works with, and was not about to destroy it, keeps using it. */
  lemma StaysInUse(s: State, s': State, m: string, lost: Store)
    requires m in s.workers && m in s'.workers && s'.workers[m].work == s.workers[m].work &&
             !s.workers[m].pc.DestroyName?
    requires forall m' :: m' in s.workers && m' != m ==> m' in s'.workers && s'.workers[m'] == s.workers[m']
    requires forall id :: id in lost ==> InUse(s, id, lost[id])
    ensures Needed(s', lost) == lost
  {
    forall id | id in lost ensures InUse(s', id, lost[id]) {
      assert InUse(s, id, lost[id]);
    }
    AllNeeded(s', lost);
  }

  /** What is recreated is the lost reservation: its name, its owner and its UUID are stored again. */
  lemma {:induction false} RecreationRestores(s: State, lost: Store, m: string)
    requires LossInv(s, lost) && Permitted(s, lost, DoRecreate(m))
    ensures var id, s' := s.workers[m].work.reservationId, Step(s, DoRecreate(m));
            && id in lost && lost[id].stateResourceId == m
            && s'.store == s.store[id := lost[id].(machineRequestId := m)]
            && s'.workers == s.workers[m := s.workers[m].(pc := Assigned)]
            && LostAfter(s, lost, DoRecreate(m)) == lost - {id}
  {
    hide LossSound, NormalizedPrefix, NextOrdinal, RecreatedId, Recreated, CanRecreate, InUse, Needed;
    RecreatedIsLost(s, lost, DoRecreate(m));
    StaysInUse(s, Step(s, DoRecreate(m)), m, lost - {s.workers[m].work.reservationId});
  }

  /** A machine that starts over with the UUID and the id it has goes after its reservation. */
  lemma GoesAfterIt(s: State, lost: Store, m: string, drawn: string)
    requires m in s.workers && s.workers[m].pc.Idle?
    requires s.workers[m].work.uuid != "" && s.workers[m].work.reservationId != ""
    ensures var a := BeginAssign(m, drawn);
            && Permitted(s, lost, a) && MissingAfter(s, lost, a) == lost
            && Step(s, a) == s.(workers := s.workers[m := s.workers[m].(pc := GetReservation)])
  {
    hide NormalizedPrefix, NextOrdinal;
  }

  lemma GetIsPermitted(s: State, lost: Store, m: string)
    requires m in s.workers && s.workers[m].pc.GetReservation?
    ensures Permitted(s, lost, DoGet(m))
  {
  }

  /** A machine at rest that has lost its reservation holds its id and its UUID. */
  lemma {:induction false} LostIsKnown(s: State, lost: Store, id: string)
    requires LossInv(s, lost) && id in lost
    ensures var m := lost[id].stateResourceId;
            && m in s.workers
            && (s.workers[m].pc.Idle? ==>
                  id != "" && s.workers[m].work.reservationId == id && s.workers[m].work.uuid != "")
  {
    hide Inv, NormalizedPrefix, IdsMatch;
    assert InUse(s, id, lost[id]);
    LossInvOf(s, lost, lost[id].stateResourceId);
    StoredIdIsNotEmpty(Whole(s, lost).store, id);
  }

  // ---------------------------------------------------------------- an assignment after a loss

  /** An action of another machine, or of nobody's. */
  predicate IsOthers(a: Action, m: string) {
    a.VmStops? || a.Lose? || a.m != m
  }

  /** Nobody else settles a loss. */
  lemma {:induction false} OthersKeepMissing(s: State, lost: Store, a: Action, m: string, id: string)
    requires LossInv(s, lost) && Permitted(s, lost, a) && IsOthers(a, m) && id in lost && lost[id].stateResourceId == m
    ensures id in MissingAfter(s, lost, a) && MissingAfter(s, lost, a)[id] == lost[id]
  {
    hide LossInv, CanDo, Allowed, RecreatedId, Recreated, CanRecreate, Applied;
    LostIsNotStored(s, lost);
    if a.DoRecreate? {
      RecreatedIsLost(s, lost, a);
    } else if a.DoDestroy? {
      DestroysItsOwnHere(s, lost, a);
      assert id in lost ==> (s.store + lost)[id] == lost[id];
    }
  }

  lemma {:induction false} OthersKeepLoss(s: State, lost: Store, a: Action, m: string, id: string)
    requires LossInv(s, lost) && Permitted(s, lost, a) && IsOthers(a, m) && id in lost && lost[id].stateResourceId == m
    ensures m in s.workers && m in Step(s, a).workers && Step(s, a).workers[m] == s.workers[m]
    ensures id in LostAfter(s, lost, a) && LostAfter(s, lost, a)[id] == lost[id]
  {
    hide LossInv, Step, MissingAfter, CanDo, Allowed, TakesLost;
    AllInUse(s, lost);
    OthersKeepMissing(s, lost, a, m, id);
    OthersStay(s, a, m);
  }

  lemma {:induction false} OthersRunKeepsLoss(s: State, lost: Store, run: seq<Action>, s': State, lost': Store,
                                              m: string, id: string)
    requires LossInv(s, lost) && LossyLeads(s, lost, run, s', lost') && forall a :: a in run ==> IsOthers(a, m)
    requires id in lost && lost[id].stateResourceId == m && m in s.workers
    ensures LossInv(s', lost') && m in s'.workers && s'.workers[m] == s.workers[m]
    ensures id in lost' && lost'[id] == lost[id]
    decreases |run|
  {
    hide LossInv, Enabled, Step, LostAfter, TakesLost;
    if run == [] {
    } else {
      assert run[0] in run && forall a :: a in run[1..] ==> a in run;
      StepKeepsLossInv(s, lost, run[0]);
      OthersKeepLoss(s, lost, run[0], m, id);
      OthersRunKeepsLoss(Step(s, run[0]), LostAfter(s, lost, run[0]), run[1..], s', lost', m, id);
    }
  }

  /** The start of the next assignment. */
  lemma {:induction false} StartsOver(s: State, lost: Store, m: string, drawn: string, id: string)
    requires LossInv(s, lost) && id in lost && lost[id].stateResourceId == m && m in s.workers && s.workers[m].pc.Idle?
    ensures Permitted(s, lost, BeginAssign(m, drawn)) && s.workers[m].work.reservationId == id
    ensures var s1 := Step(s, BeginAssign(m, drawn));
            && LostAfter(s, lost, BeginAssign(m, drawn)) == lost && LossInv(s1, lost)
            && m in s1.workers && s1.workers[m] == s.workers[m].(pc := GetReservation)
  {
    hide LossInv, MissingAfter, Needed, Permitted, Step, InUse;
    LostIsKnown(s, lost, id);
    GoesAfterIt(s, lost, m, drawn);
    StepKeepsLossInv(s, lost, BeginAssign(m, drawn));
    AllInUse(s, lost);
    StaysInUse(s, Step(s, BeginAssign(m, drawn)), m, lost);
  }

  /** It looks for its reservation and sees that it is gone. */
  lemma {:induction false} SeesTheLoss(s: State, lost: Store, m: string)
    requires LossInv(s, lost) && m in s.workers && s.workers[m].pc.GetReservation?
    requires s.workers[m].work.reservationId in lost
    ensures Permitted(s, lost, DoGet(m))
    ensures var s1 := Step(s, DoGet(m));
            && LostAfter(s, lost, DoGet(m)) == lost && LossInv(s1, lost)
            && m in s1.workers && s1.workers[m] == s.workers[m].(pc := Recreate)
  {
    hide LossInv, MissingAfter, Needed, Permitted, Step, InUse;
    GetIsPermitted(s, lost, m);
    GetNotices(s, lost, DoGet(m));
    StepKeepsLossInv(s, lost, DoGet(m));
    AllInUse(s, lost);
    StaysInUse(s, Step(s, DoGet(m)), m, lost);
  }

  /** The runs of others around the three actions of an assignment that recreates a reservation. */
  ghost predicate Amid(s: State, lost: Store, m: string, drawn: string, first: seq<Action>, s1: State, lost1: Store,
                       second: seq<Action>, s2: State, lost2: Store)
  {
    && (forall a :: a in first + second ==> IsOthers(a, m))
    && Permitted(s, lost, BeginAssign(m, drawn))
    && LossyLeads(Step(s, BeginAssign(m, drawn)), LostAfter(s, lost, BeginAssign(m, drawn)), first, s1, lost1)
    && (Permitted(s1, lost1, DoGet(m)) ==>
          LossyLeads(Step(s1, DoGet(m)), LostAfter(s1, lost1, DoGet(m)), second, s2, lost2))
  }

  /**
   The next assignment of a machine that has lost its reservation recreates it, whatever others are
   permitted to do in front of its two operations.
   */
  lemma {:induction false} NextAssignmentRestores(s: State, lost: Store, m: string, drawn: string, id: string,
                                                  first: seq<Action>, s1: State, lost1: Store,
                                                  second: seq<Action>, s2: State, lost2: Store)
    requires LossInv(s, lost) && id in lost && lost[id].stateResourceId == m && s.workers[m].pc.Idle?
    requires Amid(s, lost, m, drawn, first, s1, lost1, second, s2, lost2)
    ensures Permitted(s1, lost1, DoGet(m)) && Permitted(s2, lost2, DoRecreate(m))
    ensures var s3 := Step(s2, DoRecreate(m));
            && s3.store == s2.store[id := lost[id].(machineRequestId := m)]
            && m in s3.workers && s3.workers[m] == s.workers[m].(pc := Assigned)
            && LostAfter(s2, lost2, DoRecreate(m)) == lost2 - {id}
  {
    hide LossInv, LossyLeads, LostAfter, TakesLost, Enabled, Step, CanRecreate, RecreatedId;
    LostIsKnown(s, lost, id);
    assert forall a :: a in first || a in second ==> a in first + second;
    StartsOver(s, lost, m, drawn, id);
    OthersRunKeepsLoss(Step(s, BeginAssign(m, drawn)), lost, first, s1, lost1, m, id);
    SeesTheLoss(s1, lost1, m);
    OthersRunKeepsLoss(Step(s1, DoGet(m)), lost1, second, s2, lost2, m, id);
    HeldIsLost(s2, lost2, m);
    RecreationIsPermitted(s2, lost2, m);
    RecreationRestores(s2, lost2, m);
  }

  lemma AllInUse(s: State, lost: Store)
    requires LossInv(s, lost)
    ensures forall id :: id in lost ==> InUse(s, id, lost[id])
  {
    hide LossSound;
  }

  lemma RecreationIsPermitted(s: State, lost: Store, m: string)
    requires m in s.workers && s.workers[m].pc.Recreate? && CanRecreate(s.workers[m].work)
    ensures Permitted(s, lost, DoRecreate(m))
  {
  }

  /** The method that recreates a reservation does to store and machine what the action does, conflict or not. */
  lemma RecreatesIsRecreate(s: State, m: string, after: Store, now: Machine, r: Result<string, A.StoreError>)
    requires m in s.workers && s.workers[m].pc.Recreate? && CanRecreate(s.workers[m].work)
    requires A.Recreates(s.store, after, A.Works, m, s.workers[m].work.uuid, s.workers[m].work, now, r)
    ensures Enabled(s, DoRecreate(m))
    ensures Step(s, DoRecreate(m)) ==
            s.(store := after, workers := s.workers[m := s.workers[m].(work := now, pc := Assigned)])
  {
    hide NextOrdinal, NormalizedPrefix, ReservationResourceID;
  }

  // ---------------------------------------------------------------- allowed runs and unsaved releases

  /** Runs without losses are runs with losses. */
  lemma {:induction false} AllowedRunsAreLossy(s: State, run: seq<Action>, s': State)
    requires Leads(s, run, s')
    ensures LossyLeads(s, map[], run, s', map[])
    decreases |run|
  {
    hide Enabled, Step;
    if run == [] {
    } else {
      AllowedIsPermitted(s, run[0]);
      AllowedRunsAreLossy(Step(s, run[0]), run[1..], s');
    }
  }

  lemma NothingMissing(s: State, a: Action)
    requires Allowed(s, a)
    ensures MissingAfter(s, map[], a) == map[]
  {
    hide CanDo;
  }

  lemma TakesNothing(s: State, a: Action)
    requires Allowed(s, a)
    ensures !TakesLost(s, map[], a)
  {
    hide CanDo;
  }

  lemma AllowedIsPermitted(s: State, a: Action)
    requires Allowed(s, a)
    ensures Permitted(s, map[], a) && LostAfter(s, map[], a) == map[]
  {
    NothingMissing(s, a);
    NothingNeeded(Step(s, a));
    TakesNothing(s, a);
    hide Step, Enabled, MissingAfter, Needed, TakesLost, IsUnsaved;
    assert s.store + map[] == s.store;
  }

  lemma NothingNeeded(s: State)
    ensures Needed(s, map[]) == map[]
  {
  }

  /** A worker about to destroy has changed nothing yet, and what it destroys is what it holds. */
  lemma {:induction false} DestroyingWorker(s: State, lost: Store, m: string, id: string)
    requires LossInv(s, lost) && m in s.workers && s.workers[m].pc == DestroyName(id)
    ensures var w := s.workers[m];
            && w.work == w.saved && (w.work.reservationId == "" || w.work.reservationId == id)
            && "" !in s.store && "" !in lost
  {
    hide Inv, AllFreedSound, InUse, MachineSound, IdsMatch;
    LossInvOf(s, lost, m);
    if "" in Whole(s, lost).store {
      StoredIdIsNotEmpty(Whole(s, lost).store, "");
    }
  }

  /** The two ways through a crash. */
  lemma DestroyThenCrash(s: State, m: string, id: string)
    requires m in s.workers && s.workers[m].pc == DestroyName(id) && s.workers[m].work == s.workers[m].saved
    ensures var w := s.workers[m];
            var s1 := s.(store := s.store - {id},
                         workers := s.workers[m := w.(work := Cleared(w.work), pc := Released)]);
            && Enabled(s, DoDestroy(m)) && Step(s, DoDestroy(m)) == s1
            && Enabled(s1, Crash(m))
            && Step(s1, Crash(m)) == s.(store := s.store - {id}, workers := s.workers[m := w.(pc := Idle)])
  {
    hide Cleared;
    var w := s.workers[m];
    assert s.workers[m := w.(work := Cleared(w.work), pc := Released)][m := w.(pc := Idle)] ==
           s.workers[m := w.(pc := Idle)];
  }

  lemma CrashThenLose(s: State, m: string, id: string)
    requires m in s.workers && s.workers[m].pc == DestroyName(id) && s.workers[m].work == s.workers[m].saved
    requires id in s.store
    ensures var s1 := s.(workers := s.workers[m := s.workers[m].(pc := Idle)]);
            && Enabled(s, Crash(m)) && Step(s, Crash(m)) == s1
            && Enabled(s1, Lose(id)) && Step(s1, Lose(id)) == s1.(store := s.store - {id})
  {
  }

  lemma ForgetsPermittedly(s: State, lost: Store, m: string)
    requires m in s.workers && s.workers[m].pc.Released? && s.workers[m].saved.reservationId !in s.store + lost
    ensures Permitted(s, lost, Crash(m))
  {
  }

  lemma CrashesPermittedly(s: State, lost: Store, m: string)
    requires m in s.workers && s.workers[m].pc.DestroyName?
    ensures Permitted(s, lost, Crash(m)) && Permitted(s, lost, DoDestroy(m))
    ensures forall id :: id in LostAfter(s, lost, DoDestroy(m)) ==> id in lost && id != s.workers[m].pc.reservationId
  {
    hide InUse;
  }

  lemma LosesPermittedly(s: State, lost: Store, id: string)
    requires id in s.store
    ensures Permitted(s, lost, Lose(id))
  {
  }

  /** A release that is never saved comes to the same as a crash before it and the loss of what it frees. */
  lemma {:induction false} UnsavedReleaseIsALoss(s: State, lost: Store, m: string, id: string)
    requires LossInv(s, lost) && m in s.workers && s.workers[m].pc == DestroyName(id)
    ensures Permitted(s, lost, DoDestroy(m))
    ensures Permitted(Step(s, DoDestroy(m)), LostAfter(s, lost, DoDestroy(m)), Crash(m))
    ensures id in s.store ==>
      && Permitted(s, lost, Crash(m)) && Permitted(Step(s, Crash(m)), LostAfter(s, lost, Crash(m)), Lose(id))
      && Step(Step(s, DoDestroy(m)), Crash(m)) == Step(Step(s, Crash(m)), Lose(id))
  {
    hide LossInv, Step, Permitted, LostAfter, Cleared;
    CrashesPermittedly(s, lost, m);
    DestroyingWorker(s, lost, m, id);
    DestroyThenCrash(s, m, id);
    ForgetsPermittedly(Step(s, DoDestroy(m)), LostAfter(s, lost, DoDestroy(m)), m);
    if id in s.store {
      CrashThenLose(s, m, id);
      LosesPermittedly(Step(s, Crash(m)), LostAfter(s, lost, Crash(m)), id);
    }
  }

  // ---------------------------------------------------------------- where it ends

  /** A worker works with an id, or is about to destroy one, that belongs to another UUID. */
  ghost predicate Usurped(s: State, lost: Store, m: string) {
    && m in s.workers
    && exists id :: Uses(s.workers[m], id) && Misowned(s, lost, id, s.workers[m].work.uuid)
  }

  predicate Uses(w: Worker, id: string) {
    w.work.reservationId == id || w.pc == DestroyName(id)
  }

  predicate Misowned(s: State, lost: Store, id: string, uuid: string) {
    || (id in s.store && s.store[id].machineUuid != uuid)
    || (id in lost && lost[id].machineUuid != uuid)
  }

  lemma {:induction false} UsesOwn(s: State, lost: Store, m: string, id: string)
    requires LossInv(s, lost) && m in s.workers && Uses(s.workers[m], id)
    ensures !Misowned(s, lost, id, s.workers[m].work.uuid)
  {
    hide Inv, AllFreedSound, InUse, NormalizedPrefix, IdMatches, OwnsAny, CanRecreate;
    LossInvOf(s, lost, m);
    if id in s.store || id in lost {
      StoredIdIsNotEmpty(Whole(s, lost).store, id);
    }
  }

  lemma {:induction false} NobodyIsUsurped(s: State, lost: Store, m: string)
    requires LossInv(s, lost)
    ensures !Usurped(s, lost, m)
  {
    hide LossInv, Uses, Misowned;
    if m in s.workers {
      forall id | Uses(s.workers[m], id) ensures !Misowned(s, lost, id, s.workers[m].work.uuid) {
        UsesOwn(s, lost, m, id);
      }
    }
  }

  /** Who is about to create uses no id. */
  lemma {:induction false} NamelessCreates(s: State, lost: Store, m: string, id: string)
    requires LossInv(s, lost) && m in s.workers && s.workers[m].pc.CreateName? && id in lost
    ensures lost[id].stateResourceId != m && s.workers[m].work.uuid != ""
  {
    hide Inv, NormalizedPrefix, AllFreedSound, MachineSound, IdsMatch;
    LossInvOf(s, lost, m);
    assert InUse(s, id, lost[id]);
    StoredIdIsNotEmpty(Whole(s, lost).store, id);
  }

  lemma {:induction false} UuidsDiffer(s: State, lost: Store, m: string, m': string)
    requires LossInv(s, lost) && m in s.workers && m' in s.workers && m' != m && s.workers[m'].work.uuid != ""
    ensures s.workers[m'].work.uuid != s.workers[m].work.uuid
  {
    hide Inv, NormalizedPrefix, AllFreedSound, PcSound, StoreSound;
    LossInvOf(s, lost, m);
    LossInvOf(s, lost, m');
  }

  /** A create that lands on a lost id leaves the one who uses it with another machine's reservation. */
  lemma {:induction false} CreateUsurps(s: State, lost: Store, a: Action)
    requires LossInv(s, lost) && Feasible(s, lost, a) && a.DoCreate? && TakesLost(s, lost, a)
    ensures exists m :: Usurped(Step(s, a), LostAfter(s, lost, a), m)
  {
    hide LossInv, CreatedId, LostAfter, NextOrdinal, NewWorker;
    var id := CreatedId(s.workers[a.m].pc);
    var m := lost[id].stateResourceId;
    AllInUse(s, lost);
    LostIsNotStored(s, lost);
    NamelessCreates(s, lost, a.m, id);
    OthersStay(s, a, m);
    UuidsDiffer(s, lost, m, a.m);
    assert Uses(Step(s, a).workers[m], id);
    UsesOwn(s, lost, m, id);
    assert Misowned(Step(s, a), LostAfter(s, lost, a), id, s.workers[m].work.uuid);
    assert Usurped(Step(s, a), LostAfter(s, lost, a), m);
  }

  /** A release that is forgotten after its id was taken leaves the machine, or who has lost that id, with another's. */
  lemma {:induction false} UnsavedUsurps(s: State, lost: Store, a: Action)
    requires LossInv(s, lost) && Feasible(s, lost, a) && IsUnsaved(s, a) && TakesLost(s, lost, a)
    ensures exists m :: Usurped(Step(s, a), LostAfter(s, lost, a), m)
  {
    hide LossInv, NextOrdinal, Freed, NewVms, NewIssued;
    var k := s.workers[a.m].saved;
    FreedIsUnowned(s, lost, a.m);
    assert Uses(Step(s, a).workers[a.m], k.reservationId) && Step(s, a).workers[a.m].work == k;
    if k.reservationId in s.store {
      assert Misowned(Step(s, a), LostAfter(s, lost, a), k.reservationId, k.uuid);
      assert Usurped(Step(s, a), LostAfter(s, lost, a), a.m);
    } else {
      UnsavedUsurpsLost(s, lost, a);
    }
  }

  lemma {:induction false} FreedIsUnowned(s: State, lost: Store, m: string)
    requires LossInv(s, lost) && m in s.workers && s.workers[m].pc.Released?
    requires s.workers[m].saved.reservationId in s.store + lost
    ensures var k := s.workers[m].saved;
            && k.reservationId != "" && k.uuid != "" && s.workers[m].work == Cleared(k)
            && (k.reservationId in s.store ==> s.store[k.reservationId].machineUuid != k.uuid)
            && (k.reservationId in lost ==> lost[k.reservationId].machineUuid != k.uuid)
  {
    hide Inv, IdMatches;
    LossInvOf(s, lost, m);
    FreedOf(s, lost, m);
    var k, v := s.workers[m].saved, Whole(s, lost);
    LostIsNotStored(s, lost);
    StoredIdIsNotEmpty(v.store, k.reservationId);
    assert !Owns(v.store, k.reservationId, k.uuid);
  }

  lemma {:induction false} UnsavedUsurpsLost(s: State, lost: Store, a: Action)
    requires LossInv(s, lost) && Feasible(s, lost, a) && IsUnsaved(s, a)
    requires s.workers[a.m].saved.reservationId in lost
    ensures exists m :: Usurped(Step(s, a), LostAfter(s, lost, a), m)
  {
    hide LossInv, NextOrdinal, NewStore, NewVms, NewIssued;
    var k := s.workers[a.m].saved;
    FreedIsUnowned(s, lost, a.m);
    AllInUse(s, lost);
    var m := lost[k.reservationId].stateResourceId;
    UsesOwn(s, lost, m, k.reservationId);
    OthersStay(s, a, m);
    assert k.reservationId in LostAfter(s, lost, a)
        && LostAfter(s, lost, a)[k.reservationId].machineUuid == k.uuid;
    assert Uses(Step(s, a).workers[m], k.reservationId);
    assert Usurped(Step(s, a), LostAfter(s, lost, a), m);
  }

  /**
   The exact condition: of all feasible actions those that take a lost or freed id, and no others, leave
   some machine with an id that belongs to another.
   */
  lemma {:induction false} UsurpsExactlyWhen(s: State, lost: Store, a: Action)
    requires LossInv(s, lost) && Feasible(s, lost, a)
    ensures (exists m :: Usurped(Step(s, a), LostAfter(s, lost, a), m)) <==> TakesLost(s, lost, a)
  {
    hide LossInv, Usurped, TakesLost, CanDo, Step, LostAfter;
    if !TakesLost(s, lost, a) {
      StepKeepsLossInv(s, lost, a);
      forall m ensures !Usurped(Step(s, a), LostAfter(s, lost, a), m) {
        NobodyIsUsurped(Step(s, a), LostAfter(s, lost, a), m);
      }
    } else if a.DoCreate? {
      CreateUsurps(s, lost, a);
    } else {
      TakesOnly(s, lost, a);
      UnsavedUsurps(s, lost, a);
    }
  }

  lemma TakesOnly(s: State, lost: Store, a: Action)
    requires Enabled(s, a) && TakesLost(s, lost, a)
    ensures a.DoCreate? || IsUnsaved(s, a)
  {
    hide CanDo;
  }
}
