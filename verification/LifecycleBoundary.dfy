/**
 Where the safety of runs ends. Each of three runs breaks one assumption once, and from there allowed
 actions lead to two live VMs of the same name: a release that is not saved, an instantiation that is
 not saved, and a reservation that is removed from outside and whose recreation then meets a conflict.
 */
module LifecycleBoundary {
  import opened Wrappers
  import opened Text
  import opened Naming
  import opened Reservations
  import opened Lifecycle
  import opened LifecycleSafety

  /** Some run of allowed actions leads from `s` to `s'`. */
  ghost predicate Reaches(s: State, s': State) {
    exists run :: Leads(s, run, s')
  }

  lemma {:induction false} LeadsThen(s: State, run: seq<Action>, s': State, run': seq<Action>, s'': State)
    requires Leads(s, run, s') && Leads(s', run', s'')
    ensures Leads(s, run + run', s'')
    decreases |run|
  {
    hide Enabled, Step;
    if run == [] {
      assert run + run' == run';
    } else {
      LeadsThen(Step(s, run[0]), run[1..], s', run', s'');
      assert (run + run')[0] == run[0] && (run + run')[1..] == run[1..] + run';
    }
  }

  lemma ReachesThen(s: State, s': State, s'': State)
    requires Reaches(s, s') && Reaches(s', s'')
    ensures Reaches(s, s'')
  {
    hide Leads;
    var run :| Leads(s, run, s');
    var run' :| Leads(s', run', s'');
    LeadsThen(s, run, s', run', s'');
  }

  /** Two steps, each to a known state. */
  lemma ReachesTwo(s: State, a: Action, s': State, a': Action, s'': State)
    requires Allowed(s, a) && Step(s, a) == s' && Allowed(s', a') && Step(s', a') == s''
    ensures Reaches(s, s'')
  {
    hide Enabled, Step;
    assert Leads(s'', [], s'');
    assert [a'][1..] == [] && [a, a'][1..] == [a'];
    assert Leads(s', [a'], s'');
    assert Leads(s, [a, a'], s'');
  }

  lemma ReachesOne(s: State, a: Action, s': State)
    requires Allowed(s, a) && Step(s, a) == s'
    ensures Reaches(s, s')
  {
    hide Enabled, Step;
    assert [a][1..] == [];
    assert Leads(s', [], s');
    assert Leads(s, [a], s');
  }

  // ---------------------------------------------------------------- one cluster, one name

  const CLUSTER := "c"

  function Id(): string {
    ReservationResourceID(CLUSTER, ROLE_WORKER, 1)
  }

  function ReservationOf(m: string, uuid: string): NameReservation {
    NewReservation(CLUSTER, CLUSTER, ROLE_WORKER, 1, m, uuid, m)
  }

  function Named(m: string, uuid: string): Machine {
    Applied(NEW_MACHINE.(uuid := uuid), Id(), ReservationOf(m, uuid))
  }

  function Resting(k: Machine, ready: bool): Worker {
    Worker(k, k, ready, Idle)
  }

  lemma FirstOrdinal(store: Store)
    requires store == map[]
    ensures NextOrdinal(store, CLUSTER, ROLE_WORKER) == 1
  {
    assert UsedOrdinals(store, CLUSTER, ROLE_WORKER) == {};
  }

  lemma ClusterPrefix()
    ensures NormalizedPrefix(CLUSTER) == Success(CLUSTER)
  {
    assert CLUSTER == ['c'];
    assert ToLower('c') == 'c' && CLUSTER[1..] == "";
    assert LowerAlnum("") == "";
    assert ['c'] + "" == CLUSTER;
  }

  ghost function NamedState(s: State, m: string, uuid: string): State {
    State(map[Id() := ReservationOf(m, uuid)], s.vms, s.workers[m := Resting(Named(m, uuid), true)], s.issued)
  }

  ghost function Unnamed(s: State, m: string, saved: Machine, uuid: string, pc: Pc): State {
    s.(workers := s.workers[m := Worker(saved, NEW_MACHINE.(uuid := uuid), false, pc)])
  }

  /** From the search by UUID to the listing. */
  lemma Lists(s: State, m: string, saved: Machine, uuid: string)
    requires s.store == map[]
    ensures Reaches(Unnamed(s, m, saved, uuid, ListByUuid),
                    Unnamed(s, m, saved, uuid, CreateName(CLUSTER, CLUSTER, ROLE_WORKER, 0, 1)))
  {
    hide NextOrdinal, NormalizedPrefix, Reaches;
    ClusterPrefix();
    FirstOrdinal(s.store);
    ReachesTwo(Unnamed(s, m, saved, uuid, ListByUuid), DoListByUuid(m, "", CLUSTER, ROLE_WORKER),
               Unnamed(s, m, saved, uuid, ListAll(CLUSTER, CLUSTER, ROLE_WORKER, 0)), DoListAll(m),
               Unnamed(s, m, saved, uuid, CreateName(CLUSTER, CLUSTER, ROLE_WORKER, 0, 1)));
  }

  /** From the create to the save. */
  lemma Creates(s: State, m: string, saved: Machine, uuid: string)
    requires s.store == map[]
    ensures Reaches(Unnamed(s, m, saved, uuid, CreateName(CLUSTER, CLUSTER, ROLE_WORKER, 0, 1)), NamedState(s, m, uuid))
  {
    hide ReservationResourceID, NewReservation, Reaches, NextOrdinal, NormalizedPrefix;
    ReachesTwo(Unnamed(s, m, saved, uuid, CreateName(CLUSTER, CLUSTER, ROLE_WORKER, 0, 1)), DoCreate(m, true),
               State(map[Id() := ReservationOf(m, uuid)], s.vms,
                     s.workers[m := Worker(saved, Named(m, uuid), false, Assigned)], s.issued), Save(m),
               NamedState(s, m, uuid));
  }

  /** A machine without a name takes the first one of an empty store. */
  lemma TakesName(s: State, m: string, uuid: string)
    requires m in s.workers && s.store == map[] && uuid != "" && uuid !in s.issued
    requires s.workers[m] == Resting(NEW_MACHINE, false)
    ensures Reaches(s, NamedState(s.(issued := s.issued[uuid := m]), m, uuid))
  {
    hide Reaches, NamedState, NextOrdinal, NormalizedPrefix;
    var s1 := s.(issued := s.issued[uuid := m]);
    ReachesOne(s, BeginAssign(m, uuid), Unnamed(s1, m, NEW_MACHINE, uuid, ListByUuid));
    Lists(s1, m, NEW_MACHINE, uuid);
    Creates(s1, m, NEW_MACHINE, uuid);
    ReachesThen(s, Unnamed(s1, m, NEW_MACHINE, uuid, ListByUuid),
                Unnamed(s1, m, NEW_MACHINE, uuid, CreateName(CLUSTER, CLUSTER, ROLE_WORKER, 0, 1)));
    ReachesThen(s, Unnamed(s1, m, NEW_MACHINE, uuid, CreateName(CLUSTER, CLUSTER, ROLE_WORKER, 0, 1)),
                NamedState(s1, m, uuid));
  }

  /** A machine that rests with a name and no VM creates one. */
  lemma Instantiates(s: State, m: string, vmId: int)
    requires m in s.workers && vmId != 0 && vmId !in s.vms
    requires s.workers[m].pc.Idle? && s.workers[m].ready && s.workers[m].work.vmId == 0
    ensures var w := s.workers[m];
            Reaches(s, s.(vms := s.vms[vmId := VM(w.work.vmName, Active, m)],
                          workers := s.workers[m := w.(work := w.work.(vmId := vmId), pc := Instantiated)]))
  {
    hide Reaches, NextOrdinal, NormalizedPrefix;
    var w := s.workers[m];
    ReachesTwo(s, BeginInstantiate(m), s.(workers := s.workers[m := w.(pc := Instantiate)]), DoInstantiate(m, vmId),
               s.(vms := s.vms[vmId := VM(w.work.vmName, Active, m)],
                  workers := s.workers[m := w.(work := w.work.(vmId := vmId), pc := Instantiated)]));
  }

  /** It creates one and saves its id. */
  lemma GetsVm(s: State, m: string, vmId: int)
    requires m in s.workers && vmId != 0 && vmId !in s.vms
    requires s.workers[m].pc.Idle? && s.workers[m].ready && s.workers[m].work.vmId == 0
    ensures var k := s.workers[m].work;
            Reaches(s, s.(vms := s.vms[vmId := VM(k.vmName, Active, m)],
                          workers := s.workers[m := Resting(k.(vmId := vmId), true)]))
  {
    hide Reaches, NextOrdinal, NormalizedPrefix;
    var w := s.workers[m];
    var vms := s.vms[vmId := VM(w.work.vmName, Active, m)];
    var s1 := s.(vms := vms, workers := s.workers[m := w.(work := w.work.(vmId := vmId), pc := Instantiated)]);
    var s2 := s.(vms := vms, workers := s.workers[m := Resting(w.work.(vmId := vmId), true)]);
    Instantiates(s, m, vmId);
    ReachesOne(s1, Save(m), s2);
    ReachesThen(s, s1, s2);
  }

  lemma BeginsRelease(s: State, m: string)
    requires m in s.workers && s.workers[m].pc.Idle?
    requires s.workers[m].work.reservationId != "" && s.workers[m].work.vmId == 0
    ensures var w := s.workers[m];
            Reaches(s, s.(workers := s.workers[m := w.(pc := DestroyName(w.work.reservationId))]))
  {
    hide Reaches, NextOrdinal, NormalizedPrefix, NewReservation;
    var w := s.workers[m];
    ReachesTwo(s, BeginDeprovision(m), s.(workers := s.workers[m := w.(pc := Release)]), DoRelease(m, ""),
               s.(workers := s.workers[m := w.(pc := DestroyName(w.work.reservationId))]));
  }

  /** Allowed runs do get to live VMs: from the start, one machine is named and goes live. */
  lemma LiveVmsAreReached()
    ensures exists s :: Reaches(START, s) && Inv(s) && exists vmId :: vmId in s.vms && s.vms[vmId].state.Active?
  {
    hide Reaches, Named, NextOrdinal, NormalizedPrefix, ReservationOf, ReservationResourceID, Inv;
    ReachesNamed();
    NamedFields("a", "u1");
    var n, k := NamedAlone(), Named("a", "u1");
    GetsVm(n, "a", 1);
    var s := n.(vms := map[1 := VM(k.vmName, Active, "a")], workers := n.workers["a" := Resting(k.(vmId := 1), true)]);
    ReachesThen(START, n, s);
    ReachedIsSafe(s);
    assert 1 in s.vms && s.vms[1].state.Active?;
  }

  lemma ReachedIsSafe(s: State)
    requires Reaches(START, s)
    ensures Inv(s)
  {
    hide Inv, Leads;
    var run :| Leads(START, run, s);
    ReachableIsSafe(run, s);
  }

  /** A machine that rests with a reservation and no VM destroys the reservation of that id. */
  lemma Releases(s: State, m: string)
    requires m in s.workers && s.workers[m].pc.Idle?
    requires s.workers[m].work.reservationId != "" && s.workers[m].work.vmId == 0
    ensures var w := s.workers[m];
            Reaches(s, s.(store := s.store - {w.work.reservationId},
                          workers := s.workers[m := w.(work := Cleared(w.work), pc := Released)]))
  {
    hide Reaches, NextOrdinal, NormalizedPrefix, NewReservation;
    var w := s.workers[m];
    var s2 := s.(workers := s.workers[m := w.(pc := DestroyName(w.work.reservationId))]);
    BeginsRelease(s, m);
    var s3 := s.(store := s.store - {w.work.reservationId},
                 workers := s.workers[m := w.(work := Cleared(w.work), pc := Released)]);
    ReachesOne(s2, DoDestroy(m), s3);
    ReachesThen(s, s2, s3);
  }

  /** A new machine takes the name and gets a VM of that name. */
  lemma NewMachineGoesLive(s: State, m: string, uuid: string, vmId: int)
    requires m !in s.workers && s.store == map[] && uuid != "" && uuid !in s.issued && vmId != 0 && vmId !in s.vms
    ensures Reaches(s, State(map[Id() := ReservationOf(m, uuid)],
                             s.vms[vmId := VM(Named(m, uuid).vmName, Active, m)],
                             s.workers[m := Resting(Named(m, uuid).(vmId := vmId), true)], s.issued[uuid := m]))
  {
    hide Reaches, Named, NextOrdinal, NormalizedPrefix, ReservationOf, ReservationResourceID;
    var s1 := s.(workers := s.workers[m := Resting(NEW_MACHINE, false)]);
    ReachesOne(s, Register(m), s1);
    TakesName(s1, m, uuid);
    var s2 := State(map[Id() := ReservationOf(m, uuid)], s.vms, s.workers[m := Resting(Named(m, uuid), true)],
                    s.issued[uuid := m]);
    assert NamedState(s1.(issued := s1.issued[uuid := m]), m, uuid) == s2;
    ReachesThen(s, s1, s2);
    assert Named(m, uuid).vmId == 0 by { NamedFields(m, uuid); }
    GetsVm(s2, m, vmId);
    var s3 := State(map[Id() := ReservationOf(m, uuid)], s.vms[vmId := VM(Named(m, uuid).vmName, Active, m)],
                    s.workers[m := Resting(Named(m, uuid).(vmId := vmId), true)], s.issued[uuid := m]);
    assert s2.workers[m := Resting(Named(m, uuid).(vmId := vmId), true)] == s3.workers;
    ReachesThen(s, s2, s3);
  }

  lemma NamedFields(m: string, uuid: string)
    ensures var k := Named(m, uuid);
            && k.vmId == 0 && k.reservationId == Id() && k.reservationId != "" && k.uuid == uuid
            && k.vmName == SequenceVMName(CLUSTER, ROLE_WORKER, 1)
            && CanRecreate(k) && RecreatedId(k) == Id()
  {
    IdIsNotEmpty(CLUSTER, ROLE_WORKER, 1);
  }

  // ---------------------------------------------------------------- a release that is not saved

  ghost function ReleasedState(): State {
    State(map[], map[], map["a" := Worker(Named("a", "u1"), Cleared(Named("a", "u1")), true, Released)],
          map["u1" := "a"])
  }

  ghost function CrashedState(): State {
    State(map[], map[], map["a" := Resting(Named("a", "u1"), true)], map["u1" := "a"])
  }

  ghost function NamedAlone(): State {
    State(map[Id() := ReservationOf("a", "u1")], map[], map["a" := Resting(Named("a", "u1"), true)], map["u1" := "a"])
  }

  lemma ReachesNamed()
    ensures Reaches(START, NamedAlone())
  {
    hide Reaches, Named, NextOrdinal, NormalizedPrefix, ReservationOf, ReservationResourceID;
    var s1 := START.(workers := map["a" := Resting(NEW_MACHINE, false)]);
    ReachesOne(START, Register("a"), s1);
    TakesName(s1, "a", "u1");
    assert NamedState(s1.(issued := s1.issued["u1" := "a"]), "a", "u1") == NamedAlone();
    ReachesThen(START, s1, NamedAlone());
  }

  lemma ReachesReleased()
    ensures Reaches(START, ReleasedState())
  {
    hide Reaches, Named, NextOrdinal, NormalizedPrefix, ReservationOf, ReservationResourceID;
    ReachesNamed();
    NamedFields("a", "u1");
    Releases(NamedAlone(), "a");
    assert NamedAlone().store - {Id()} == map[];
    assert NamedAlone().workers["a" := Worker(Named("a", "u1"), Cleared(Named("a", "u1")), true, Released)]
        == ReleasedState().workers;
    ReachesThen(START, NamedAlone(), ReleasedState());
  }

  /** Two machines other than `a` that are live under the one name. */
  ghost function TwoNewLive(a: Worker): State {
    State(map[Id() := ReservationOf("c", "u3")],
          map[1 := VM(Named("b", "u2").vmName, Active, "b"), 2 := VM(Named("c", "u3").vmName, Active, "c")],
          map["a" := a, "b" := Resting(Named("b", "u2").(vmId := 1), true),
              "c" := Resting(Named("c", "u3").(vmId := 2), true)],
          map["u1" := "a", "u2" := "b", "u3" := "c"])
  }

  lemma CrashedReachesTwo()
    ensures Reaches(CrashedState(), TwoNewLive(Worker(Named("a", "u1"), Cleared(Named("a", "u1")), true, Released)))
  {
    hide Reaches, Named, NextOrdinal, NormalizedPrefix, ReservationOf, ReservationResourceID;
    var s0 := CrashedState();
    NamedFields("a", "u1");
    NewMachineGoesLive(s0, "b", "u2", 1);
    var s1 := State(map[Id() := ReservationOf("b", "u2")], map[1 := VM(Named("b", "u2").vmName, Active, "b")],
                    s0.workers["b" := Resting(Named("b", "u2").(vmId := 1), true)], map["u1" := "a", "u2" := "b"]);
    Releases(s1, "a");
    var a := Worker(Named("a", "u1"), Cleared(Named("a", "u1")), true, Released);
    var s2 := s1.(store := map[], workers := s1.workers["a" := a]);
    assert s1.store - {Id()} == map[];
    ReachesThen(s0, s1, s2);
    NewMachineGoesLive(s2, "c", "u3", 2);
    assert s2.workers["c" := Resting(Named("c", "u3").(vmId := 2), true)] == TwoNewLive(a).workers;
    ReachesThen(s0, s2, TwoNewLive(a));
  }

  /**
   The crash between destroying a reservation and saving the cleared machine: the machine keeps the
   id, and its next release destroys by that id the reservation another machine has taken since.
   */
  lemma UnsavedReleaseBreaksSafety()
    ensures exists s, s' ::
      && Reaches(START, s) && Enabled(s, Crash("a")) && s.workers["a"].pc.Released?
      && Reaches(Step(s, Crash("a")), s') && !LiveNamesDiffer(s')
  {
    hide Reaches, Named, NextOrdinal, NormalizedPrefix, ReservationOf, ReservationResourceID;
    ReachesReleased();
    CrashedReachesTwo();
    var s, a := ReleasedState(), Worker(Named("a", "u1"), Cleared(Named("a", "u1")), true, Released);
    assert Step(s, Crash("a")) == CrashedState();
    var s' := TwoNewLive(a);
    NamedFields("b", "u2");
    NamedFields("c", "u3");
    assert s'.vms[1].name == s'.vms[2].name;
    assert !LiveNamesDiffer(s');
  }

  // ---------------------------------------------------------------- an instantiation that is not saved

  lemma CrashForgets(s: State, m: string)
    requires m in s.workers
    ensures Enabled(s, Crash(m))
    ensures Step(s, Crash(m)) == s.(workers := s.workers[m := s.workers[m].(work := s.workers[m].saved, pc := Idle)])
  {
  }

  /** The crash between creating a VM and saving its id: the machine creates a second one. */
  lemma UnsavedInstantiationBreaksSafety()
    ensures exists s, s' ::
      && Reaches(START, s) && Enabled(s, Crash("a")) && s.workers["a"].pc.Instantiated?
      && Reaches(Step(s, Crash("a")), s') && !LiveNamesDiffer(s')
  {
    hide Reaches, Named, NextOrdinal, NormalizedPrefix, ReservationOf, ReservationResourceID, Step, Enabled;
    ReachesNamed();
    NamedFields("a", "u1");
    var n, k := NamedAlone(), Named("a", "u1");
    var vms := map[1 := VM(k.vmName, Active, "a")];
    var s := n.(vms := vms, workers := map["a" := Worker(k, k.(vmId := 1), true, Instantiated)]);
    Instantiates(n, "a", 1);
    assert n.workers["a" := Worker(k, k.(vmId := 1), true, Instantiated)] == s.workers;
    ReachesThen(START, n, s);
    var crashed := n.(vms := vms);
    CrashForgets(s, "a");
    assert Step(s, Crash("a")) == crashed;
    GetsVm(crashed, "a", 2);
    var s' := crashed.(vms := vms[2 := VM(k.vmName, Active, "a")],
                       workers := crashed.workers["a" := Resting(k.(vmId := 2), true)]);
    assert s'.vms[1].name == s'.vms[2].name;
    assert !LiveNamesDiffer(s');
  }

  // ---------------------------------------------------------------- a reservation removed from outside

  ghost function Bare(a: Worker): State {
    State(map[], map[], map["a" := a], map["u1" := "a"])
  }

  /** The machine looks for its lost reservation and is about to recreate it. */
  lemma LooksInVain()
    ensures Reaches(Bare(Resting(Named("a", "u1"), true)),
                    Bare(Worker(Named("a", "u1"), Named("a", "u1"), true, Recreate)))
  {
    hide Reaches, Named, NextOrdinal, NormalizedPrefix, ReservationOf, ReservationResourceID;
    NamedFields("a", "u1");
    ReachesTwo(Bare(Resting(Named("a", "u1"), true)), BeginAssign("a", "u1"),
               Bare(Worker(Named("a", "u1"), Named("a", "u1"), true, GetReservation)), DoGet("a"),
               Bare(Worker(Named("a", "u1"), Named("a", "u1"), true, Recreate)));
  }

  ghost function BesideB(store: Store, vms: map<int, VM>, a: Worker): State {
    State(store, vms, map["a" := a, "b" := Resting(Named("b", "u2").(vmId := 1), true)], map["u1" := "a", "u2" := "b"])
  }

  /** Recreating over a stored reservation changes nothing but ends well. */
  lemma RecreatesOver(s: State, m: string, k: Machine)
    requires m in s.workers && s.workers[m] == Worker(k, k, true, Recreate)
    requires CanRecreate(k) && k.reservationId == RecreatedId(k) && k.reservationId in s.store
    ensures Reaches(s, s.(workers := s.workers[m := Resting(k, true)]))
  {
    hide Reaches, NextOrdinal, NormalizedPrefix, RecreatedId, Recreated, NewReservation;
    ReachesTwo(s, DoRecreate(m), s.(workers := s.workers[m := Worker(k, k, true, Assigned)]), Save(m),
               s.(workers := s.workers[m := Resting(k, true)]));
  }

  /** The recreation meets the other machine's reservation, and the conflict is swallowed. */
  lemma RecreatesOverOther()
    ensures var store, vms := map[Id() := ReservationOf("b", "u2")], map[1 := VM(Named("b", "u2").vmName, Active, "b")];
            Reaches(Bare(Worker(Named("a", "u1"), Named("a", "u1"), true, Recreate)),
                    BesideB(store, vms, Resting(Named("a", "u1"), true)))
  {
    hide Reaches, Named, NextOrdinal, NormalizedPrefix, ReservationOf, ReservationResourceID;
    NamedFields("a", "u1");
    var k := Named("a", "u1");
    var s0 := Bare(Worker(k, k, true, Recreate));
    NewMachineGoesLive(s0, "b", "u2", 1);
    var store, vms := map[Id() := ReservationOf("b", "u2")], map[1 := VM(Named("b", "u2").vmName, Active, "b")];
    var s1 := BesideB(store, vms, Worker(k, k, true, Recreate));
    assert s0.workers["b" := Resting(Named("b", "u2").(vmId := 1), true)] == s1.workers;
    RecreatesOver(s1, "a", k);
    assert s1.workers["a" := Resting(k, true)] == BesideB(store, vms, Resting(k, true)).workers;
    ReachesThen(s0, s1, BesideB(store, vms, Resting(k, true)));
  }

  /** Recreation swallows a conflict: after a loss two machines can end up with one name. */
  lemma SwallowedConflictBreaksSafety()
    ensures exists s, s' ::
      && Reaches(START, s) && Enabled(s, Lose(Id()))
      && Reaches(Step(s, Lose(Id())), s') && !LiveNamesDiffer(s')
  {
    hide Reaches, Named, NextOrdinal, NormalizedPrefix, ReservationOf, ReservationResourceID;
    ReachesNamed();
    var s := NamedAlone();
    var k := Named("a", "u1");
    assert s.store - {Id()} == map[];
    assert Step(s, Lose(Id())) == Bare(Resting(k, true));
    LooksInVain();
    RecreatesOverOther();
    var store, vms := map[Id() := ReservationOf("b", "u2")], map[1 := VM(Named("b", "u2").vmName, Active, "b")];
    var s1 := BesideB(store, vms, Resting(k, true));
    ReachesThen(Bare(Resting(k, true)), Bare(Worker(k, k, true, Recreate)), s1);
    NamedFields("a", "u1");
    NamedFields("b", "u2");
    GetsVm(s1, "a", 2);
    var s' := s1.(vms := vms[2 := VM(k.vmName, Active, "a")],
                  workers := s1.workers["a" := Resting(k.(vmId := 2), true)]);
    ReachesThen(Bare(Resting(k, true)), s1, s');
    assert s'.vms[1].name == s'.vms[2].name;
    assert !LiveNamesDiffer(s');
  }
}
