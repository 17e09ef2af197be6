/**
 The methods of the allocator and the deprovisioner run inside the lifecycle. Wherever other machines'
 allowed actions bring about the windows between a method's remote operations, the machine's own
 actions are allowed too, and together they lead to the state the contract of the method describes.
 Only the destroy whose reply is lost needs the runs with losses.
 */
module LifecycleSimulation {
  import opened Wrappers
  import opened Naming
  import opened Reservations
  import opened Lifecycle
  import opened LifecycleSafety
  import opened LifecycleBoundary
  import opened LifecycleLosses
  import opened LifecycleLossLaws
  import opened Text
  import opened OpenNebula
  import A = Allocator
  import D = Deprovision

  // ---------------------------------------------------------------- what a method meets

  /** A store operation, with what others did to the store before it, or an answered call to OpenNebula. */
  datatype Event =
    | StoreEvent(ops: seq<A.StoreOp>, outcome: A.Outcome)
    | CloudEvent(call: D.Call)

  /** The calls made, then the store operations of the clock times from `from` to `to`. */
  ghost function Events(made: seq<D.Call>, omni: A.OmniState, from: nat, to: nat): seq<Event>
    decreases |made|, to - from
  {
    if made != [] then [CloudEvent(made[0])] + Events(made[1..], omni, from, to)
    else if from < to then [StoreEvent(omni.others(from), omni.outcome(from))] + Events([], omni, from + 1, to)
    else []
  }

  /** Allowed actions of others lead from `s` to the state that the next operation of `m` meets. */
  ghost predicate Meets(s: State, m: string, met: State) {
    exists run :: Leads(s, run, met) && forall a :: a in run ==> IsOthers(a, m)
  }

  /** The answer to a look is true of the VM. */
  predicate Tells(s: State, vmId: int, reply: D.Reply) {
    && (reply == D.Error(NotFound) ==> vmId !in s.vms || s.vms[vmId].state.Missing?)
    && (reply.Info? ==>
          && vmId in s.vms
          && if EqualFold(TrimSpace(reply.state), "DONE") then s.vms[vmId].state.Done? else s.vms[vmId].state.Active?)
  }

  /** The state fits the event: others did to the store what they did, or the answer is true. */
  ghost predicate Fits(met: State, known: Store, e: Event) {
    match e
    case StoreEvent(ops, _) => met.store == A.ApplyAll(known, ops) && |met.store| < 0x7FFF_FFFF
    case CloudEvent(call) => call.GetVMCall? ==> Tells(met, call.vmId, call.reply)
  }

  // ---------------------------------------------------------------- what the machine does

  ghost function Owner(store: Store, uuid: string): string {
    if OwnsAny(store, uuid) then var id :| Owns(store, id, uuid); id else ""
  }

  /** The search by UUID; without a find the request says how to go on. */
  ghost function Search(met: State, m: string, lookup: Option<A.Request>): Action
    requires m in met.workers
  {
    if OwnsAny(met.store, met.workers[m].work.uuid) then
      DoListByUuid(m, Owner(met.store, met.workers[m].work.uuid), CLUSTER, ROLE_WORKER)
    else if lookup.Some? && NormalizedPrefix(lookup.value.clusterName).Success? && IsRole(lookup.value.role) then
      DoListByUuid(m, "", lookup.value.clusterName, lookup.value.role)
    else Fail(m)
  }

  /** A store operation that works. */
  ghost function StoreMove(met: State, m: string, lookup: Option<A.Request>): Option<Action>
    requires m in met.workers
  {
    match met.workers[m].pc
    case GetReservation => Some(DoGet(m))
    case ListByUuid => Some(Search(met, m, lookup))
    case ListAll(_, _, _, _) => Some(DoListAll(m))
    case CreateName(_, _, _, _, _) => Some(DoCreate(m, true))
    case Release => Some(DoRelease(m, Owner(met.store, met.workers[m].work.uuid)))
    case DestroyName(_) => Some(DoDestroy(m))
    case _ => None
  }

  /** One that fails; a create can still have landed. A destroy that has ends the play, see `Ended`. */
  function FailedMove(pc: Pc, m: string, outcome: A.Outcome): Option<Action> {
    match pc
    case GetReservation => Some(Fail(m))
    case ListByUuid => Some(Fail(m))
    case ListAll(_, _, _, _) => Some(Fail(m))
    case CreateName(_, _, _, _, _) => Some(if outcome.FailsAfter? then DoCreate(m, false) else Fail(m))
    case Release => Some(Fail(m))
    case DestroyName(_) => if outcome.FailsAfter? then None else Some(Fail(m))
    case _ => None
  }

  /** A call to OpenNebula: looks at three places, requests for deletion at two. */
  function CloudMove(pc: Pc, m: string, call: D.Call): Option<Action> {
    match pc
    case ObserveVM => if call.GetVMCall? then Some(Answered(m, call, DoObserve(m))) else None
    case DeleteVM => if !call.GetVMCall? then Some(Answered(m, call, DoDelete(m))) else None
    case ConfirmVM => if call.GetVMCall? then Some(Answered(m, call, DoConfirm(m))) else None
    case ForceVM => if call.ForceDeleteCall? then Some(Answered(m, call, DoForce(m))) else None
    case ConfirmForced => if call.GetVMCall? then Some(Answered(m, call, DoConfirmForced(m))) else None
    case _ => None
  }

  function Answered(m: string, call: D.Call, a: Action): Action {
    if D.Refused(call.reply) then Fail(m) else a
  }

  ghost function Move(met: State, m: string, lookup: Option<A.Request>, e: Event): Option<Action>
    requires m in met.workers
  {
    match e
    case StoreEvent(_, outcome) =>
      if outcome.Works? then StoreMove(met, m, lookup) else FailedMove(met.workers[m].pc, m, outcome)
    case CloudEvent(call) => CloudMove(met.workers[m].pc, m, call)
  }

  ghost function Do(s: State, a: Action): State {
    if Enabled(s, a) then Step(s, a) else s
  }

  /** A release that need not search for its reservation goes on at once. */
  ghost function Settled(s: State, m: string): State
  {
    if m in s.workers && s.workers[m].pc.Release? && !Searches(s.workers[m].work) then Do(s, DoRelease(m, "")) else s
  }

  predicate Searches(k: Machine) {
    k.reservationId == "" && k.uuid != ""
  }

  ghost function Advance(met: State, m: string, lookup: Option<A.Request>, e: Event): State
    requires m in met.workers
  {
    match Move(met, m, lookup, e)
    case Some(a) => Settled(Do(met, a), m)
    case None => met
  }

  /**
   From `s` the operations of `m` meet these events one after the other, with others acting in
   between, and leave `s'`. `known` is the store after the last of its store operations.
   */
  ghost predicate Plays(s: State, m: string, known: Store, lookup: Option<A.Request>, events: seq<Event>, s': State)
    decreases |events|
  {
    if events == [] then s == s'
    else
      exists met ::
        && Meets(s, m, met) && m in met.workers && Fits(met, known, events[0])
        && var next := Advance(met, m, lookup, events[0]);
           Plays(next, m, if events[0].StoreEvent? then next.store else known, lookup, events[1..], s')
  }

  // ---------------------------------------------------------------- every move is allowed

  /** Others leave the worker of `m` as it is. */
  lemma {:induction false} OthersKeepWorker(s: State, run: seq<Action>, met: State, m: string)
    requires Inv(s) && Leads(s, run, met) && m in s.workers && forall a :: a in run ==> IsOthers(a, m)
    ensures Inv(met) && m in met.workers && met.workers[m] == s.workers[m]
    decreases |run|
  {
    hide Inv, NewStore, NewWorker, NewVms, NewIssued, CanDo;
    if run == [] {
      assert met == s;
    } else {
      StepKeepsInv(s, run[0]);
      assert run[0] in run && forall a :: a in run[1..] ==> a in run;
      OthersKeepWorker(Step(s, run[0]), run[1..], met, m);
    }
  }

  lemma MeetsKeepsWorker(s: State, m: string, met: State)
    requires Inv(s) && Meets(s, m, met) && m in s.workers
    ensures Inv(met) && m in met.workers && met.workers[m] == s.workers[m] && Reaches(s, met)
  {
    hide Inv, Leads;
    var run :| Leads(s, run, met) && forall a :: a in run ==> IsOthers(a, m);
    OthersKeepWorker(s, run, met, m);
  }

  lemma {:induction false} MoveIsAllowed(met: State, m: string, known: Store, lookup: Option<A.Request>, e: Event)
    requires m in met.workers && Fits(met, known, e) && Move(met, m, lookup, e).Some?
    ensures Allowed(met, Move(met, m, lookup, e).value)
    ensures Move(met, m, lookup, e).value.m == m
  {
    hide NormalizedPrefix, D.Verdict, D.VmIsTerminallyDeleted, A.ApplyAll;
    ClusterPrefix();
  }

  lemma DoKeepsInv(s: State, a: Action)
    requires Inv(s) && Allowed(s, a)
    ensures Do(s, a) == Step(s, a) && Inv(Do(s, a)) && Reaches(s, Do(s, a))
  {
    hide Inv, Enabled, Step, Reaches;
    StepKeepsInv(s, a);
    ReachesOne(s, a, Step(s, a));
  }

  lemma WorkersStay(s: State, a: Action, m: string)
    requires Enabled(s, a) && m in s.workers
    ensures m in Step(s, a).workers
  {
    hide NewStore, NewWorker, NewVms, NewIssued, CanDo;
  }

  lemma SettledKeepsInv(s: State, m: string)
    requires Inv(s) && m in s.workers
    ensures Inv(Settled(s, m)) && Reaches(s, Settled(s, m)) && m in Settled(s, m).workers
    ensures Settled(s, m).store == s.store && Settled(s, m).vms == s.vms
    ensures Settled(s, m).workers[m] == Settling(s.workers[m])
  {
    hide Inv, Reaches, NormalizedPrefix, NextOrdinal, NewReservation;
    if s.workers[m].pc.Release? && !Searches(s.workers[m].work) {
      DoKeepsInv(s, DoRelease(m, ""));
    } else {
      ReachesSame(s);
    }
  }

  lemma ReachesSame(s: State)
    ensures Reaches(s, s)
  {
    assert Leads(s, [], s);
  }

  /** A worker in front of a release, once it has gone as far as it can without the store. */
  function Settling(w: Worker): Worker {
    if !w.pc.Release? || Searches(w.work) then w
    else if w.work.reservationId != "" then w.(pc := DestroyName(w.work.reservationId))
    else w.(work := Cleared(w.work), pc := Released)
  }

  lemma {:induction false} AdvanceKeepsInv(met: State, m: string, known: Store, lookup: Option<A.Request>, e: Event)
    requires Inv(met) && m in met.workers && Fits(met, known, e)
    ensures var next := Advance(met, m, lookup, e); Inv(next) && m in next.workers && Reaches(met, next)
  {
    hide Inv, Reaches, Move, Enabled, Step, Settled, Fits;
    match Move(met, m, lookup, e)
    case None => ReachesSame(met);
    case Some(a) =>
      MoveIsAllowed(met, m, known, lookup, e);
      DoKeepsInv(met, a);
      WorkersStay(met, a, m);
      SettledKeepsInv(Do(met, a), m);
      ReachesThen(met, Do(met, a), Settled(Do(met, a), m));
  }

  /** The first event of a play. */
  lemma {:induction false} First(s: State, m: string, known: Store, lookup: Option<A.Request>, events: seq<Event>,
                                 s': State)
    returns (met: State, next: State)
    requires Inv(s) && m in s.workers && events != [] && Plays(s, m, known, lookup, events, s')
    ensures Inv(met) && m in met.workers && met.workers[m] == s.workers[m] && Fits(met, known, events[0])
    ensures next == Advance(met, m, lookup, events[0]) && Inv(next) && m in next.workers && Reaches(s, next)
    ensures Plays(next, m, if events[0].StoreEvent? then next.store else known, lookup, events[1..], s')
  {
    hide Inv, Advance, Meets, Fits, Reaches;
    met :| && Meets(s, m, met) && m in met.workers && Fits(met, known, events[0])
           && var next := Advance(met, m, lookup, events[0]);
              Plays(next, m, if events[0].StoreEvent? then next.store else known, lookup, events[1..], s');
    next := Advance(met, m, lookup, events[0]);
    MeetsKeepsWorker(s, m, met);
    AdvanceKeepsInv(met, m, known, lookup, events[0]);
    ReachesThen(s, met, next);
  }

  /** Whatever a machine's operations meet, its play is an allowed run of the lifecycle. */
  lemma {:induction false} PlaysAreRuns(s: State, m: string, known: Store, lookup: Option<A.Request>,
                                        events: seq<Event>, s': State)
    requires Inv(s) && m in s.workers && Plays(s, m, known, lookup, events, s')
    ensures Reaches(s, s') && Inv(s') && m in s'.workers
    decreases |events|
  {
    hide Inv, Advance, Fits, Meets, Reaches;
    if events == [] {
      ReachesSame(s);
      assert s' == s;
    } else {
      var met, next := First(s, m, known, lookup, events, s');
      PlaysAreRuns(next, m, if events[0].StoreEvent? then next.store else known, lookup, events[1..], s');
      ReachesThen(s, next, s');
    }
  }

  /** A step of a play in which nobody else acts. */
  lemma PlaysOn(s: State, m: string, known: Store, lookup: Option<A.Request>, events: seq<Event>, s': State)
    requires m in s.workers && events != [] && Fits(s, known, events[0])
    requires var next := Advance(s, m, lookup, events[0]);
             Plays(next, m, if events[0].StoreEvent? then next.store else known, lookup, events[1..], s')
    ensures Plays(s, m, known, lookup, events, s')
  {
    hide Advance, Fits;
    assert Meets(s, m, s) by { assert Leads(s, [], s); }
  }

  /** Every answer to a look at the VM is true as things are. */
  predicate AllTold(s: State, made: seq<D.Call>) {
    forall k :: 0 <= k < |made| && made[k].GetVMCall? ==> Tells(s, made[k].vmId, made[k].reply)
  }

  /** A machine whose operations nobody disturbs always has such a run, if it is told the truth. */
  lemma {:induction false} AlonePlays(s: State, m: string, lookup: Option<A.Request>, made: seq<D.Call>,
                                      omni: A.OmniState, from: nat, to: nat)
    requires Inv(s) && m in s.workers && from <= to && |s.store| + (to - from) < 0x7FFF_FFFF
    requires AllTold(s, made) && forall k {:trigger omni.others(k)} :: omni.others(k) == []
    ensures exists s' :: Plays(s, m, s.store, lookup, Events(made, omni, from, to), s')
    decreases |made|, (to - from)
  {
    hide Inv, Advance, Plays, Meets, Tells;
    var events := Events(made, omni, from, to);
    if events == [] {
      PlaysNothing(s, m, s.store, lookup);
    } else {
      var next, e := Advance(s, m, lookup, events[0]), events[0];
      assert Fits(s, s.store, e);
      AdvanceKeepsInv(s, m, s.store, lookup, e);
      AddsAtMostOne(s, m, lookup, e);
      if made != [] {
        StillTold(s, next, made);
        AlonePlays(next, m, lookup, made[1..], omni, from, to);
        assert events[1..] == Events(made[1..], omni, from, to);
      } else {
        AlonePlays(next, m, lookup, [], omni, from + 1, to);
        assert events[1..] == Events([], omni, from + 1, to);
      }
      var s' :| Plays(next, m, next.store, lookup, events[1..], s');
      PlaysOn(s, m, s.store, lookup, events, s');
    }
  }

  lemma StillTold(s: State, s': State, made: seq<D.Call>)
    requires s'.vms == s.vms && made != [] && AllTold(s, made)
    ensures AllTold(s', made[1..])
  {
    hide D.Verdict, D.VmIsTerminallyDeleted;
    forall k | 0 <= k < |made[1..]| && made[1..][k].GetVMCall? ensures Tells(s', made[1..][k].vmId,
                                                                             made[1..][k].reply) {
      assert Tells(s, made[k + 1].vmId, made[k + 1].reply);
    }
  }

  lemma PlaysNothing(s: State, m: string, known: Store, lookup: Option<A.Request>)
    ensures Plays(s, m, known, lookup, [], s)
  {
  }

  lemma MovesOfCalls(met: State, m: string, lookup: Option<A.Request>, e: Event)
    requires m in met.workers && Move(met, m, lookup, e).Some?
    ensures var a := Move(met, m, lookup, e).value;
            && IsWorkerAction(a) && !a.DoInstantiate?
            && (e.CloudEvent? ==> !a.DoCreate? && !a.DoRecreate? && !a.DoDestroy?)
  {
    hide NormalizedPrefix, OwnsAny;
  }

  lemma StepKeepsVms(s: State, a: Action)
    requires Enabled(s, a) && IsWorkerAction(a) && !a.DoInstantiate?
    ensures Step(s, a).vms == s.vms
    ensures !a.DoCreate? && !a.DoRecreate? && !a.DoDestroy? ==> Step(s, a).store == s.store
  {
    hide NewWorker, CreatedId, CreatedReservation;
  }

  lemma {:induction false} AddsAtMostOne(met: State, m: string, lookup: Option<A.Request>, e: Event)
    requires Inv(met) && m in met.workers && Fits(met, met.store, e)
    ensures var next := Advance(met, m, lookup, e);
            next.vms == met.vms && if e.CloudEvent? then next.store == met.store else |next.store| <= |met.store| + 1
  {
    hide Inv, Move, NewStore, NewWorker, NewVms, NewIssued, CanDo, Settled, Fits, CreatedId, CreatedReservation;
    if Move(met, m, lookup, e).Some? {
      var a := Move(met, m, lookup, e).value;
      MoveIsAllowed(met, m, met.store, lookup, e);
      MovesOfCalls(met, m, lookup, e);
      DoKeepsInv(met, a);
      StepKeepsVms(met, a);
      WorkersStay(met, a, m);
      SettledKeepsInv(Do(met, a), m);
      StoreChange(met, a);
    }
  }

  // ---------------------------------------------------------------- allocation

  /** A worker whose step has failed. */
  function Back(w: Worker): Worker {
    w.(saved := w.work, pc := Idle)
  }

  /** The first store operation of a play. */
  lemma {:induction false} FirstStore(s: State, m: string, known: Store, lookup: Option<A.Request>, omni: A.OmniState,
                                      from: nat, to: nat, s': State)
    returns (met: State, next: State)
    requires Inv(s) && m in s.workers && from < to && Plays(s, m, known, lookup, Events([], omni, from, to), s')
    ensures Inv(met) && m in met.workers && met.workers[m] == s.workers[m]
    ensures met.store == A.ApplyAll(known, omni.others(from)) && |met.store| < 0x7FFF_FFFF
    ensures next == Advance(met, m, lookup, StoreEvent(omni.others(from), omni.outcome(from)))
    ensures Inv(next) && m in next.workers && Plays(next, m, next.store, lookup, Events([], omni, from + 1, to), s')
  {
    hide Inv, Advance, Plays, A.ApplyAll;
    var events := Events([], omni, from, to);
    assert events[1..] == Events([], omni, from + 1, to);
    met, next := First(s, m, known, lookup, events, s');
  }

  lemma FailMoves(met: State, m: string, lookup: Option<A.Request>, e: Event)
    requires m in met.workers && Move(met, m, lookup, e) == Some(Fail(m))
    requires Enabled(met, Fail(m))
    ensures var next := Advance(met, m, lookup, e);
            m in next.workers && next.store == met.store && next.workers[m] == Back(met.workers[m])
  {
    hide Move, Owns, NormalizedPrefix, NextOrdinal, NewReservation;
  }

  /** The listing of an attempt. */
  lemma ListMoves(met: State, m: string, lookup: Option<A.Request>, ops: seq<A.StoreOp>)
    requires m in met.workers && met.workers[m].pc.ListAll?
    ensures var w, next := met.workers[m], Advance(met, m, lookup, StoreEvent(ops, A.Works));
            && m in next.workers && next.store == met.store
            && next.workers[m] == w.(pc := CreateName(w.pc.clusterName, w.pc.prefix, w.pc.role, w.pc.attempt,
                                                      NextOrdinal(met.store, w.pc.prefix, w.pc.role)))
  {
    hide Owns, NormalizedPrefix, NextOrdinal, NewReservation;
  }

  /** The create of an attempt, whatever becomes of it. */
  lemma CreateMoves(met: State, m: string, lookup: Option<A.Request>, ops: seq<A.StoreOp>, outcome: A.Outcome)
    requires m in met.workers && met.workers[m].pc.CreateName?
    ensures var w, next := met.workers[m], Advance(met, m, lookup, StoreEvent(ops, outcome));
            var id, r := CreatedId(w.pc), CreatedReservation(w, m);
            && m in next.workers
            && next.store == A.Effect(outcome, met.store, A.CreateOp(id, r))
            && next.workers[m] == (
                 if !outcome.Works? then Back(w)
                 else if id !in met.store then w.(work := Applied(w.work, id, r), pc := Assigned)
                 else if w.pc.attempt + 1 < 32 then
                   w.(pc := ListAll(w.pc.clusterName, w.pc.prefix, w.pc.role, w.pc.attempt + 1))
                 else Back(w))
  {
    hide Owns, NormalizedPrefix, NextOrdinal, CreatedReservation, CreatedId, Applied;
  }

  /** The worker after an attempt that ended with `r`. */
  function Attempted(w: Worker, now: Machine, r: Result<string, A.StoreError>): Worker
    requires w.pc.ListAll?
  {
    match r
    case Success(vmName) => w.(work := now.(vmName := vmName), pc := Assigned)
    case Failure(Conflict) =>
      if w.pc.attempt + 1 < 32 then w.(pc := ListAll(w.pc.clusterName, w.pc.prefix, w.pc.role, w.pc.attempt + 1))
      else Back(w)
    case Failure(_) => Back(w)
  }

  ghost predicate IsAttempt(w: Worker, request: A.Request, prefix: string, i: nat) {
    w.pc == ListAll(request.clusterName, prefix, request.role, i)
  }

  /** One attempt of the retry loop is a listing and a create of the lifecycle. */
  lemma {:induction false} AttemptIsPlayed(s: State, m: string, at: A.Remote, lookup: Option<A.Request>,
                                           omni: A.OmniState, request: A.Request, prefix: string, end: A.Remote,
                                           now: Machine, r: Result<string, A.StoreError>, to: nat, s': State)
    returns (n: State)
    requires Inv(s) && m in s.workers && request.id == m
    requires var w := s.workers[m];
             && w.pc.ListAll? && IsAttempt(w, request, prefix, w.pc.attempt)
             && A.Tried(omni, at, request, prefix, w.work.uuid, m, w.work, end, now, r)
    requires at.clock < end.clock <= to && Plays(s, m, at.store, lookup, Events([], omni, at.clock, to), s')
    ensures Inv(n) && m in n.workers && n.store == end.store && n.workers[m] == Attempted(s.workers[m], now, r)
    ensures Plays(n, m, n.store, lookup, Events([], omni, end.clock, to), s')
  {
    hide Inv, Plays, Advance, Events, NextOrdinal, A.ApplyAll, NewReservation, ReservationResourceID, Applied;
    var met, next := FirstStore(s, m, at.store, lookup, omni, at.clock, to, s');
    if !A.Serves(omni, at) {
      FailMoves(met, m, lookup, StoreEvent(omni.others(at.clock), omni.outcome(at.clock)));
      return next;
    }
    ListMoves(met, m, lookup, omni.others(at.clock));
    var met', next' := FirstStore(next, m, next.store, lookup, omni, at.clock + 1, to, s');
    CreateMoves(met', m, lookup, omni.others(at.clock + 1), omni.outcome(at.clock + 1));
    n := next';
  }

  /** The listing and the create of attempt `i`, as a value. */
  ghost function Attempt(omni: A.OmniState, at: A.Remote, i: nat): A.Remote {
    A.Remote(A.Later(at.store, omni.others, at.clock, 2 * i), at.clock + 2 * i)
  }

  /** A conflict is an attempt that ends where the next one starts. */
  lemma ConflictIsTried(omni: A.OmniState, at: A.Remote, i: nat, request: A.Request, prefix: string, uuid: string,
                        m: string, was: Machine)
    requires A.Conflicted(omni, at, i, prefix, request.role)
    ensures A.Tried(omni, Attempt(omni, at, i), request, prefix, uuid, m, was, Attempt(omni, at, i + 1), was,
                    Failure(A.Conflict))
  {
    hide A.Later, A.ApplyAll, NextOrdinal, NewReservation, ReservationResourceID;
    A.LaterNext(at.store, omni.others, at.clock, 2 * i);
    A.LaterNext(at.store, omni.others, at.clock, 2 * i + 1);
    assert 2 * (i + 1) == 2 * i + 2;
  }

  /** The worker after the whole retry loop. */
  function Allocated(w: Worker, now: Machine, r: Result<string, A.AllocationError>): Worker {
    if r.Success? then w.(work := now.(vmName := r.value), pc := Assigned) else Back(w)
  }

  /** The retry loop from attempt `i` on. */
  lemma {:induction false} AllocationIsPlayed(s: State, m: string, at: A.Remote, i: nat, lookup: Option<A.Request>,
                                              omni: A.OmniState, request: A.Request, prefix: string, was: Machine,
                                              end: A.Remote, now: Machine, r: Result<string, A.AllocationError>,
                                              conflicts: nat, to: nat, s': State)
    returns (n: State)
    requires Inv(s) && m in s.workers && request.id == m && i <= conflicts && i < 32
    requires IsAttempt(s.workers[m], request, prefix, i) && s.workers[m].work == was
    requires A.Allocation(omni, at, request, prefix, was.uuid, m, was, end, now, r, conflicts) && end.clock <= to
    requires Plays(s, m, Attempt(omni, at, i).store, lookup, Events([], omni, at.clock + 2 * i, to), s')
    ensures Inv(n) && m in n.workers && n.store == end.store
    ensures n.workers[m] == Allocated(s.workers[m], now, r)
    ensures Plays(n, m, n.store, lookup, Events([], omni, end.clock, to), s')
    decreases 32 - i
  {
    hide Inv, Plays, Events, A.Tried, A.Later, A.Conflicted, NextOrdinal;
    var at', w := Attempt(omni, at, i), s.workers[m];
    if i < conflicts {
      ConflictIsTried(omni, at, i, request, prefix, was.uuid, m, was);
      var after := Attempt(omni, at, i + 1);
      ClocksGrow(omni, at, conflicts, request, prefix, was.uuid, m, was, end, now, r);
      n := AttemptIsPlayed(s, m, at', lookup, omni, request, prefix, after, was, Failure(A.Conflict), to, s');
      if i + 1 < 32 {
        n := AllocationIsPlayed(n, m, at, i + 1, lookup, omni, request, prefix, was, end, now, r, conflicts, to, s');
      }
    } else {
      var tried := if r.Success? then Success(r.value) else Failure(A.Unavailable);
      TriedTakesTime(omni, at', request, prefix, was.uuid, m, was, end, now, tried);
      n := AttemptIsPlayed(s, m, at', lookup, omni, request, prefix, end, now, tried, to, s');
    }
  }

  lemma TriedTakesTime(omni: A.OmniState, at: A.Remote, request: A.Request, prefix: string, uuid: string, m: string,
                       was: Machine, end: A.Remote, now: Machine, r: Result<string, A.StoreError>)
    requires A.Tried(omni, at, request, prefix, uuid, m, was, end, now, r)
    ensures at.clock < end.clock
  {
    hide A.Allocated, NextOrdinal, NewReservation, A.ApplyAll;
  }

  lemma ClocksGrow(omni: A.OmniState, at: A.Remote, conflicts: nat, request: A.Request, prefix: string, uuid: string,
                   m: string, was: Machine, end: A.Remote, now: Machine, r: Result<string, A.AllocationError>)
    requires A.Allocation(omni, at, request, prefix, uuid, m, was, end, now, r, conflicts)
    ensures at.clock + 2 * conflicts <= end.clock
  {
    hide A.Tried, A.Conflicted;
    if conflicts < 32 {
      TriedTakesTime(omni, Attempt(omni, at, conflicts), request, prefix, uuid, m, was, end, now,
                     if r.Success? then Success(r.value) else Failure(A.Unavailable));
    }
  }

  // ---------------------------------------------------------------- the search for a reservation

  lemma OwnerIsTheOne(store: Store, issued: map<string, string>, id: string, uuid: string)
    requires StoreSound(store, issued) && Owns(store, id, uuid)
    ensures OwnsAny(store, uuid) && Owner(store, uuid) == id
  {
    hide IdsMatch;
    assert OwnsAny(store, uuid);
  }

  predicate IsUsable(lookup: Option<A.Request>) {
    lookup.Some? && NormalizedPrefix(lookup.value.clusterName).Success? && IsRole(lookup.value.role)
  }

  /** The get by id of a machine that holds a stored reservation. */
  lemma GetMoves(met: State, m: string, lookup: Option<A.Request>, ops: seq<A.StoreOp>)
    requires m in met.workers && met.workers[m].pc.GetReservation? && met.workers[m].work.reservationId in met.store
    ensures var w, next := met.workers[m], Advance(met, m, lookup, StoreEvent(ops, A.Works));
            var id := w.work.reservationId;
            && m in next.workers && next.store == met.store
            && next.workers[m] == w.(work := Applied(w.work, id, met.store[id]), pc := Assigned)
  {
    hide Owns, NormalizedPrefix, NextOrdinal, NewReservation, Applied;
  }

  /** The search by UUID of a machine without a name. */
  lemma SearchMoves(met: State, m: string, lookup: Option<A.Request>, ops: seq<A.StoreOp>)
    requires m in met.workers && met.workers[m].pc.ListByUuid? && met.workers[m].work.vmName == ""
    ensures var w, next := met.workers[m], Advance(met, m, lookup, StoreEvent(ops, A.Works));
            var id := Owner(met.store, w.work.uuid);
            && m in next.workers && next.store == met.store
            && next.workers[m] == (
                 if OwnsAny(met.store, w.work.uuid) then w.(work := Applied(w.work, id, met.store[id]), pc := Assigned)
                 else if IsUsable(lookup) then
                   w.(pc := ListAll(lookup.value.clusterName, NormalizedPrefix(lookup.value.clusterName).value,
                                    lookup.value.role, 0))
                 else Back(w))
  {
    hide NormalizedPrefix, NextOrdinal, NewReservation, Applied;
    ClusterPrefix();
  }

  /** The worker after the search: named, failed, or on its way to allocate. */
  function Searched(w: Worker, lookup: Option<A.Request>, now: Machine,
                    r: Result<Option<string>, A.StoreError>): Worker {
    match r
    case Success(Some(_)) => w.(work := now, pc := Assigned)
    case Failure(_) => Back(w)
    case Success(None) =>
      if IsUsable(lookup) then
        w.(pc := ListAll(lookup.value.clusterName, NormalizedPrefix(lookup.value.clusterName).value, lookup.value.role,
                         0))
      else Back(w)
  }

  /** A machine that searches holds a stored reservation or has no name at all. */
  lemma SearchingHolds(s: State, m: string)
    requires Inv(s) && m in s.workers && (s.workers[m].pc.GetReservation? || s.workers[m].pc.ListByUuid?)
    ensures var w := s.workers[m];
            && w.work.uuid != ""
            && (w.pc.GetReservation? <==> w.work.reservationId != "")
            && (w.pc.GetReservation? ==> w.work.reservationId in s.store)
            && (w.pc.ListByUuid? ==> w.work.vmName == "" && !CanRecreate(w.work))
  {
    hide Inv, IdsMatch, NormalizedPrefix;
    InvOf(s, m);
  }

  lemma LoadTakesTime(omni: A.OmniState, at: A.Remote, uuid: string, m: string, was: Machine, end: A.Remote,
                      now: Machine, r: Result<Option<string>, A.StoreError>)
    requires A.Loaded(omni, at, uuid, m, was, end, now, r) && uuid != ""
    ensures at.clock < end.clock
  {
    hide A.ApplyAll, A.Reloaded, OwnsAny, A.Recreates, CanRecreate;
  }

  /** `LoadExistingReservation` is the get or the search of the lifecycle; nothing is ever recreated. */
  lemma {:induction false} LoadIsPlayed(s: State, m: string, at: A.Remote, lookup: Option<A.Request>, omni: A.OmniState,
                                        end: A.Remote, now: Machine, r: Result<Option<string>, A.StoreError>, to: nat,
                                        s': State)
    returns (n: State)
    requires Inv(s) && m in s.workers && (s.workers[m].pc.GetReservation? || s.workers[m].pc.ListByUuid?)
    requires A.Loaded(omni, at, s.workers[m].work.uuid, m, s.workers[m].work, end, now, r)
    requires end.clock <= to && Plays(s, m, at.store, lookup, Events([], omni, at.clock, to), s')
    ensures Inv(n) && m in n.workers && n.store == end.store && n.workers[m] == Searched(s.workers[m], lookup, now, r)
    ensures r.Success? && r.value.Some? ==> now.vmName == r.value.value
    ensures (r == Success(None) || r.Failure?) ==> now == s.workers[m].work
    ensures end.clock == at.clock + 1 && Plays(n, m, n.store, lookup, Events([], omni, end.clock, to), s')
  {
    hide Inv, Plays, Advance, Events, NextOrdinal, A.ApplyAll, StoreSound, NormalizedPrefix, IsUsable, OwnsAny;
    var w := s.workers[m];
    SearchingHolds(s, m);
    LoadTakesTime(omni, at, w.work.uuid, m, w.work, end, now, r);
    var met, next := FirstStore(s, m, at.store, lookup, omni, at.clock, to, s');
    SearchingHolds(met, m);
    n := next;
    if !A.Serves(omni, at) {
      FailMoves(met, m, lookup, StoreEvent(omni.others(at.clock), omni.outcome(at.clock)));
    } else if w.pc.GetReservation? {
      GetMoves(met, m, lookup, omni.others(at.clock));
    } else {
      SearchMoves(met, m, lookup, omni.others(at.clock));
      if OwnsAny(met.store, w.work.uuid) {
        assert StoreSound(met.store, met.issued) by { InvOf(met, m); }
        OwnerIsTheOne(met.store, met.issued, now.reservationId, w.work.uuid);
      }
    }
  }

  // ---------------------------------------------------------------- a whole assignment

  /** A name from scratch, once the search has come up with nothing. */
  lemma {:induction false} ScratchIsPlayed(s: State, n: State, m: string, mid: A.Remote, lookup: Option<A.Request>,
                                           omni: A.OmniState, was: Machine, end: A.Remote, now: Machine,
                                           r: Result<string, A.AllocationError>, s': State)
    requires Inv(n) && m in n.workers && m in s.workers && n.store == mid.store
    requires lookup.Some? ==> IsRole(lookup.value.role) && lookup.value.id == m
    requires s.workers[m].work == was && n.workers[m] == Searched(s.workers[m], lookup, was, Success(None))
    requires A.Scratch(omni, mid, lookup, was.uuid, m, was, end, now, r)
    requires Plays(n, m, n.store, lookup, Events([], omni, mid.clock, end.clock), s')
    ensures s'.store == end.store && m in s'.workers && s'.workers[m] == Allocated(s.workers[m], now, r)
  {
    hide Inv, Events, Plays, A.Allocation, NormalizedPrefix, NextOrdinal, A.Later, IsRole;
    NoEvents(omni, end.clock);
    if IsUsable(lookup) {
      var prefix := NormalizedPrefix(lookup.value.clusterName).value;
      var conflicts :| A.Allocation(omni, mid, lookup.value, prefix, was.uuid, m, was, end, now, r, conflicts);
      A.LaterNext(mid.store, omni.others, mid.clock, 0);
      var n' := AllocationIsPlayed(n, m, mid, 0, lookup, omni, lookup.value, prefix, was, end, now, r, conflicts,
                                   end.clock, s');
      NothingPlayed(n', m, n'.store, lookup, s');
    } else {
      NothingPlayed(n, m, n.store, lookup, s');
    }
  }

  lemma NoEvents(omni: A.OmniState, clock: nat)
    ensures Events([], omni, clock, clock) == []
  {
  }

  /** The worker after an assignment. */
  function Assigning(w: Worker, now: Machine, r: Option<A.AllocationError>): Worker {
    if r.None? then w.(work := now, pc := Assigned) else Back(w)
  }

  lemma {:induction false} ResolutionIsPlayed(s: State, m: string, at: A.Remote, lookup: Option<A.Request>,
                                              omni: A.OmniState, end: A.Remote, now: Machine,
                                              r: Result<string, A.AllocationError>, s': State)
    requires Inv(s) && m in s.workers && (s.workers[m].pc.GetReservation? || s.workers[m].pc.ListByUuid?)
    requires lookup.Some? ==> IsRole(lookup.value.role) && lookup.value.id == m
    requires A.Resolved(omni, at, lookup, s.workers[m].work.uuid, m, s.workers[m].work, end, now, r)
    requires Plays(s, m, at.store, lookup, Events([], omni, at.clock, end.clock), s')
    ensures s'.store == end.store && m in s'.workers && s'.workers[m] == Allocated(s.workers[m], now, r)
  {
    hide Inv, Events, A.Loaded, A.Scratch, NormalizedPrefix, NextOrdinal, Advance;
    var was := s.workers[m].work;
    var mid, found, loaded :|
      && A.Loaded(omni, at, was.uuid, m, was, mid, found, loaded)
      && match loaded
         case Failure(e) => r == Failure(A.StoreFailed(e)) && end == mid && now == found
         case Success(Some(vmName)) => r == Success(vmName) && end == mid && now == found
         case Success(None) => A.Scratch(omni, mid, lookup, was.uuid, m, found, end, now, r);
    if loaded == Success(None) {
      ScratchTakesTime(omni, mid, lookup, was.uuid, m, found, end, now, r);
    }
    var n := LoadIsPlayed(s, m, at, lookup, omni, mid, found, loaded, end.clock, s');
    NoEvents(omni, end.clock);
    if loaded == Success(None) {
      ScratchIsPlayed(s, n, m, mid, lookup, omni, was, end, now, r, s');
    }
  }

  lemma ScratchTakesTime(omni: A.OmniState, at: A.Remote, lookup: Option<A.Request>, uuid: string, m: string,
                         was: Machine, end: A.Remote, now: Machine, r: Result<string, A.AllocationError>)
    requires A.Scratch(omni, at, lookup, uuid, m, was, end, now, r)
    ensures at.clock <= end.clock
  {
    hide A.Allocation, NormalizedPrefix;
    if lookup.Some? && NormalizedPrefix(lookup.value.clusterName).Success? {
      var prefix := NormalizedPrefix(lookup.value.clusterName).value;
      var conflicts :| A.Allocation(omni, at, lookup.value, prefix, uuid, m, was, end, now, r, conflicts);
      ClocksGrow(omni, at, conflicts, lookup.value, prefix, uuid, m, was, end, now, r);
    }
  }

  /**
   An assignment: if other machines' actions do to the store what `others` says, then the machine's own
   actions are allowed and lead to the store and the machine that `AssignMachineUUID` promises.
   */
  lemma {:induction false} AssignmentIsSimulated(s: State, m: string, drawn: string, at: A.Remote,
                                                 lookup: Option<A.Request>, omni: A.OmniState, end: A.Remote,
                                                 now: Machine, r: Option<A.AllocationError>, s': State)
    requires Inv(s) && Allowed(s, BeginAssign(m, drawn))
    requires lookup.Some? ==> IsRole(lookup.value.role) && lookup.value.id == m
    requires var begun := Step(s, BeginAssign(m, drawn));
             && m in begun.workers
             && var was := begun.workers[m].work;
                && A.NameAssigned(omni, at, lookup, was.uuid, m, was, end, now, r)
                && Plays(begun, m, at.store, lookup, Events([], omni, at.clock, end.clock), s')
    ensures Reaches(s, s') && Inv(s')
    ensures s'.store == end.store && m in s'.workers
    ensures s'.workers[m] == Assigning(Step(s, BeginAssign(m, drawn)).workers[m], now, r)
  {
    hide Inv, Leads, Events, Plays, A.Resolved, NormalizedPrefix, NextOrdinal, Enabled, Step, Reaches;
    var begun := Step(s, BeginAssign(m, drawn));
    StepKeepsInv(s, BeginAssign(m, drawn));
    ReachesOne(s, BeginAssign(m, drawn), begun);
    PlaysAreRuns(begun, m, at.store, lookup, Events([], omni, at.clock, end.clock), s');
    ReachesThen(s, begun, s');
    BegunSearches(s, m, drawn);
    var was := begun.workers[m].work;
    var resolved, resolving :|
      && A.Resolved(omni, at, lookup, was.uuid, m, was, end, resolving, resolved)
      && (resolved.Failure? ==> r == Some(resolved.error) && now == resolving)
      && (resolved.Success? ==> r == None && now == resolving.(vmName := resolved.value));
    ResolutionIsPlayed(begun, m, at, lookup, omni, end, resolving, resolved, s');
  }

  lemma BegunSearches(s: State, m: string, drawn: string)
    requires Allowed(s, BeginAssign(m, drawn))
    ensures var begun := Step(s, BeginAssign(m, drawn));
            m in begun.workers && (begun.workers[m].pc.GetReservation? || begun.workers[m].pc.ListByUuid?)
  {
  }

  // ---------------------------------------------------------------- the moves of a release

  /** The destroy of a machine's reservation. */
  lemma DestroyMoves(met: State, m: string, lookup: Option<A.Request>, ops: seq<A.StoreOp>, outcome: A.Outcome)
    requires m in met.workers && met.workers[m].pc.DestroyName? && !outcome.FailsAfter?
    ensures var w, next := met.workers[m], Advance(met, m, lookup, StoreEvent(ops, outcome));
            && m in next.workers
            && next.store == A.Effect(outcome, met.store, A.DestroyOp(w.pc.reservationId))
            && next.workers[m] == if outcome.Works? then w.(work := Cleared(w.work), pc := Released) else Back(w)
  {
    hide Owns, NormalizedPrefix, NextOrdinal, NewReservation;
  }

  /** One whose reply is lost. */
  lemma DestroyStays(met: State, m: string, lookup: Option<A.Request>, ops: seq<A.StoreOp>)
    requires m in met.workers && met.workers[m].pc.DestroyName?
    ensures Advance(met, m, lookup, StoreEvent(ops, A.FailsAfter)) == met
  {
    hide Owns, NormalizedPrefix, NextOrdinal, NewReservation;
  }

  /** The search of a release. */
  lemma SearchReleases(met: State, m: string, lookup: Option<A.Request>, ops: seq<A.StoreOp>)
    requires m in met.workers && met.workers[m].pc.Release? && Searches(met.workers[m].work)
    ensures var w, next := met.workers[m], Advance(met, m, lookup, StoreEvent(ops, A.Works));
            && m in next.workers && next.store == met.store
            && next.workers[m] == if OwnsAny(met.store, w.work.uuid) then
               w.(pc := DestroyName(Owner(met.store, w.work.uuid)))
                                  else w.(work := Cleared(w.work), pc := Released)
  {
    hide NormalizedPrefix, NextOrdinal, NewReservation;
  }

  // ---------------------------------------------------------------- how a step ends

  /**
   A pass that leaves the VM to a later one ends without forcing it. A destroy that takes effect while
   its reply is lost leaves the machine as if it had crashed before it could save its release.
   */
  ghost function Ended(s: State, m: string): State {
    if m in s.workers && s.workers[m].pc.ForceVM? then Do(s, Fail(m))
    else if m in s.workers && s.workers[m].pc.DestroyName? then Do(Do(s, DoDestroy(m)), Crash(m))
    else s
  }

  ghost function EndedStore(s: State, m: string): Store
    requires m in s.workers
  {
    if s.workers[m].pc.DestroyName? then s.store - {s.workers[m].pc.reservationId} else s.store
  }

  function Ending(w: Worker): Worker {
    if w.pc.ForceVM? || w.pc.DestroyName? then Back(w) else w
  }

  /** Runs with losses and unsaved releases lead from one state to the other. */
  ghost predicate LossyReaches(s: State, s': State) {
    exists run, lost :: LossyLeads(s, map[], run, s', lost)
  }

  lemma LossyFirst(s: State, lost: Store, a: Action, run: seq<Action>, s': State, lost': Store)
    requires Permitted(s, lost, a) && LossyLeads(Step(s, a), LostAfter(s, lost, a), run, s', lost')
    ensures LossyLeads(s, lost, [a] + run, s', lost')
  {
    hide Enabled, Step, LostAfter, TakesLost;
    assert ([a] + run)[1..] == run;
  }

  lemma LossyRest(s: State, lost: Store, run: seq<Action>, s': State, lost': Store)
    requires LossyLeads(s, lost, run, s', lost')
    ensures run == [] ==> s == s' && lost == lost'
    ensures run != [] ==>
      Permitted(s, lost, run[0]) && LossyLeads(Step(s, run[0]), LostAfter(s, lost, run[0]), run[1..], s', lost')
  {
    hide Enabled, Step, LostAfter, TakesLost;
  }

  lemma {:induction false} LossyThen(s: State, lost: Store, run: seq<Action>, s': State, lost': Store,
                                     run': seq<Action>, s'': State, lost'': Store)
    requires LossyLeads(s, lost, run, s', lost') && LossyLeads(s', lost', run', s'', lost'')
    ensures LossyLeads(s, lost, run + run', s'', lost'')
    decreases |run|
  {
    hide LossyLeads, Enabled, Step, LostAfter, TakesLost, Allowed, IsUnsaved;
    LossyRest(s, lost, run, s', lost');
    if run == [] {
      assert run + run' == run';
    } else {
      LossyThen(Step(s, run[0]), LostAfter(s, lost, run[0]), run[1..], s', lost', run', s'', lost'');
      LossyFirst(s, lost, run[0], run[1..] + run', s'', lost'');
      assert run + run' == [run[0]] + (run[1..] + run');
    }
  }

  lemma ReachesLossily(s: State, s': State)
    requires Reaches(s, s')
    ensures LossyReaches(s, s')
  {
    hide Leads, LossyLeads;
    var run :| Leads(s, run, s');
    AllowedRunsAreLossy(s, run, s');
  }

  /** What a worker in front of its destroy works with. */
  lemma DestroyingWorkerOf(s: State, m: string)
    requires Inv(s) && m in s.workers && s.workers[m].pc.DestroyName?
    ensures var w := s.workers[m];
            && w.work == w.saved && "" !in s.store
            && (w.work.reservationId == "" || w.work.reservationId == w.pc.reservationId)
  {
    hide Inv, MachineSound, IdsMatch;
    InvOf(s, m);
    if "" in s.store {
      StoredIdIsNotEmpty(s.store, "");
    }
  }

  lemma UnsavedIsPermitted(s: State, m: string)
    requires m in s.workers && s.workers[m].pc.Released? && s.workers[m].saved.reservationId !in s.store
    ensures Permitted(s, map[], Crash(m)) && !Allowed(s, Crash(m))
  {
    assert s.store + map[] == s.store;
  }

  lemma DestroyIsAllowed(s: State, m: string)
    requires m in s.workers && s.workers[m].pc.DestroyName?
    ensures Allowed(s, DoDestroy(m))
  {
  }

  /** The destroy whose reply is lost: an unsaved release, which only runs with losses follow. */
  lemma {:induction false} LostReplyIsUnsavedRelease(met: State, m: string)
    requires Inv(met) && m in met.workers && met.workers[m].pc.DestroyName?
    ensures Allowed(met, DoDestroy(m))
    ensures var destroyed := Step(met, DoDestroy(m));
            && !Allowed(destroyed, Crash(m)) && Enabled(destroyed, Crash(m))
            && Ended(met, m) == Step(destroyed, Crash(m)) && LossyReaches(met, Ended(met, m))
    ensures Ended(met, m).store == A.Effect(A.FailsAfter, met.store, A.DestroyOp(met.workers[m].pc.reservationId))
    ensures m in Ended(met, m).workers && Ended(met, m).workers[m] == Back(met.workers[m])
  {
    hide Inv, Enabled, Step, LossyReaches, LostAfter, TakesLost, Cleared;
    DestroyIsAllowed(met, m);
    DestroyingWorkerOf(met, m);
    DestroyThenCrash(met, m, met.workers[m].pc.reservationId);
    var destroyed := Step(met, DoDestroy(m));
    AllowedIsPermitted(met, DoDestroy(m));
    UnsavedIsPermitted(destroyed, m);
    TwoLossySteps(met, DoDestroy(m), destroyed, Crash(m), Step(destroyed, Crash(m)),
                  LostAfter(destroyed, map[], Crash(m)));
  }

  lemma TwoLossySteps(s: State, a: Action, s': State, b: Action, s'': State, lost: Store)
    requires Permitted(s, map[], a) && LostAfter(s, map[], a) == map[] && Step(s, a) == s'
    requires Permitted(s', map[], b) && LostAfter(s', map[], b) == lost && Step(s', b) == s''
    ensures LossyReaches(s, s'')
  {
    hide Enabled, Step, LostAfter, TakesLost;
    assert LossyLeads(s'', lost, [], s'', lost);
    assert [b][1..] == [] && [a, b][1..] == [b];
    assert LossyLeads(s', map[], [b], s'', lost);
    assert LossyLeads(s, map[], [a, b], s'', lost);
  }

  lemma {:induction false} EndedMeans(s: State, m: string)
    requires Inv(s) && m in s.workers
    ensures m in Ended(s, m).workers
    ensures Ended(s, m).store == EndedStore(s, m) && Ended(s, m).workers[m] == Ending(s.workers[m])
    ensures LossyReaches(s, Ended(s, m))
    ensures !s.workers[m].pc.DestroyName? ==> Reaches(s, Ended(s, m)) && Inv(Ended(s, m))
  {
    hide Inv, Reaches, LossyReaches, NormalizedPrefix, NextOrdinal, NewReservation;
    if s.workers[m].pc.ForceVM? {
      DoKeepsInv(s, Fail(m));
      ReachesLossily(s, Ended(s, m));
    } else if s.workers[m].pc.DestroyName? {
      hide Ended;
      LostReplyIsUnsavedRelease(s, m);
    } else {
      ReachesSame(s);
      ReachesLossily(s, s);
    }
  }

  // ---------------------------------------------------------------- the release of a name

  /** The worker after a release. */
  function Releasing(w: Worker, failure: Option<A.StoreError>): Worker {
    if failure.None? then w.(work := Cleared(w.work), pc := Released) else Back(w)
  }

  /** The reply of the last operation is not lost. */
  ghost predicate Answers(omni: A.OmniState, at: A.Remote, end: A.Remote) {
    at.clock < end.clock ==> !omni.outcome(end.clock - 1).FailsAfter?
  }

  lemma {:induction false} DestroyIsPlayed(s: State, m: string, at: A.Remote, omni: A.OmniState, id: string,
                                           end: A.Remote, failure: Option<A.StoreError>, s': State)
    requires Inv(s) && m in s.workers && s.workers[m].pc == DestroyName(id)
    requires A.Destroyed(omni, at, id, end, failure)
    requires Plays(s, m, at.store, None, Events([], omni, at.clock, end.clock), s')
    ensures Inv(s') && m in s'.workers && Ending(s'.workers[m]) == Releasing(s.workers[m], failure)
    ensures EndedStore(s', m) == end.store && (Answers(omni, at, end) ==> !s'.workers[m].pc.DestroyName?)
  {
    hide Inv, Events, Plays, Advance, A.ApplyAll;
    var met, next := FirstStore(s, m, at.store, None, omni, at.clock, end.clock, s');
    if omni.outcome(at.clock).FailsAfter? {
      DestroyStays(met, m, None, omni.others(at.clock));
    } else {
      DestroyMoves(met, m, None, omni.others(at.clock), omni.outcome(at.clock));
    }
    NoEvents(omni, end.clock);
    NothingPlayed(next, m, next.store, None, s');
  }

  /** `ReleaseReservation` is the release of the lifecycle: by the id that is held, or by a search. */
  lemma {:induction false} ReleaseIsPlayed(s: State, m: string, w: Worker, at: A.Remote, omni: A.OmniState,
                                           end: A.Remote, failure: Option<A.StoreError>, s': State)
    requires Inv(s) && m in s.workers && w.pc.Release? && s.workers[m] == Settling(w)
    requires A.Released(omni, at, w.work, end, failure)
    requires Plays(s, m, at.store, None, Events([], omni, at.clock, end.clock), s')
    ensures Inv(s') && m in s'.workers && Ending(s'.workers[m]) == Releasing(w, failure)
    ensures at.clock < end.clock ==> EndedStore(s', m) == end.store
    ensures Answers(omni, at, end) ==> !s'.workers[m].pc.DestroyName?
  {
    hide Inv, Events, Plays, Advance, A.ApplyAll, OwnsAny, Owns, A.Destroyed;
    NoEvents(omni, end.clock);
    if w.work.reservationId != "" {
      DestroyIsPlayed(s, m, at, omni, w.work.reservationId, end, failure, s');
    } else if w.work.uuid != "" {
      SearchedReleaseIsPlayed(s, m, at, omni, end, failure, s');
    } else {
      NothingPlayed(s, m, at.store, None, s');
    }
  }

  lemma NothingPlayed(s: State, m: string, known: Store, lookup: Option<A.Request>, s': State)
    requires Plays(s, m, known, lookup, [], s')
    ensures s' == s
  {
  }

  /** A machine that holds no id destroys the reservation of its UUID, if there is one. */
  lemma {:induction false} SearchedReleaseIsPlayed(s: State, m: string, at: A.Remote, omni: A.OmniState, end: A.Remote,
                                                   failure: Option<A.StoreError>, s': State)
    requires Inv(s) && m in s.workers && s.workers[m].pc.Release? && Searches(s.workers[m].work)
    requires A.Released(omni, at, s.workers[m].work, end, failure)
    requires Plays(s, m, at.store, None, Events([], omni, at.clock, end.clock), s')
    ensures Inv(s') && m in s'.workers && Ending(s'.workers[m]) == Releasing(s.workers[m], failure)
    ensures EndedStore(s', m) == end.store && (Answers(omni, at, end) ==> !s'.workers[m].pc.DestroyName?)
  {
    hide Inv, Events, Plays, Advance, A.ApplyAll, OwnsAny, StoreSound, Cleared, NextOrdinal, NormalizedPrefix, A.Effect;
    var w := s.workers[m];
    var met, next := FirstStore(s, m, at.store, None, omni, at.clock, end.clock, s');
    var seen := A.Read(omni, at);
    NoEvents(omni, end.clock);
    if !A.Serves(omni, at) {
      FailMoves(met, m, None, StoreEvent(omni.others(at.clock), omni.outcome(at.clock)));
      NothingPlayed(next, m, next.store, None, s');
    } else {
      SearchReleases(met, m, None, omni.others(at.clock));
      if OwnsAny(seen.store, w.work.uuid) {
        FoundReleaseIsPlayed(met, next, m, w, at, omni, end, failure, s');
      } else {
        NothingPlayed(next, m, next.store, None, s');
      }
    }
  }

  /** The destroy that follows the search. */
  lemma {:induction false} FoundReleaseIsPlayed(met: State, n: State, m: string, w: Worker, at: A.Remote,
                                                omni: A.OmniState, end: A.Remote, failure: Option<A.StoreError>,
                                                s': State)
    requires Inv(met) && m in met.workers && met.store == A.Met(omni, at) && A.Serves(omni, at)
    requires Searches(w.work) && OwnsAny(met.store, w.work.uuid)
    requires A.Released(omni, at, w.work, end, failure)
    requires Inv(n) && m in n.workers && n.store == met.store
    requires n.workers[m] == w.(pc := DestroyName(Owner(met.store, w.work.uuid)))
    requires Plays(n, m, n.store, None, Events([], omni, at.clock + 1, end.clock), s')
    ensures Inv(s') && m in s'.workers && Ending(s'.workers[m]) == Releasing(w, failure)
    ensures EndedStore(s', m) == end.store && (Answers(omni, at, end) ==> !s'.workers[m].pc.DestroyName?)
  {
    hide Inv, Events, Plays, A.ApplyAll, OwnsAny, StoreSound, Cleared, NextOrdinal, NormalizedPrefix;
    var seen := A.Read(omni, at);
    assert StoreSound(met.store, met.issued) by { InvOf(met, m); }
    var id :| && Owns(seen.store, id, w.work.uuid)
              && if id == "" then end == seen && failure == None else A.Destroyed(omni, seen, id, end, failure);
    OwnerIsTheOne(met.store, met.issued, id, w.work.uuid);
    assert id != "" by { StoredIsNamed(met.store, met.issued, id); }
    DestroyIsPlayed(n, m, seen, omni, id, end, failure, s');
  }

  lemma StoredIsNamed(store: Store, issued: map<string, string>, id: string)
    requires StoreSound(store, issued) && id in store
    ensures id != ""
  {
    StoredIdIsNotEmpty(store, id);
  }

  // ---------------------------------------------------------------- the deletion of a VM

  /** The first call of a play. */
  lemma {:induction false} FirstCall(s: State, m: string, known: Store, made: seq<D.Call>, omni: A.OmniState,
                                     from: nat, to: nat, s': State)
    returns (met: State, next: State)
    requires Inv(s) && m in s.workers && made != [] && Plays(s, m, known, None, Events(made, omni, from, to), s')
    ensures Inv(met) && m in met.workers && met.workers[m] == s.workers[m] && Fits(met, known, CloudEvent(made[0]))
    ensures next == Advance(met, m, None, CloudEvent(made[0])) && Inv(next) && m in next.workers
    ensures Plays(next, m, known, None, Events(made[1..], omni, from, to), s')
  {
    hide Inv, Advance, Plays, Fits;
    var events := Events(made, omni, from, to);
    assert events[1..] == Events(made[1..], omni, from, to);
    met, next := First(s, m, known, None, events, s');
  }

  /** What an action makes of its worker, which then settles. */
  lemma {:induction false} AdvancedWorker(met: State, m: string, known: Store, e: Event)
    requires Inv(met) && m in met.workers && Fits(met, known, e) && Move(met, m, None, e).Some?
    ensures var a, next := Move(met, m, None, e).value, Advance(met, m, None, e);
            && Enabled(met, a) && IsWorkerAction(a) && CanDo(met, met.workers[m], a)
            && m in next.workers && next.workers[m] == Settling(NewWorker(met, met.workers[m], a))
  {
    hide Inv, Move, NewStore, NewVms, NewIssued, NewWorker, CanDo, Settled, Fits;
    var a := Move(met, m, None, e).value;
    MoveIsAllowed(met, m, known, None, e);
    MoveIsWorkers(met, m, e);
    DoKeepsInv(met, a);
    SettledKeepsInv(Do(met, a), m);
  }

  lemma MoveIsWorkers(met: State, m: string, e: Event)
    requires m in met.workers && Move(met, m, None, e).Some?
    ensures IsWorkerAction(Move(met, m, None, e).value)
  {
    hide NormalizedPrefix, OwnsAny;
  }

  /** Where a look leaves a worker that is not refused. */
  function Looked(w: Worker, gone: bool): Worker {
    if gone then w.(pc := Release)
    else if w.pc.ObserveVM? then w.(pc := DeleteVM)
    else if w.pc.ConfirmVM? then w.(pc := ForceVM)
    else Back(w)
  }

  predicate IsLooking(pc: Pc) {
    pc.ObserveVM? || pc.ConfirmVM? || pc.ConfirmForced?
  }

  /** The answer decides as the state of the VM does. */
  lemma LookIsTrue(met: State, known: Store, vmId: int, call: D.Call)
    requires Fits(met, known, CloudEvent(call)) && D.IsLook(call, vmId) && !D.Refused(call.reply)
    ensures D.Verdict(call.reply, true) == Success(Stopped(met, vmId))
    ensures D.Verdict(call.reply, false) == Success(vmId !in met.vms || met.vms[vmId].state.Missing?)
  {
    hide D.NormalizeState, D.FailureOf, EqualFold, TrimSpace;
    D.GoneExactly(call.reply);
  }

  /** A look at the VM, at any of its three places. */
  lemma {:induction false} LookMoves(met: State, m: string, known: Store, call: D.Call, doneCounts: bool)
    requires Inv(met) && m in met.workers && Fits(met, known, CloudEvent(call))
    requires var w := met.workers[m];
             D.IsLook(call, w.work.vmId) && IsLooking(w.pc) && (doneCounts <==> !w.pc.ConfirmForced?)
    ensures var w, next := met.workers[m], Advance(met, m, None, CloudEvent(call));
            && m in next.workers
            && next.workers[m] == match D.Verdict(call.reply, doneCounts)
                                  case Success(gone) => Settling(Looked(w, gone))
                                  case Failure(_) => Back(w)
  {
    hide Inv, NormalizedPrefix, NextOrdinal, NewReservation, D.NormalizeState, D.FailureOf, Fits, Advance, Stopped,
         Cleared;
    AdvancedWorker(met, m, known, CloudEvent(call));
    if D.Refused(call.reply) {
      assert D.Verdict(call.reply, doneCounts).Failure?;
    } else {
      LookIsTrue(met, known, met.workers[m].work.vmId, call);
      assert doneCounts ==> D.Verdict(call.reply, doneCounts) == Success(Stopped(met, met.workers[m].work.vmId));
    }
  }

  /** A request for deletion. */
  lemma {:induction false} RequestMoves(met: State, m: string, known: Store, call: D.Call)
    requires Inv(met) && m in met.workers && Fits(met, known, CloudEvent(call))
    requires var pc := met.workers[m].pc; if pc.DeleteVM? then !call.GetVMCall?
             else pc.ForceVM? && call.ForceDeleteCall?
    ensures var w, next := met.workers[m], Advance(met, m, None, CloudEvent(call));
            && m in next.workers
            && next.workers[m] == if D.Refused(call.reply) then Back(w)
                                  else w.(pc := if w.pc.DeleteVM? then ConfirmVM else ConfirmForced)
  {
    hide Inv, NormalizedPrefix, NextOrdinal, NewReservation, D.Verdict, Fits, Advance, Stopped, Cleared;
    AdvancedWorker(met, m, known, CloudEvent(call));
  }

  /** The worker after a pass over its VM. */
  predicate IsPassed(w: Worker, w': Worker, r: Result<bool, D.PassResult>) {
    match r
    case Success(true) => w' == Settling(w.(pc := Release))
    case Success(false) => w' == Back(w) || w' == w.(pc := ForceVM)
    case Failure(_) => w' == Back(w)
  }

  lemma {:induction false} ConfirmIsPlayed(s: State, m: string, known: Store, made: seq<D.Call>,
                                           r: Result<bool, D.PassResult>, deleteHard: bool, omni: A.OmniState,
                                           from: nat, to: nat, s': State)
    returns (n: State)
    requires Inv(s) && m in s.workers && s.workers[m].pc.ConfirmVM?
    requires D.Confirmed(made, r, s.workers[m].work.vmId, deleteHard)
    requires Plays(s, m, known, None, Events(made, omni, from, to), s')
    ensures Inv(n) && m in n.workers && IsPassed(s.workers[m], n.workers[m], r)
    ensures Plays(n, m, known, None, Events([], omni, from, to), s')
  {
    hide Inv, Plays, Events, Fits, Advance, D.VmRequiresForceDelete, D.FailureOf, D.VmIsTerminallyDeleted, Cleared;
    var met, next := FirstCall(s, m, known, made, omni, from, to, s');
    LookMoves(met, m, known, made[0], true);
    n := next;
    if |made| == 1 {
      assert made[1..] == [];
    } else {
      assert made[1..][1..] == made[2..];
      var met', next' := FirstCall(next, m, known, made[1..], omni, from, to, s');
      RequestMoves(met', m, known, made[1]);
      n := next';
      if |made| == 2 {
        assert made[2..] == [];
      } else {
        assert made[2..][1..] == [];
        var met'', next'' := FirstCall(next', m, known, made[2..], omni, from, to, s');
        LookMoves(met'', m, known, made[2], false);
        n := next'';
      }
    }
  }

  lemma {:induction false} RequestIsPlayed(s: State, m: string, known: Store, made: seq<D.Call>,
                                           r: Result<bool, D.PassResult>, seen: D.Reply, deleteHard: bool,
                                           omni: A.OmniState, from: nat, to: nat, s': State)
    returns (n: State)
    requires Inv(s) && m in s.workers && s.workers[m].pc.DeleteVM?
    requires D.Requested(made, r, seen, s.workers[m].work.vmId, deleteHard)
    requires Plays(s, m, known, None, Events(made, omni, from, to), s')
    ensures Inv(n) && m in n.workers && IsPassed(s.workers[m], n.workers[m], r)
    ensures Plays(n, m, known, None, Events([], omni, from, to), s')
  {
    hide Inv, Plays, Events, Fits, Advance, D.VmRequiresForceDelete, D.FailureOf, D.Confirmed, Cleared;
    var met, next := FirstCall(s, m, known, made, omni, from, to, s');
    RequestMoves(met, m, known, made[0]);
    n := next;
    if D.Refused(made[0].reply) {
      assert made[1..] == [];
    } else {
      n := ConfirmIsPlayed(next, m, known, made[1..], r, deleteHard, omni, from, to, s');
    }
  }

  /** `ensureVMDeleted` is the part of the lifecycle from its first look at the VM to the release. */
  lemma {:induction false} PassIsPlayed(s: State, m: string, known: Store, made: seq<D.Call>,
                                        r: Result<bool, D.PassResult>, deleteHard: bool, omni: A.OmniState, from: nat,
                                        to: nat, s': State)
    returns (n: State)
    requires Inv(s) && m in s.workers && s.workers[m].pc.ObserveVM?
    requires D.IsPass(made, r, s.workers[m].work.vmId, deleteHard)
    requires Plays(s, m, known, None, Events(made, omni, from, to), s')
    ensures Inv(n) && m in n.workers && IsPassed(s.workers[m], n.workers[m], r)
    ensures Plays(n, m, known, None, Events([], omni, from, to), s')
  {
    hide Inv, Plays, Events, Fits, Advance, D.VmIsTerminallyDeleted, D.FailureOf, D.Requested, Cleared;
    var met, next := FirstCall(s, m, known, made, omni, from, to, s');
    LookMoves(met, m, known, made[0], true);
    n := next;
    if D.Verdict(made[0].reply, true) != Success(false) {
      assert made[1..] == [];
    } else {
      n := RequestIsPlayed(next, m, known, made[1..], r, made[0].reply, deleteHard, omni, from, to, s');
    }
  }

  // ---------------------------------------------------------------- a whole deprovisioning

  /** The state in which the first remote operation of a deprovisioning is due. */
  ghost function Deprovisioning(s: State, m: string): State {
    Settled(Do(s, BeginDeprovision(m)), m)
  }

  lemma DeprovisioningBegins(s: State, m: string)
    requires Inv(s) && Allowed(s, BeginDeprovision(m))
    ensures var begun, w := Deprovisioning(s, m), s.workers[m];
            && Inv(begun) && Reaches(s, begun) && m in begun.workers
            && w.saved == w.work
            && begun.workers[m] == if w.work.vmId == 0 then Settling(w.(pc := Release)) else w.(pc := ObserveVM)
  {
    hide Inv, Reaches, NormalizedPrefix, NextOrdinal, NewReservation, Settled, MachineSound;
    InvOf(s, m);
    DoKeepsInv(s, BeginDeprovision(m));
    var s1 := Do(s, BeginDeprovision(m));
    SettledKeepsInv(s1, m);
    ReachesThen(s, s1, Settled(s1, m));
  }

  /** The worker after a deprovisioning. */
  function Deprovisioned(w: Worker, r: D.PassResult): Worker {
    if r == D.Done then w.(work := Cleared(w.work), pc := Released) else w
  }

  /** What the contract of `DeprovisionMachine` says about its calls and its store operations. */
  ghost predicate IsDeprovisioning(omni: A.OmniState, at: A.Remote, was: Machine, made: seq<D.Call>,
                                   deleted: Result<bool, D.PassResult>, deleteHard: bool, end: A.Remote, now: Machine,
                                   r: D.PassResult)
  {
    && (if was.vmId == 0 then made == [] && deleted == Success(true) else D.IsPass(made, deleted, was.vmId, deleteHard))
    && D.Deprovisioned(omni, at, was, deleted, end, now, r)
  }

  /** From the first remote operation on. */
  lemma {:induction false} DeprovisioningIsPlayed(s: State, w: Worker, m: string, at: A.Remote, omni: A.OmniState,
                                                  made: seq<D.Call>, deleted: Result<bool, D.PassResult>,
                                                  deleteHard: bool, end: A.Remote, now: Machine, r: D.PassResult,
                                                  s': State)
    requires Inv(s) && m in s.workers && w.pc.Idle? && w.saved == w.work
    requires s.workers[m] == if w.work.vmId == 0 then Settling(w.(pc := Release)) else w.(pc := ObserveVM)
    requires IsDeprovisioning(omni, at, w.work, made, deleted, deleteHard, end, now, r)
    requires Plays(s, m, at.store, None, Events(made, omni, at.clock, end.clock), s')
    ensures Inv(s') && m in s'.workers && Ending(s'.workers[m]) == Deprovisioned(w, r) &&
            Deprovisioned(w, r).work == now
    ensures at.clock < end.clock ==> EndedStore(s', m) == end.store
    ensures Answers(omni, at, end) ==> !s'.workers[m].pc.DestroyName?
  {
    hide Inv, Plays, Events, D.IsPass, A.Released, Cleared;
    var n := s;
    if w.work.vmId != 0 {
      PassMeans(omni, at, w.work, made, deleted, deleteHard, end, now, r);
      n := PassIsPlayed(s, m, at.store, made, deleted, deleteHard, omni, at.clock, end.clock, s');
    }
    if deleted == Success(true) {
      var failure :| && A.Released(omni, at, w.work, end, failure)
                     && r == (if failure == None then D.Done else D.RetryLater)
                     && now == (if failure == None then Cleared(w.work) else w.work);
      ReleaseIsPlayed(n, m, w.(pc := Release), at, omni, end, failure, s');
    } else {
      NoEvents(omni, end.clock);
      NothingPlayed(n, m, at.store, None, s');
    }
  }

  lemma PassMeans(omni: A.OmniState, at: A.Remote, was: Machine, made: seq<D.Call>, deleted: Result<bool, D.PassResult>,
                  deleteHard: bool, end: A.Remote, now: Machine, r: D.PassResult)
    requires IsDeprovisioning(omni, at, was, made, deleted, deleteHard, end, now, r) && was.vmId != 0
    ensures deleted.Failure? ==> deleted.error != D.Done
  {
    hide D.IsPass;
    D.PassMeans(made, deleted, was.vmId, deleteHard);
  }

  /**
   A deprovisioning: if other machines' actions do to the store what `others` says, and the answers
   are true of the VM, then the machine's own actions lead to the store and the machine that
   `DeprovisionMachine` promises. They are allowed if the reply of the last operation is not lost;
   if it is, they are among the runs with losses that `LossyRunsAreSafe` is about.
   */
  lemma {:induction false} DeprovisioningIsSimulated(s: State, m: string, at: A.Remote, omni: A.OmniState,
                                                     made: seq<D.Call>, deleted: Result<bool, D.PassResult>,
                                                     deleteHard: bool, end: A.Remote, now: Machine, r: D.PassResult,
                                                     s': State)
    requires Inv(s) && Allowed(s, BeginDeprovision(m)) && m in s.workers
    requires IsDeprovisioning(omni, at, s.workers[m].work, made, deleted, deleteHard, end, now, r)
    requires Plays(Deprovisioning(s, m), m, at.store, None, Events(made, omni, at.clock, end.clock), s')
    ensures var s'' := Ended(s', m);
            && LossyReaches(s, s'') && (Answers(omni, at, end) ==> Reaches(s, s'') && Inv(s''))
            && m in s''.workers && s''.workers[m] == Deprovisioned(s.workers[m], r) && s''.workers[m].work == now
            && (at.clock < end.clock ==> s''.store == end.store)
  {
    hide Inv, Reaches, LossyReaches, Plays, Events, IsDeprovisioning, Deprovisioning, Ended, Step, Answers;
    DeprovisioningBegins(s, m);
    var begun, w := Deprovisioning(s, m), s.workers[m];
    PlaysAreRuns(begun, m, at.store, None, Events(made, omni, at.clock, end.clock), s');
    DeprovisioningIsPlayed(begun, w, m, at, omni, made, deleted, deleteHard, end, now, r, s');
    ReachesThen(s, begun, s');
    EndedMeans(s', m);
    ReachesOn(s, s', Ended(s', m));
    if Answers(omni, at, end) {
      ReachesThen(s, s', Ended(s', m));
    }
  }

  lemma ReachesOn(s: State, s': State, s'': State)
    requires Reaches(s, s') && LossyReaches(s', s'')
    ensures LossyReaches(s, s'')
  {
    hide Leads, LossyLeads;
    var run :| Leads(s, run, s');
    var run', lost :| LossyLeads(s', map[], run', s'', lost);
    AllowedRunsAreLossy(s, run, s');
    LossyThen(s, map[], run, s', map[], run', s'', lost);
  }
}
