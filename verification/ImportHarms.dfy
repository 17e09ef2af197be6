/**
 What lets an image be imported twice, exactly: a newcomer that passes by a thread which may still import
 the image, and a look that fails to see an image that is there. Keys may go stale and looks may fail
 as long as that comes to neither.
 */
module ImportHarms {
  import opened ImageLock
  import opened ImportRuns

  predicate MayImport(thread: Thread) {
    thread.pc.Waiting? || thread.pc.Looking? || thread.pc.Importing?
  }

  /** A newcomer gets another mutex than a thread that may still import the same image. */
  ghost predicate PassesBy(s: State, a: Action, staleAfter: int)
    requires Enabled(s, a)
  {
    && a.Arrive? && Count(s.created, a.image) == 0
    && exists t :: Blocks(s, t, a.image) && s.threads[t].lock != Step(s, a, staleAfter).threads[a.t].lock
  }

  predicate Blocks(s: State, t: int, image: Image) {
    t in s.threads && MayImport(s.threads[t]) && s.threads[t].image == image
  }

  predicate IsImporting(s: State, t: int) {
    t in s.threads && s.threads[t].pc.Importing?
  }

  /** A look fails although the image is there. */
  predicate Overlooks(s: State, a: Action) {
    a.Look? && a.t in s.threads && !a.answered && Count(s.created, s.threads[a.t].image) > 0
  }

  ghost predicate Harmful(s: State, a: Action, staleAfter: int)
    requires Enabled(s, a)
  {
    PassesBy(s, a, staleAfter) || Overlooks(s, a)
  }

  /** `run` leads from `s` to `s'` without harm. */
  ghost predicate Harmless(s: State, run: seq<Action>, s': State, staleAfter: int)
    decreases |run|
  {
    if run == [] then s == s'
    else
      && Enabled(s, run[0]) && !Harmful(s, run[0], staleAfter)
      && Harmless(Step(s, run[0], staleAfter), run[1..], s', staleAfter)
  }

  // ---------------------------------------------------------------- the invariant

  /** Mutexes are held by the threads in their sections, and by no others. */
  ghost predicate HoldersSound(s: State) {
    && (forall t :: t in s.threads && InSection(s.threads[t]) ==>
          s.threads[t].lock in s.holder && s.holder[s.threads[t].lock] == t)
    && (forall l :: l in s.holder ==> IsHolder(s, l, s.holder[l]))
  }

  predicate IsHolder(s: State, l: nat, t: int) {
    t in s.threads && s.threads[t].lock == l && InSection(s.threads[t])
  }

  /** Who may import a missing image shares one mutex, and nobody is about to import one that is there. */
  ghost predicate HarmInv(s: State) {
    && HoldersSound(s)
    && (forall t :: t in s.threads && s.threads[t].pc.Importing? ==> Count(s.created, s.threads[t].image) == 0)
    && (forall t, t', image :: Blocks(s, t, image) && Blocks(s, t', image) && Count(s.created, image) == 0 ==>
          s.threads[t].lock == s.threads[t'].lock)
    && (forall image :: image in s.created ==> s.created[image] <= 1)
  }

  lemma StepKeepsHolders(s: State, a: Action, staleAfter: int)
    requires HoldersSound(s) && Enabled(s, a)
    ensures HoldersSound(Step(s, a, staleAfter))
  {
    hide LookedUp, LockKey;
  }

  /** Of two threads about to import the same missing image one is the other. */
  lemma ImportsAlone(s: State, t: int, t': int)
    requires HarmInv(s) && IsImporting(s, t) && IsImporting(s, t') && s.threads[t].image == s.threads[t'].image
    ensures t == t'
  {
    assert Blocks(s, t, s.threads[t].image) && Blocks(s, t', s.threads[t].image);
  }

  lemma {:induction false} StepKeepsHarmInv(s: State, a: Action, staleAfter: int)
    requires HarmInv(s) && Enabled(s, a) && !Harmful(s, a, staleAfter)
    ensures HarmInv(Step(s, a, staleAfter))
  {
    hide LookedUp, LockKey, HoldersSound;
    var s' := Step(s, a, staleAfter);
    StepKeepsHolders(s, a, staleAfter);
    forall t | t in s'.threads && s'.threads[t].pc.Importing? ensures Count(s'.created, s'.threads[t].image) == 0 {
      if a.Create? && t != a.t && s.threads[t].image == s.threads[a.t].image {
        ImportsAlone(s, t, a.t);
      }
    }
    forall t, t', image | Blocks(s', t, image) && Blocks(s', t', image) && Count(s'.created, image) == 0
      ensures s'.threads[t].lock == s'.threads[t'].lock
    {
      SharesMutex(s, a, staleAfter, t, t', image);
    }
  }

  lemma {:induction false} SharesMutex(s: State, a: Action, staleAfter: int, t: int, t': int, image: Image)
    requires HarmInv(s) && Enabled(s, a) && !Harmful(s, a, staleAfter)
    requires var s' := Step(s, a, staleAfter);
             Blocks(s', t, image) && Blocks(s', t', image) && Count(s'.created, image) == 0
    ensures var s' := Step(s, a, staleAfter); s'.threads[t].lock == s'.threads[t'].lock
  {
    hide LookedUp, LockKey, HoldersSound;
    var s' := Step(s, a, staleAfter);
    assert t in s.threads ==> Blocks(s, t, image);
    assert t' in s.threads ==> Blocks(s, t', image);
  }

  lemma {:induction false} HarmlessKeepsInv(s: State, run: seq<Action>, s': State, staleAfter: int)
    requires HarmInv(s) && Harmless(s, run, s', staleAfter)
    ensures HarmInv(s')
    decreases |run|
  {
    hide HarmInv, Enabled, Step, Harmful;
    if run == [] {
    } else {
      StepKeepsHarmInv(s, run[0], staleAfter);
      HarmlessKeepsInv(Step(s, run[0], staleAfter), run[1..], s', staleAfter);
    }
  }

  /** Without harm every image is imported at most once, whatever goes stale and whichever looks fail. */
  lemma {:induction false} HarmlessImportsOnce(run: seq<Action>, s: State, staleAfter: int)
    requires Harmless(START, run, s, staleAfter)
    ensures forall image :: Count(s.created, image) <= 1
    ensures forall t, t' :: IsImporting(s, t) && IsImporting(s, t') && s.threads[t].image == s.threads[t'].image ==>
      t == t'
  {
    HarmlessKeepsInv(START, run, s, staleAfter);
    hide Harmless;
    forall t, t' | IsImporting(s, t) && IsImporting(s, t') && s.threads[t].image == s.threads[t'].image
      ensures t == t'
    {
      ImportsAlone(s, t, t');
    }
  }

  // ---------------------------------------------------------------- after a harm

  ghost predicate Continues(s: State, s': State, staleAfter: int) {
    exists run :: Harmless(s, run, s', staleAfter)
  }

  lemma ContinuesNot(s: State, staleAfter: int)
    ensures Continues(s, s, staleAfter)
  {
    assert Harmless(s, [], s, staleAfter);
  }

  predicate IsCalm(a: Action) {
    !a.Arrive? && (a.Look? ==> a.answered)
  }

  lemma ContinuesFirst(s: State, a: Action, s': State, staleAfter: int)
    requires Enabled(s, a) && IsCalm(a) && Continues(Step(s, a, staleAfter), s', staleAfter)
    ensures Continues(s, s', staleAfter)
  {
    hide Enabled, Step;
    var run :| Harmless(Step(s, a, staleAfter), run, s', staleAfter);
    assert ([a] + run)[0] == a && ([a] + run)[1..] == run;
    assert Harmless(s, [a] + run, s', staleAfter);
  }

  lemma {:induction false} HarmlessThen(s: State, run: seq<Action>, s': State, run': seq<Action>, s'': State,
                                        staleAfter: int)
    requires Harmless(s, run, s', staleAfter) && Harmless(s', run', s'', staleAfter)
    ensures Harmless(s, run + run', s'', staleAfter)
    decreases |run|
  {
    hide Enabled, Step, Harmful;
    if run == [] {
      assert run + run' == run';
    } else {
      HarmlessThen(Step(s, run[0], staleAfter), run[1..], s', run', s'', staleAfter);
      assert (run + run')[0] == run[0] && (run + run')[1..] == run[1..] + run';
    }
  }

  lemma ContinuesThen(s: State, s': State, s'': State, staleAfter: int)
    requires Continues(s, s', staleAfter) && Continues(s', s'', staleAfter)
    ensures Continues(s, s'', staleAfter)
  {
    hide Harmless;
    var run :| Harmless(s, run, s', staleAfter);
    var run' :| Harmless(s', run', s'', staleAfter);
    HarmlessThen(s, run, s', run', s'', staleAfter);
  }

  /** Nothing is imported between the two states, and of the threads only holders of `l` have moved. */
  ghost predicate OnlyHolderMoves(s: State, s': State, l: nat) {
    && s'.created == s.created && s'.threads.Keys == s.threads.Keys
    && (forall t :: t in s.threads && !IsHolder(s, l, t) ==> s'.threads[t] == s.threads[t])
    && (forall l' :: l' != l ==> (l' in s'.holder <==> l' in s.holder))
  }

  function Remaining(pc: Pc): nat {
    match pc
    case Leaving => 1
    case Importing => 2
    case _ => 3
  }

  /** The next step of a thread that leaves its section without an import. */
  function Retreat(s: State, t: int): Action
    requires t in s.threads
  {
    match s.threads[t].pc
    case Looking => Look(t, true)
    case Importing => Create(t, false)
    case _ => Unlock(t)
  }

  lemma RetreatsOn(s: State, l: nat, staleAfter: int)
    requires HoldersSound(s) && l in s.holder
    ensures IsHolder(s, l, s.holder[l]) && Enabled(s, Retreat(s, s.holder[l])) && IsCalm(Retreat(s, s.holder[l]))
    ensures var next := Step(s, Retreat(s, s.holder[l]), staleAfter);
            && OnlyHolderMoves(s, next, l)
            && (l in next.holder ==>
                  next.holder[l] == s.holder[l] && s.holder[l] in next.threads
                  && Remaining(next.threads[s.holder[l]].pc) < Remaining(s.threads[s.holder[l]].pc))
  {
    assert IsHolder(s, l, s.holder[l]);
  }

  lemma MovesOn(s: State, s': State, s'': State, l: nat)
    requires l in s.holder && IsHolder(s, l, s.holder[l]) && OnlyHolderMoves(s, s', l) && OnlyHolderMoves(s', s'', l)
    requires HoldersSound(s) && HoldersSound(s') && (l in s'.holder ==> s'.holder[l] == s.holder[l])
    ensures OnlyHolderMoves(s, s'', l)
  {
    assert forall t :: IsHolder(s', l, t) ==> s'.holder[l] == t;
  }

  /** Any mutex comes free without an import: its holder looks, fails to create and unlocks. */
  lemma {:induction false} ComesFree(s: State, l: nat, staleAfter: int) returns (s': State)
    requires HoldersSound(s)
    ensures HoldersSound(s') && Continues(s, s', staleAfter) && l !in s'.holder && OnlyHolderMoves(s, s', l)
    decreases if l in s.holder && s.holder[l] in s.threads then Remaining(s.threads[s.holder[l]].pc) else 0
  {
    hide Continues, HoldersSound, OnlyHolderMoves, Step, Enabled;
    if l !in s.holder {
      ContinuesNot(s, staleAfter);
      NobodyMoves(s, l);
      return s;
    }
    RetreatsOn(s, l, staleAfter);
    var a := Retreat(s, s.holder[l]);
    var next := Step(s, a, staleAfter);
    StepKeepsHolders(s, a, staleAfter);
    s' := ComesFree(next, l, staleAfter);
    ContinuesFirst(s, a, s', staleAfter);
    MovesOn(s, next, s', l);
  }

  lemma NobodyMoves(s: State, l: nat)
    ensures OnlyHolderMoves(s, s, l)
  {
  }

  /** A step to `s1` and on. */
  lemma ContinuesOn(s: State, s1: State, a: Action, s2: State, staleAfter: int)
    requires Continues(s, s1, staleAfter) && Enabled(s1, a) && IsCalm(a) && s2 == Step(s1, a, staleAfter)
    ensures Continues(s, s2, staleAfter)
  {
    hide Continues, Enabled, Step;
    ContinuesNot(s2, staleAfter);
    ContinuesFirst(s1, a, s2, staleAfter);
    ContinuesThen(s, s1, s2, staleAfter);
  }

  /** Nothing is imported, and threads at other mutexes stay where they are. */
  ghost predicate OthersWait(s: State, s': State, l: nat) {
    && s'.created == s.created
    && (forall t :: t in s.threads && s.threads[t].lock != l ==> t in s'.threads && s'.threads[t] == s.threads[t])
  }

  /** Who may import a missing image gets as far as that. */
  lemma {:induction false} GetsToImport(s: State, t: int, image: Image, staleAfter: int) returns (s': State)
    requires HoldersSound(s) && Blocks(s, t, image) && Count(s.created, image) == 0
    ensures HoldersSound(s') && Continues(s, s', staleAfter) && OthersWait(s, s', s.threads[t].lock)
    ensures t in s'.threads && s'.threads[t] == s.threads[t].(pc := Importing)
  {
    hide Continues;
    s' := s;
    ContinuesNot(s, staleAfter);
    if s'.threads[t].pc.Waiting? {
      s' := ComesFree(s, s.threads[t].lock, staleAfter);
      var locked := Step(s', Lock(t), staleAfter);
      StepKeepsHolders(s', Lock(t), staleAfter);
      ContinuesOn(s, s', Lock(t), locked, staleAfter);
      s' := locked;
    }
    if s'.threads[t].pc.Looking? {
      var looked := Step(s', Look(t, true), staleAfter);
      StepKeepsHolders(s', Look(t, true), staleAfter);
      ContinuesOn(s, s', Look(t, true), looked, staleAfter);
      s' := looked;
    }
  }

  /** Two threads with a mutex each both import the image. */
  lemma {:induction false} BothImport(s: State, t: int, t': int, image: Image, staleAfter: int) returns (s': State)
    requires HoldersSound(s) && Blocks(s, t, image) && Blocks(s, t', image) && Count(s.created, image) == 0
    requires s.threads[t].lock != s.threads[t'].lock
    ensures Continues(s, s', staleAfter) && Count(s'.created, image) == 2
  {
    hide Continues, HoldersSound;
    var s1 := GetsToImport(s, t, image, staleAfter);
    var s2 := GetsToImport(s1, t', image, staleAfter);
    ContinuesThen(s, s1, s2, staleAfter);
    var s3 := Step(s2, Create(t, true), staleAfter);
    ContinuesOn(s, s2, Create(t, true), s3, staleAfter);
    s' := Step(s3, Create(t', true), staleAfter);
    ContinuesOn(s, s3, Create(t', true), s', staleAfter);
  }

  /** A harm is followed by a second import of some image, without any further harm. */
  lemma {:induction false} HarmImportsTwice(s: State, a: Action, staleAfter: int) returns (image: Image, s': State)
    requires HarmInv(s) && Enabled(s, a) && Harmful(s, a, staleAfter)
    ensures Continues(Step(s, a, staleAfter), s', staleAfter) && Count(s'.created, image) == 2
  {
    hide Continues, LookedUp, LockKey, HoldersSound;
    var next := Step(s, a, staleAfter);
    if a.Look? {
      image := s.threads[a.t].image;
      s' := Step(next, Create(a.t, true), staleAfter);
      ContinuesNot(next, staleAfter);
      ContinuesOn(next, next, Create(a.t, true), s', staleAfter);
    } else {
      image := a.image;
      var t :| Blocks(s, t, image) && s.threads[t].lock != next.threads[a.t].lock;
      StepKeepsHolders(s, a, staleAfter);
      assert Blocks(next, t, image) && Blocks(next, a.t, image);
      s' := BothImport(next, a.t, t, image, staleAfter);
    }
  }

  /**
   The exact condition: in every state that harmless runs reach, an action lets some image be imported
   twice, with no further harm, exactly when it is one of the two harms.
   */
  lemma {:induction false} TwiceExactlyAfterHarm(run: seq<Action>, s: State, a: Action, staleAfter: int)
    requires Harmless(START, run, s, staleAfter) && Enabled(s, a)
    ensures (exists image, s' :: Continues(Step(s, a, staleAfter), s', staleAfter) && Count(s'.created, image) == 2)
       <==> Harmful(s, a, staleAfter)
  {
    HarmlessKeepsInv(START, run, s, staleAfter);
    hide Harmless, HarmInv, Harmful, Enabled, Step;
    if Harmful(s, a, staleAfter) {
      var image, s' := HarmImportsTwice(s, a, staleAfter);
    } else {
      StepKeepsHarmInv(s, a, staleAfter);
      forall image, s' | Continues(Step(s, a, staleAfter), s', staleAfter) ensures Count(s'.created, image) != 2 {
        ImportsOnceOn(Step(s, a, staleAfter), s', image, staleAfter);
      }
    }
  }

  lemma ImportsOnceOn(s: State, s': State, image: Image, staleAfter: int)
    requires HarmInv(s) && Continues(s, s', staleAfter)
    ensures Count(s'.created, image) <= 1
  {
    hide Harmless;
    var run :| Harmless(s, run, s', staleAfter);
    HarmlessKeepsInv(s, run, s', staleAfter);
  }

  /** The assumptions of `ImportRuns` rule out both harms. */
  lemma {:induction false} AllowedIsHarmless(s: State, a: Action, staleAfter: int, urlOf: Image -> string)
    requires Inv(s, urlOf) && Allowed(s, a, staleAfter, urlOf)
    ensures !Harmful(s, a, staleAfter)
  {
    hide LookedUp, LockKey, TableSound;
    if a.Arrive? {
      forall t | Blocks(s, t, a.image) ensures s.threads[t].lock == Step(s, a, staleAfter).threads[a.t].lock {
        assert ThreadSound(s, t, s.threads[t], urlOf);
        SplitExactlyWhenStale(s, a, staleAfter, urlOf, t);
      }
    }
  }
}
