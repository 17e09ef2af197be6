/**
 Concurrent imports: any number of threads run the part of `Resolve` behind the first lookup, each
 atomic access to the lock table, to a mutex and to the image pool being one action
 (`internal/pkg/imagemanager/manager.go`).
 */
module ImportRuns {
  import opened ImageLock

  /** OpenNebula looks images up by name and datastore. */
  datatype Image = Image(name: string, datastore: string)

  datatype Pc = Waiting | Looking | Importing | Leaving | Stamping | Finished

  datatype Thread = Thread(image: Image, url: string, lock: nat, pc: Pc)

  /** `holder` maps a locked mutex to its thread; `created` counts the images made. */
  datatype State = State(
    now: int,
    table: Table,
    holder: map<nat, int>,
    threads: map<int, Thread>,
    created: map<Image, nat>)

  const START := State(0, Table(map[], map[], 0), map[], map[], map[])

  datatype Action =
    | Arrive(t: int, image: Image, url: string, time: int)
    | Lock(t: int)
    | Look(t: int, answered: bool)
    | Create(t: int, succeeds: bool)
    | Unlock(t: int)
    | Restamp(t: int, time: int)

  function LockKey(image: Image, url: string): string {
    image.name + "::" + url + "::" + image.datastore
  }

  /** A key has the parts of the image and its source, and changes with each of them. */
  lemma {:induction false} KeysTellApart(image: Image, url: string, image': Image, url': string)
    requires LockKey(image, url) == LockKey(image', url')
    ensures LockKey(image, url) == image.name + "::" + url + "::" + image.datastore
    ensures image == image' ==> url == url'
    ensures image.name == image'.name && url == url' ==> image == image'
    ensures image.datastore == image'.datastore && url == url' ==> image == image'
  {
    PartsOfKey(image, url);
    PartsOfKey(image', url');
  }

  lemma PartsOfKey(image: Image, url: string)
    ensures var key, n, u, d := LockKey(image, url), |image.name|, |url|, |image.datastore|;
            && |key| == n + u + d + 4
            && key[..n] == image.name && key[n + 2..n + 2 + u] == url && key[n + u + 4..] == image.datastore
  {
  }

  function KeyOf(thread: Thread): string {
    LockKey(thread.image, thread.url)
  }

  function Count(created: map<Image, nat>, image: Image): nat {
    if image in created then created[image] else 0
  }

  predicate Enabled(s: State, a: Action) {
    match a
    case Arrive(t, _, _, time) => t !in s.threads && time >= s.now
    case Lock(t) => t in s.threads && s.threads[t].pc.Waiting? && s.threads[t].lock !in s.holder
    case Look(t, _) => t in s.threads && s.threads[t].pc.Looking?
    case Create(t, _) => t in s.threads && s.threads[t].pc.Importing?
    case Unlock(t) => t in s.threads && s.threads[t].pc.Leaving?
    case Restamp(t, time) => t in s.threads && s.threads[t].pc.Stamping? && time >= s.now
  }

  function At(s: State, t: int, pc: Pc): map<int, Thread>
    requires t in s.threads
  {
    s.threads[t := s.threads[t].(pc := pc)]
  }

  /** A lookup in the lock that fails is taken for a missing image. */
  function Step(s: State, a: Action, staleAfter: int): State
    requires Enabled(s, a)
  {
    match a
    case Arrive(t, image, url, time) =>
      var key := LockKey(image, url);
      var table := LookedUp(s.table, key, time, staleAfter);
      s.(now := time, table := table, threads := s.threads[t := Thread(image, url, table.locks[key], Waiting)])
    case Lock(t) => s.(holder := s.holder[s.threads[t].lock := t], threads := At(s, t, Looking))
    case Look(t, answered) =>
      s.(threads := At(s, t, if answered && Count(s.created, s.threads[t].image) > 0 then Leaving else Importing))
    case Create(t, succeeds) =>
      var image := s.threads[t].image;
      s.(created := if succeeds then s.created[image := Count(s.created, image) + 1] else s.created,
         threads := At(s, t, Leaving))
    case Unlock(t) => s.(holder := s.holder - {s.threads[t].lock}, threads := At(s, t, Stamping))
    case Restamp(t, time) =>
      s.(now := time, table := s.table.(seenAt := s.table.seenAt[KeyOf(s.threads[t]) := time]),
         threads := At(s, t, Finished))
  }

  /** Between taking its mutex from the table and unlocking it. */
  predicate IsActive(thread: Thread) {
    !thread.pc.Stamping? && !thread.pc.Finished?
  }

  predicate InSection(thread: Thread) {
    thread.pc.Looking? || thread.pc.Importing? || thread.pc.Leaving?
  }

  /** No key in use has been seen longer ago than `staleAfter`. */
  ghost predicate KeysInUseAreFresh(s: State, time: int, staleAfter: int) {
    forall t :: t in s.threads && IsActive(s.threads[t]) && KeyOf(s.threads[t]) in s.table.seenAt ==>
      time - s.table.seenAt[KeyOf(s.threads[t])] <= staleAfter
  }

  /**
   The assumptions on runs: keys in use are fresh whenever the table is swept, lookups in the lock
   are answered, and `urlOf` gives the one source of each image.
   */
  ghost predicate Allowed(s: State, a: Action, staleAfter: int, urlOf: Image -> string) {
    && Enabled(s, a)
    && (a.Arrive? ==> KeysInUseAreFresh(s, a.time, staleAfter) && a.url == urlOf(a.image))
    && (a.Look? ==> a.answered)
  }

  ghost predicate Leads(s: State, run: seq<Action>, s': State, staleAfter: int, urlOf: Image -> string)
    decreases |run|
  {
    if run == [] then s == s'
    else Allowed(s, run[0], staleAfter, urlOf) && Leads(Step(s, run[0], staleAfter), run[1..], s', staleAfter, urlOf)
  }

  // ---------------------------------------------------------------- the invariant

  ghost predicate TableSound(table: Table) {
    && table.locks.Keys <= table.seenAt.Keys
    && (forall k :: k in table.locks ==> table.locks[k] < table.next)
    && (forall k, k' :: k in table.locks && k' in table.locks && table.locks[k] == table.locks[k'] ==> k == k')
  }

  ghost predicate ThreadSound(s: State, t: int, thread: Thread, urlOf: Image -> string) {
    && thread.url == urlOf(thread.image)
    && (IsActive(thread) ==> KeyOf(thread) in s.table.locks && s.table.locks[KeyOf(thread)] == thread.lock)
    && (InSection(thread) ==> thread.lock in s.holder && s.holder[thread.lock] == t)
    && (thread.pc.Importing? ==> Count(s.created, thread.image) == 0)
  }

  ghost predicate Inv(s: State, urlOf: Image -> string) {
    && TableSound(s.table)
    && (forall t :: t in s.threads ==> ThreadSound(s, t, s.threads[t], urlOf))
    && (forall image :: image in s.created ==> s.created[image] <= 1)
  }

  lemma LookedUpSound(table: Table, key: string, now: int, staleAfter: int)
    requires TableSound(table)
    ensures TableSound(LookedUp(table, key, now, staleAfter))
    ensures key in LookedUp(table, key, now, staleAfter).locks
    ensures forall k :: k in table.locks && !Stale(table.seenAt, k, now, staleAfter) ==>
      && k in LookedUp(table, key, now, staleAfter).locks
      && LookedUp(table, key, now, staleAfter).locks[k] == table.locks[k]
  {
    assert TableSound(Evicted(table, now, staleAfter));
  }

  /** Two threads in the section are at different mutexes, hence at different keys and images. */
  lemma SectionsDiffer(s: State, t: int, t': int, urlOf: Image -> string)
    requires Inv(s, urlOf) && t in s.threads && t' in s.threads && t != t'
    requires InSection(s.threads[t]) && InSection(s.threads[t'])
    ensures s.threads[t].lock != s.threads[t'].lock
    ensures KeyOf(s.threads[t]) != KeyOf(s.threads[t'])
    ensures s.threads[t].image != s.threads[t'].image
  {
    assert ThreadSound(s, t, s.threads[t], urlOf) && ThreadSound(s, t', s.threads[t'], urlOf);
  }

  lemma StepThreadSound(s: State, a: Action, staleAfter: int, urlOf: Image -> string, t: int)
    requires Inv(s, urlOf) && Allowed(s, a, staleAfter, urlOf) && t in Step(s, a, staleAfter).threads
    ensures ThreadSound(Step(s, a, staleAfter), t, Step(s, a, staleAfter).threads[t], urlOf)
  {
    hide LookedUp, LockKey;
    if a.Arrive? {
      LookedUpSound(s.table, LockKey(a.image, a.url), a.time, staleAfter);
    }
    if t in s.threads && t != a.t {
      assert ThreadSound(s, t, s.threads[t], urlOf);
      if (a.Create? || a.Unlock?) && InSection(s.threads[t]) {
        SectionsDiffer(s, t, a.t, urlOf);
      }
    }
  }

  lemma {:induction false} StepKeepsInv(s: State, a: Action, staleAfter: int, urlOf: Image -> string)
    requires Inv(s, urlOf) && Allowed(s, a, staleAfter, urlOf)
    ensures Inv(Step(s, a, staleAfter), urlOf)
  {
    forall t | t in Step(s, a, staleAfter).threads
      ensures ThreadSound(Step(s, a, staleAfter), t, Step(s, a, staleAfter).threads[t], urlOf)
    {
      StepThreadSound(s, a, staleAfter, urlOf, t);
    }
    hide LookedUp, LockKey;
    if a.Arrive? {
      LookedUpSound(s.table, LockKey(a.image, a.url), a.time, staleAfter);
    } else {
      assert ThreadSound(s, a.t, s.threads[a.t], urlOf);
    }
  }

  lemma {:induction false} RunKeepsInv(s: State, run: seq<Action>, s': State, staleAfter: int, urlOf: Image -> string)
    requires Inv(s, urlOf) && Leads(s, run, s', staleAfter, urlOf)
    ensures Inv(s', urlOf)
    decreases |run|
  {
    if run == [] {
    } else {
      StepKeepsInv(s, run[0], staleAfter, urlOf);
      RunKeepsInv(Step(s, run[0], staleAfter), run[1..], s', staleAfter, urlOf);
    }
  }

  /** As long as no key in use goes stale, a key has one thread in its section and an image one import. */
  lemma ImportsExclude(run: seq<Action>, s: State, staleAfter: int, urlOf: Image -> string)
    requires Leads(START, run, s, staleAfter, urlOf)
    ensures forall t, t' :: t in s.threads && t' in s.threads && KeyOf(s.threads[t]) == KeyOf(s.threads[t']) ==>
      && (InSection(s.threads[t]) && InSection(s.threads[t']) ==> t == t')
      && (IsActive(s.threads[t]) && IsActive(s.threads[t']) ==> s.threads[t].lock == s.threads[t'].lock)
    ensures forall image :: Count(s.created, image) <= 1
  {
    RunKeepsInv(START, run, s, staleAfter, urlOf);
    forall t, t' | t in s.threads && t' in s.threads && t != t' && InSection(s.threads[t]) && InSection(s.threads[t'])
      ensures KeyOf(s.threads[t]) != KeyOf(s.threads[t'])
    {
      SectionsDiffer(s, t, t', urlOf);
    }
    forall t | t in s.threads ensures ThreadSound(s, t, s.threads[t], urlOf) {
    }
  }

  // ---------------------------------------------------------------- where it ends

  /** A newcomer gets the mutex of a key in use exactly when that key was last seen at most `staleAfter` ago. */
  lemma SplitExactlyWhenStale(s: State, a: Action, staleAfter: int, urlOf: Image -> string, t: int)
    requires Inv(s, urlOf) && Enabled(s, a) && a.Arrive?
    requires t in s.threads && IsActive(s.threads[t]) && KeyOf(s.threads[t]) == LockKey(a.image, a.url)
    ensures KeyOf(s.threads[t]) in s.table.seenAt
    ensures Step(s, a, staleAfter).threads[a.t].lock == s.threads[t].lock
       <==> a.time - s.table.seenAt[KeyOf(s.threads[t])] <= staleAfter
  {
    assert ThreadSound(s, t, s.threads[t], urlOf);
  }

  /** `run` leads from `s` to `s'`, whatever the assumptions. */
  ghost predicate Possible(s: State, run: seq<Action>, s': State, staleAfter: int)
    decreases |run|
  {
    if run == [] then s == s'
    else Enabled(s, run[0]) && Possible(Step(s, run[0], staleAfter), run[1..], s', staleAfter)
  }

  lemma PossibleFirst(s: State, run: seq<Action>, s': State, staleAfter: int)
    requires run != [] && Enabled(s, run[0]) && Possible(Step(s, run[0], staleAfter), run[1..], s', staleAfter)
    ensures Possible(s, run, s', staleAfter)
  {
  }

  lemma LeadsFirst(s: State, run: seq<Action>, s': State, staleAfter: int, urlOf: Image -> string)
    requires run != [] && Allowed(s, run[0], staleAfter, urlOf)
    requires Leads(Step(s, run[0], staleAfter), run[1..], s', staleAfter, urlOf)
    ensures Leads(s, run, s', staleAfter, urlOf)
  {
  }

  ghost function FirstImporting(image: Image, url: string): State {
    var key := LockKey(image, url);
    State(0, Table(map[key := 0], map[key := 0], 1), map[0 := 1], map[1 := Thread(image, url, 0, Importing)], map[])
  }

  lemma ReachesFirstImporting(image: Image, staleAfter: int, urlOf: Image -> string)
    ensures Leads(START, [Arrive(1, image, urlOf(image), 0), Lock(1), Look(1, true)],
                  FirstImporting(image, urlOf(image)), staleAfter, urlOf)
  {
    hide LockKey, Leads;
    var url := urlOf(image);
    var arrive := Arrive(1, image, url, 0);
    var s1 := Step(START, arrive, staleAfter);
    var key := LockKey(image, url);
    assert s1 == State(0, Table(map[key := 0], map[key := 0], 1), map[], map[1 := Thread(image, url, 0, Waiting)],
                       map[]) by {
      assert Evicted(START.table, 0, staleAfter) == START.table;
    }
    var s2 := Step(s1, Lock(1), staleAfter);
    assert s2 == s1.(holder := map[0 := 1], threads := map[1 := Thread(image, url, 0, Looking)]);
    var s3 := Step(s2, Look(1, true), staleAfter);
    assert s3 == FirstImporting(image, url);
    assert Leads(s3, [], s3, staleAfter, urlOf) by { LeadsNothing(s3, staleAfter, urlOf); }
    assert [Look(1, true)][1..] == [] && [Lock(1), Look(1, true)][1..] == [Look(1, true)];
    assert [arrive, Lock(1), Look(1, true)][1..] == [Lock(1), Look(1, true)];
    LeadsFirst(s2, [Look(1, true)], s3, staleAfter, urlOf);
    LeadsFirst(s1, [Lock(1), Look(1, true)], s3, staleAfter, urlOf);
    LeadsFirst(START, [arrive, Lock(1), Look(1, true)], s3, staleAfter, urlOf);
  }

  lemma LeadsNothing(s: State, staleAfter: int, urlOf: Image -> string)
    ensures Leads(s, [], s, staleAfter, urlOf) && Possible(s, [], s, staleAfter)
  {
  }

  /** The second thread passes by the first with a mutex of its own. */
  ghost function BothImporting(image: Image, url: string, now: int): State {
    var key := LockKey(image, url);
    State(now, Table(map[key := 1], map[key := now], 2), map[0 := 1, 1 := 2],
          map[1 := Thread(image, url, 0, Importing), 2 := Thread(image, url, 1, Importing)], map[])
  }

  lemma SecondPasses(image: Image, url: string, staleAfter: nat)
    ensures Possible(FirstImporting(image, url), [Arrive(2, image, url, staleAfter + 1), Lock(2), Look(2, true)],
                     BothImporting(image, url, staleAfter + 1), staleAfter)
  {
    hide LockKey, Possible;
    var s, now := FirstImporting(image, url), staleAfter + 1;
    var arrive := Arrive(2, image, url, now);
    var key := LockKey(image, url);
    var s1 := Step(s, arrive, staleAfter);
    assert s1 == State(now, Table(map[key := 1], map[key := now], 2), map[0 := 1],
                       map[1 := Thread(image, url, 0, Importing), 2 := Thread(image, url, 1, Waiting)], map[]) by {
      assert Evicted(s.table, now, staleAfter) == Table(map[], map[], 1);
    }
    var s2 := Step(s1, Lock(2), staleAfter);
    var s3 := Step(s2, Look(2, true), staleAfter);
    assert s3 == BothImporting(image, url, now);
    LeadsNothing(s3, staleAfter, _ => url);
    assert [Look(2, true)][1..] == [] && [Lock(2), Look(2, true)][1..] == [Look(2, true)];
    assert [arrive, Lock(2), Look(2, true)][1..] == [Lock(2), Look(2, true)];
    PossibleFirst(s2, [Look(2, true)], s3, staleAfter);
    PossibleFirst(s1, [Lock(2), Look(2, true)], s3, staleAfter);
    PossibleFirst(s, [arrive, Lock(2), Look(2, true)], s3, staleAfter);
  }

  /**
   An import that outlasts `staleAfter`: a second thread passes by the first, finds nothing, and both
   create the image. Up to the second arrival the run is an allowed one.
   */
  lemma StaleKeyImportsTwice(image: Image, staleAfter: nat, urlOf: Image -> string)
    ensures var url := urlOf(image);
            var first, both := FirstImporting(image, url), BothImporting(image, url, staleAfter + 1);
            && Leads(START, [Arrive(1, image, url, 0), Lock(1), Look(1, true)], first, staleAfter, urlOf)
            && Possible(first, [Arrive(2, image, url, staleAfter + 1), Lock(2), Look(2, true)], both, staleAfter)
            && Enabled(both, Create(1, true))
            && var once := Step(both, Create(1, true), staleAfter);
               && Enabled(once, Create(2, true))
               && Count(Step(once, Create(2, true), staleAfter).created, image) == 2
  {
    ReachesFirstImporting(image, staleAfter, urlOf);
    SecondPasses(image, urlOf(image), staleAfter);
    hide Leads, Possible, LockKey;
  }

  /** A thread whose look in the lock fails imports an image that may be there already. */
  lemma UnansweredLookImportsTwice(s: State, t: int, staleAfter: int)
    requires t in s.threads && s.threads[t].pc.Looking? && Count(s.created, s.threads[t].image) == 1
    ensures Enabled(s, Look(t, false)) && Enabled(Step(s, Look(t, false), staleAfter), Create(t, true))
    ensures Count(Step(Step(s, Look(t, false), staleAfter), Create(t, true), staleAfter).created,
                  s.threads[t].image) == 2
  {
  }

  /** The first thread has imported and left, the second is in the lock and about to look. */
  ghost function SecondLooking(image: Image, url: string): State {
    var key := LockKey(image, url);
    State(0, Table(map[key := 0], map[key := 0], 1), map[0 := 2],
          map[1 := Thread(image, url, 0, Finished), 2 := Thread(image, url, 0, Looking)], map[image := 1])
  }

  /** An allowed run leads there, and from there the failing look to the second import. */
  lemma UnansweredLookIsReached(image: Image, staleAfter: nat, urlOf: Image -> string)
    ensures var url := urlOf(image);
            && Leads(FirstImporting(image, url),
                     [Create(1, true), Unlock(1), Restamp(1, 0), Arrive(2, image, url, 0), Lock(2)],
                     SecondLooking(image, url), staleAfter, urlOf)
            && Leads(START, [Arrive(1, image, url, 0), Lock(1), Look(1, true)], FirstImporting(image, url), staleAfter,
                     urlOf)
            && Enabled(SecondLooking(image, url), Look(2, false))
            && var looked := Step(SecondLooking(image, url), Look(2, false), staleAfter);
               && Enabled(looked, Create(2, true))
               && Count(Step(looked, Create(2, true), staleAfter).created, image) == 2
  {
    ReachesFirstImporting(image, staleAfter, urlOf);
    FirstLeavesSecondLooks(image, staleAfter, urlOf);
    UnansweredLookImportsTwice(SecondLooking(image, urlOf(image)), 2, staleAfter);
    hide Leads, LockKey;
  }

  ghost function FirstDone(image: Image, url: string): State {
    FirstImporting(image, url).(holder := map[], threads := map[1 := Thread(image, url, 0, Finished)],
                                created := map[image := 1])
  }

  lemma FirstLeaves(image: Image, url: string, staleAfter: nat)
    ensures var s := FirstImporting(image, url);
            && Enabled(s, Create(1, true))
            && var s1 := Step(s, Create(1, true), staleAfter);
               && Enabled(s1, Unlock(1))
               && var s2 := Step(s1, Unlock(1), staleAfter);
                  && Enabled(s2, Restamp(1, 0))
                  && Step(s2, Restamp(1, 0), staleAfter) == FirstDone(image, url)
  {
    hide LockKey;
    var s2 := Step(Step(FirstImporting(image, url), Create(1, true), staleAfter), Unlock(1), staleAfter);
    assert s2.holder == map[];
    var s3 := Step(s2, Restamp(1, 0), staleAfter);
    assert s3.table == s2.table;
  }

  lemma SecondArrives(image: Image, staleAfter: nat, urlOf: Image -> string)
    ensures var url := urlOf(image);
            Leads(FirstDone(image, url), [Arrive(2, image, url, 0), Lock(2)], SecondLooking(image, url), staleAfter,
                  urlOf)
  {
    hide LockKey, Leads;
    var url := urlOf(image);
    var arrive := Arrive(2, image, url, 0);
    var s := FirstDone(image, url);
    assert Evicted(s.table, 0, staleAfter) == s.table;
    var s1 := Step(s, arrive, staleAfter);
    var s2 := Step(s1, Lock(2), staleAfter);
    assert s2 == SecondLooking(image, url);
    LeadsNothing(s2, staleAfter, urlOf);
    assert [Lock(2)][1..] == [] && [arrive, Lock(2)][1..] == [Lock(2)];
    LeadsFirst(s1, [Lock(2)], s2, staleAfter, urlOf);
    LeadsFirst(s, [arrive, Lock(2)], s2, staleAfter, urlOf);
  }

  lemma FirstLeavesSecondLooks(image: Image, staleAfter: nat, urlOf: Image -> string)
    ensures var url := urlOf(image);
            Leads(FirstImporting(image, url), [Create(1, true), Unlock(1), Restamp(1, 0), Arrive(2, image, url, 0),
                                               Lock(2)],
                  SecondLooking(image, url), staleAfter, urlOf)
  {
    var url := urlOf(image);
    FirstLeaves(image, url, staleAfter);
    SecondArrives(image, staleAfter, urlOf);
    hide Leads, Step, FirstImporting, SecondLooking, FirstDone, LockKey;
    var s, end := FirstImporting(image, url), SecondLooking(image, url);
    var s1 := Step(s, Create(1, true), staleAfter);
    var s2 := Step(s1, Unlock(1), staleAfter);
    var last := [Arrive(2, image, url, 0), Lock(2)];
    assert ([Restamp(1, 0)] + last)[1..] == last;
    LeadsFirst(s2, [Restamp(1, 0)] + last, end, staleAfter, urlOf);
    assert ([Unlock(1), Restamp(1, 0)] + last)[1..] == [Restamp(1, 0)] + last;
    LeadsFirst(s1, [Unlock(1), Restamp(1, 0)] + last, end, staleAfter, urlOf);
    assert ([Create(1, true), Unlock(1), Restamp(1, 0)] + last)[1..] == [Unlock(1), Restamp(1, 0)] + last;
    LeadsFirst(s, [Create(1, true), Unlock(1), Restamp(1, 0)] + last, end, staleAfter, urlOf);
    assert [Create(1, true), Unlock(1), Restamp(1, 0)] + last
        == [Create(1, true), Unlock(1), Restamp(1, 0), Arrive(2, image, url, 0), Lock(2)];
  }
}
