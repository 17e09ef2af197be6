/**
 The import lock of the image manager: a table with one mutex per key whose entries are evicted by
 age, around a second look for the image and its import (`internal/pkg/imagemanager/manager.go`).
 */
module ImageLock {
  import opened Wrappers

  // ---------------------------------------------------------------- the table

  /** `next` names the mutexes handed out so far; times are in any fixed unit. */
  datatype Table = Table(locks: map<string, nat>, seenAt: map<string, int>, next: nat)

  predicate Stale(seenAt: map<string, int>, key: string, now: int, staleAfter: int) {
    key in seenAt && now - seenAt[key] > staleAfter
  }

  function Evicted(table: Table, now: int, staleAfter: int): Table {
    table.(locks := map k | k in table.locks && !Stale(table.seenAt, k, now, staleAfter) :: table.locks[k],
           seenAt := map k | k in table.seenAt && !Stale(table.seenAt, k, now, staleAfter) :: table.seenAt[k])
  }

  /** The table after `key` has been looked up, or added with a new mutex. */
  function LookedUp(table: Table, key: string, now: int, staleAfter: int): Table {
    var kept := Evicted(table, now, staleAfter);
    if key in kept.locks then kept.(seenAt := kept.seenAt[key := now])
    else Table(kept.locks[key := kept.next], kept.seenAt[key := now], kept.next + 1)
  }

  /** A key that was last seen at most `staleAfter` ago keeps its mutex. */
  lemma YoungKeyKeepsMutex(table: Table, key: string, sought: string, now: int, staleAfter: int)
    requires key in table.locks && key in table.seenAt && now - table.seenAt[key] <= staleAfter
    ensures var after := LookedUp(table, sought, now, staleAfter);
            key in after.locks && after.locks[key] == table.locks[key]
  {
  }

  /** A key that was last seen longer ago loses it: who asks for it gets a new one, who asks for another drops it. */
  lemma OldKeyLosesMutex(table: Table, key: string, sought: string, now: int, staleAfter: int)
    requires key in table.seenAt && now - table.seenAt[key] > staleAfter
    ensures var after := LookedUp(table, sought, now, staleAfter);
            if key == sought then key in after.locks && after.locks[key] == table.next && after.next == table.next + 1
            else key !in after.locks && key !in after.seenAt
  {
  }

  class ImportLocks {
    var locks: map<string, nat>
    var lockSeenAt: map<string, int>
    var next: nat
    const enabled: bool
    const staleAfter: int

    constructor (enabled: bool, staleAfter: int)
      ensures this.enabled == enabled && this.staleAfter == staleAfter && View() == Table(map[], map[], 0)
    {
      this.enabled, this.staleAfter := enabled, staleAfter;
      locks, lockSeenAt, next := map[], map[], 0;
    }

    function View(): Table
      reads this
    {
      Table(locks, lockSeenAt, next)
    }

    /** The part of `acquireImportLock` up to the end of `lockMu`; a disabled lock hands out no mutex. */
    method Lookup(key: string, now: int) returns (lock: Option<nat>, waited: bool)
      modifies this
      ensures !enabled ==> lock == None && !waited && View() == old(View())
      ensures enabled ==>
        && View() == LookedUp(old(View()), key, now, staleAfter)
        && key in locks && lock == Some(locks[key])
        && (waited <==>
              key in old(locks) && (key in old(lockSeenAt) ==> now - old(lockSeenAt)[key] <= staleAfter))
        && (waited ==> lock == Some(old(locks[key])))
        && (!waited ==> lock == Some(old(next)))
        && lockSeenAt[key] == now
        && forall k :: k != key ==>
             (k in locks <==> k in old(locks) && (k in old(lockSeenAt) ==> now - old(lockSeenAt)[k] <= staleAfter))
             && (k in locks ==> locks[k] == old(locks)[k])
    {
      if !enabled {
        return None, false;
      }
      Evict(now);
      waited := key in locks;
      if waited {
        lock := Some(locks[key]);
      } else {
        lock := Some(next);
        locks := locks[key := next];
        next := next + 1;
      }
      lockSeenAt := lockSeenAt[key := now];
    }

    method Evict(now: int)
      modifies this
      ensures View() == Evicted(old(View()), now, staleAfter)
      ensures forall k ::
        (k in locks <==> k in old(locks) && (k in old(lockSeenAt) ==> now - old(lockSeenAt)[k] <= staleAfter))
        && (k in locks ==> locks[k] == old(locks)[k])
      ensures forall k ::
        (k in lockSeenAt <==> k in old(lockSeenAt) && now - old(lockSeenAt)[k] <= staleAfter)
        && (k in lockSeenAt ==> lockSeenAt[k] == old(lockSeenAt)[k])
    {
      var left := lockSeenAt.Keys;
      while left != {}
        invariant left <= old(lockSeenAt).Keys && next == old(next)
        invariant lockSeenAt.Keys <= old(lockSeenAt).Keys && locks.Keys <= old(locks).Keys
        invariant forall k :: k in lockSeenAt ==> lockSeenAt[k] == old(lockSeenAt)[k]
        invariant forall k :: k in locks ==> locks[k] == old(locks)[k]
        invariant forall k :: k in left && k in old(lockSeenAt) ==> k in lockSeenAt
        invariant forall k :: k in old(lockSeenAt) && k !in left ==>
          (k in lockSeenAt <==> !Stale(old(lockSeenAt), k, now, staleAfter))
        invariant forall k :: k in old(locks) ==>
          (k in locks <==> k in left || !Stale(old(lockSeenAt), k, now, staleAfter))
      {
        var seenKey :| seenKey in left;
        if now - lockSeenAt[seenKey] > staleAfter {
          lockSeenAt := lockSeenAt - {seenKey};
          locks := locks - {seenKey};
        }
        left := left - {seenKey};
      }
      assert lockSeenAt == Evicted(old(View()), now, staleAfter).seenAt;
      assert locks == Evicted(old(View()), now, staleAfter).locks;
    }

    /** The part of the unlock function behind the mutex's own unlock. */
    method Stamp(key: string, now: int)
      modifies this
      ensures View() == old(View()).(seenAt := old(lockSeenAt)[key := now])
    {
      lockSeenAt := lockSeenAt[key := now];
    }
  }
}
