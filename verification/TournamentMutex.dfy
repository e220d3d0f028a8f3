/** Per-tournament async mutex: the lock table and its FIFO queues. */
module TournamentMutex {
  import opened Options
  import opened Ordering

  type RequestId = nat

  /** The resolver a waiting acquisition queues; unique per acquisition, as the closure is. */
  datatype Resolver = Resolver(request: RequestId, index: nat)

  datatype LockEntry = LockEntry(queue: seq<Resolver>, active: bool)

  type LockTable = map<string, LockEntry>

  /** `acquire`: take a free lock at once, or queue. */
  function Acquired(locks: LockTable, id: string, resolver: Resolver): (LockTable, bool) {
    var entry := if id in locks then locks[id] else LockEntry([], false);
    if !entry.active then (locks[id := entry.(active := true)], true)
    else (locks[id := entry.(queue := entry.queue + [resolver])], false)
  }

  /** `release`: hand the lock to the first in the queue, or drop its entry. */
  function Released(locks: LockTable, id: string): (LockTable, Option<Resolver>) {
    if id !in locks then (locks, None)
    else if |locks[id].queue| > 0 then
      (locks[id := locks[id].(queue := locks[id].queue[1..])], Some(locks[id].queue[0]))
    else (locks - {id}, None)
  }

  function Without(queue: seq<Resolver>, resolver: Resolver): seq<Resolver> {
    if |queue| == 0 then []
    else if queue[0] == resolver then queue[1..]
    else [queue[0]] + Without(queue[1..], resolver)
  }

  /** A timer that fires while its resolver still queues takes it out. */
  function TimedOut(locks: LockTable, id: string, resolver: Resolver): LockTable {
    if id in locks then locks[id := locks[id].(queue := Without(locks[id].queue, resolver))] else locks
  }

  /** The first place of the resolver, the length when it is not there. */
  method IndexOf(queue: seq<Resolver>, resolver: Resolver) returns (idx: nat)
    ensures idx <= |queue| && resolver !in queue[..idx] && (idx < |queue| ==> queue[idx] == resolver)
  {
    idx := 0;
    while idx < |queue| && queue[idx] != resolver
      invariant idx <= |queue| && resolver !in queue[..idx]
    {
      idx := idx + 1;
    }
  }

  lemma {:induction false} WithoutAt(queue: seq<Resolver>, resolver: Resolver, idx: nat)
    requires idx <= |queue| && resolver !in queue[..idx] && (idx < |queue| ==> queue[idx] == resolver)
    ensures Without(queue, resolver) == if idx < |queue| then queue[..idx] + queue[idx + 1..] else queue
  {
    if idx > 0 {
      var rest := queue[1..];
      assert queue[0] in queue[..idx];
      assert forall i :: 0 <= i < idx - 1 ==> rest[i] in queue[..idx] by {
        assert forall i :: 0 <= i < idx - 1 ==> rest[i] == queue[..idx][i + 1];
      }
      WithoutAt(rest, resolver, idx - 1);
      assert queue == [queue[0]] + rest;
      if idx < |queue| {
        assert rest[idx - 1] == queue[idx] && rest[idx..] == queue[idx + 1..] && [queue[0]] + rest[..idx - 1] == queue[..idx];
      }
    }
  }

  class Mutex {
    var locks: LockTable

    constructor ()
      ensures locks == map[]
    {
      locks := map[];
    }

    method Acquire(id: string, resolver: Resolver) returns (resolved: bool)
      modifies this
      ensures (locks, resolved) == Acquired(old(locks), id, resolver)
    {
      if id !in locks {
        locks := locks[id := LockEntry([], false)];
      }
      var entry := locks[id];
      if !entry.active {
        locks := locks[id := entry.(active := true)];
        resolved := true;
      } else {
        locks := locks[id := entry.(queue := entry.queue + [resolver])];
        resolved := false;
      }
      assert locks == Acquired(old(locks), id, resolver).0;
    }

    method Release(id: string) returns (next: Option<Resolver>)
      modifies this
      ensures (locks, next) == Released(old(locks), id)
    {
      if id !in locks {
        return None;
      }
      var entry := locks[id];
      if |entry.queue| > 0 {
        next := Some(entry.queue[0]);
        locks := locks[id := entry.(queue := entry.queue[1..])];
      } else {
        next := None;
        locks := locks - {id};
      }
    }

    /** `indexOf` and `splice`. */
    method TimeOut(id: string, resolver: Resolver)
      modifies this
      ensures locks == TimedOut(old(locks), id, resolver)
    {
      if id !in locks {
        return;
      }
      var queue := locks[id].queue;
      var idx := IndexOf(queue, resolver);
      WithoutAt(queue, resolver, idx);
      if idx < |queue| {
        queue := queue[..idx] + queue[idx + 1..];
      }
      locks := locks[id := locks[id].(queue := queue)];
    }

    /** The release loop of `withTournamentLock`: one turn of the event loop, waking at most one waiter per id. */
    method ReleaseAll(ids: seq<string>) returns (woken: seq<Resolver>)
      modifies this
      ensures (locks, woken) == ReleasedAll(old(locks), ids)
    {
      woken := [];
      for i := 0 to |ids|
        invariant (locks, woken) == ReleasedAll(old(locks), ids[..i])
      {
        assert ids[..i + 1][..i] == ids[..i] && ids[..i + 1][i] == ids[i];
        var next := Release(ids[i]);
        if next.Some? {
          woken := woken + [next.value];
        }
      }
      assert ids[..|ids|] == ids;
    }
  }

  function ReleasedAll(locks: LockTable, ids: seq<string>): (LockTable, seq<Resolver>) {
    if |ids| == 0 then (locks, [])
    else
      var (before, woken) := ReleasedAll(locks, ids[..|ids| - 1]);
      var (after, next) := Released(before, ids[|ids| - 1]);
      (after, if next.Some? then woken + [next.value] else woken)
  }
}
