/** Every turn keeps the lock table, the queues and the requests consistent. */
module MutexSafety {
  import opened Options
  import opened Ordering
  import opened TournamentMutex
  import opened MutexProtocol

  // ---------------------------------------------------------------- queues as sequences

  lemma {:induction false} KeepMembers(s: seq<Resolver>, out: set<Resolver>, x: Resolver)
    ensures x in Keep(s, out) <==> x in s && x !in out
  {
    if |s| > 0 {
      assert s == s[..|s| - 1] + [s[|s| - 1]];
      KeepMembers(s[..|s| - 1], out, x);
    }
  }

  lemma {:induction false} KeepDistinct(s: seq<Resolver>, out: set<Resolver>)
    requires Distinct(s)
    ensures Distinct(Keep(s, out))
  {
    if |s| > 0 {
      var front, last := s[..|s| - 1], s[|s| - 1];
      KeepDistinct(front, out);
      KeepMembers(front, out, last);
      assert last !in front;
    }
  }

  lemma {:induction false} WithoutConcat(a: seq<Resolver>, b: seq<Resolver>, x: Resolver)
    requires x !in a
    ensures Without(a + b, x) == a + Without(b, x)
  {
    if |a| == 0 {
      assert a + b == b;
    } else {
      assert (a + b)[0] == a[0] && (a + b)[1..] == a[1..] + b;
      WithoutConcat(a[1..], b, x);
    }
  }

  lemma {:induction false} WithoutMembers(s: seq<Resolver>, x: Resolver, y: Resolver)
    requires Distinct(s)
    ensures y in Without(s, x) <==> y in s && y != x
  {
    if |s| > 0 && s[0] != x {
      assert s == [s[0]] + s[1..];
      WithoutMembers(s[1..], x, y);
    } else if |s| > 0 {
      assert s == [s[0]] + s[1..];
      assert s[0] !in s[1..];
    }
  }

  lemma {:induction false} WithoutAbsent(s: seq<Resolver>, x: Resolver)
    requires x !in s
    ensures Without(s, x) == s
  {
    if |s| > 0 {
      WithoutAbsent(s[1..], x);
    }
  }

  /** One more expiry takes exactly that acquisition out. */
  lemma {:induction false} KeepLess(s: seq<Resolver>, out: set<Resolver>, x: Resolver)
    requires Distinct(s) && x !in out
    ensures Keep(s, out + {x}) == Without(Keep(s, out), x)
  {
    if |s| > 0 {
      var front, last := s[..|s| - 1], s[|s| - 1];
      KeepLess(front, out, x);
      KeepMembers(front, out, x);
      if last == x {
        assert x !in front;
        WithoutAbsent(Keep(front, out), x);
        WithoutConcat(Keep(front, out), [x], x);
      } else if x in Keep(front, out) {
        WithoutTail(Keep(front, out), [last], x);
      } else {
        WithoutAbsent(Keep(front, out), x);
        if last !in out {
          WithoutConcat(Keep(front, out), [last], x);
        }
      }
    }
  }

  lemma {:induction false} WithoutTail(a: seq<Resolver>, b: seq<Resolver>, x: Resolver)
    requires x in a
    ensures Without(a + b, x) == Without(a, x) + b
  {
    assert (a + b)[0] == a[0] && (a + b)[1..] == a[1..] + b;
    if a[0] != x {
      assert x in a[1..];
      WithoutTail(a[1..], b, x);
    }
  }

  /** The queue of a lock holds each acquisition once, and none that was granted. */
  lemma QueueDistinct(w: World, id: string)
    requires FifoOk(w, id) && ArrivalsOk(w, id)
    ensures Distinct(QueueOf(w.locks, id))
    ensures forall x :: x in QueueOf(w.locks, id) ==> x !in HistoryOf(w.granted, id) && x !in w.expired
  {
    var granted, queue := HistoryOf(w.granted, id), QueueOf(w.locks, id);
    var kept := Keep(HistoryOf(w.arrived, id), w.expired);
    KeepDistinct(HistoryOf(w.arrived, id), w.expired);
    assert kept == granted + queue;
    forall i, j | 0 <= i < j < |queue| ensures queue[i] != queue[j] {
      assert kept[|granted| + i] == queue[i] && kept[|granted| + j] == queue[j];
    }
    assert forall i :: 0 <= i < |granted| ==> kept[i] == granted[i];
    assert forall j :: 0 <= j < |queue| ==> kept[|granted| + j] == queue[j];
    forall x | x in queue ensures x !in granted && x !in w.expired {
      var j :| 0 <= j < |queue| && queue[j] == x;
      assert x in kept;
      KeepMembers(HistoryOf(w.arrived, id), w.expired, x);
    }
  }

  // ---------------------------------------------------------------- what several steps share

  /** Every acquisition asked for before is still asked for, by a request with the same list. */
  ghost predicate AskedStill(w: World, v: World) {
    forall x :: Asked(w, x) ==> Asked(v, x) && v.requests[x.request].ids == w.requests[x.request].ids
  }

  lemma ArrivalsStay(w: World, v: World, id: string)
    requires ArrivalsOk(w, id) && AskedStill(w, v) && HistoryOf(v.arrived, id) == HistoryOf(w.arrived, id)
    ensures ArrivalsOk(v, id)
  {
    forall x | x in HistoryOf(v.arrived, id) ensures Asked(v, x) && v.requests[x.request].ids[x.index] == id {
      assert Asked(w, x);
    }
  }

  /** A step that grants, queues and expires nothing keeps the histories. */
  lemma HistoriesStay(w: World, v: World)
    requires HistoriesOk(w) && AskedStill(w, v)
    requires v.arrived == w.arrived && v.granted == w.granted && v.expired == w.expired
    requires forall id :: QueueOf(v.locks, id) == QueueOf(w.locks, id)
    requires forall x :: ExpiredOk(w, x) ==> ExpiredOk(v, x)
    ensures HistoriesOk(v)
  {
    forall id ensures FifoOk(v, id) && ArrivalsOk(v, id) {
      assert FifoOk(w, id) && ArrivalsOk(w, id);
      ArrivalsStay(w, v, id);
    }
    forall x | x in v.expired ensures ExpiredOk(v, x) {
      assert ExpiredOk(w, x);
    }
  }

  /** The lock stays what it is when its holder does and whoever queues still queues for it. */
  lemma LockStays(w: World, v: World, k: string)
    requires k in w.locks && LockOk(w, k) && k in v.locks && v.locks[k].active
    requires forall m :: Holds(w, m, k) ==> Holds(v, m, k)
    requires forall x :: x in v.locks[k].queue ==> x in w.locks[k].queue
    requires forall x :: QueuesFor(w, x, k) && x in v.locks[k].queue ==> QueuesFor(v, x, k)
    ensures LockOk(v, k)
  {
    var m :| Holds(w, m, k);
    assert Holds(v, m, k);
  }

  // ---------------------------------------------------------------- acquiring

  predicate TakesFree(w: World, r: RequestId) {
    Enabled(w, TryAcquire(r)) && w.requests[r].ids[w.requests[r].acquired] !in w.locks
  }

  lemma GrantLocks(w: World, r: RequestId)
    requires LocksOk(w) && TakesFree(w, r)
    ensures LocksOk(TriedAcquire(w, r))
  {
    var v, id := TriedAcquire(w, r), w.requests[r].ids[w.requests[r].acquired];
    assert v.requests[r].holding == w.requests[r].holding + [id];
    assert Holds(v, r, id);
    forall k | k in v.locks ensures LockOk(v, k) {
      if k != id {
        LockStays(w, v, k);
      }
    }
  }

  lemma GrantHolders(w: World, r: RequestId)
    requires RequestsOk(w) && HoldersOk(w) && TakesFree(w, r)
    ensures HoldersOk(TriedAcquire(w, r))
  {
    var v, id := TriedAcquire(w, r), w.requests[r].ids[w.requests[r].acquired];
    forall a, b, k | Holds(v, a, k) && Holds(v, b, k) ensures a == b {
      assert (Holds(w, a, k) || (a == r && k == id)) && (Holds(w, b, k) || (b == r && k == id));
    }
  }

  lemma AcquireGrants(w: World, r: RequestId)
    requires Inv(w) && TakesFree(w, r)
    ensures Inv(TriedAcquire(w, r))
  {
    GrantLocks(w, r);
    GrantHolders(w, r);
    AcquireHistory(w, r);
  }

  lemma JoinHistory(w: World, v: World, id: string, me: Resolver)
    requires FifoOk(w, id) && ArrivalsOk(w, id) && me !in w.expired && v.expired == w.expired
    requires !Asked(w, me) && Asked(v, me) && v.requests[me.request].ids[me.index] == id && AskedStill(w, v)
    requires HistoryOf(v.arrived, id) == HistoryOf(w.arrived, id) + [me]
    requires HistoryOf(v.granted, id) + QueueOf(v.locks, id) == HistoryOf(w.granted, id) + QueueOf(w.locks, id) + [me]
    ensures FifoOk(v, id) && ArrivalsOk(v, id)
  {
    assert me !in HistoryOf(w.arrived, id);
    assert HistoryOf(v.arrived, id)[..|HistoryOf(v.arrived, id)| - 1] == HistoryOf(w.arrived, id);
  }

  /** What an acquisition changes of its own lock's history, and of no other. */
  lemma AcquireJoins(w: World, r: RequestId, k: string)
    requires LocksOk(w) && Enabled(w, TryAcquire(r))
    ensures var v, id, me := TriedAcquire(w, r), w.requests[r].ids[w.requests[r].acquired], Resolver(r, w.requests[r].acquired);
            && HistoryOf(v.arrived, k) == HistoryOf(w.arrived, k) + (if k == id then [me] else [])
            && HistoryOf(v.granted, k) + QueueOf(v.locks, k)
               == HistoryOf(w.granted, k) + QueueOf(w.locks, k) + (if k == id then [me] else [])
            && (k != id ==> HistoryOf(v.granted, k) == HistoryOf(w.granted, k) && QueueOf(v.locks, k) == QueueOf(w.locks, k))
  {
    var id := w.requests[r].ids[w.requests[r].acquired];
    assert id in w.locks ==> LockOk(w, id);
  }

  lemma AcquireAsks(w: World, r: RequestId)
    requires Enabled(w, TryAcquire(r))
    ensures AskedStill(w, TriedAcquire(w, r)) && !Asked(w, Resolver(r, w.requests[r].acquired))
    ensures Asked(TriedAcquire(w, r), Resolver(r, w.requests[r].acquired))
    ensures TriedAcquire(w, r).requests[r].ids == w.requests[r].ids && TriedAcquire(w, r).expired == w.expired
    ensures forall x :: ExpiredOk(w, x) ==> ExpiredOk(TriedAcquire(w, r), x)
  {
  }

  /** An acquisition joins the history of its own lock and of no other. */
  lemma AcquireHistory(w: World, r: RequestId)
    requires LocksOk(w) && HistoriesOk(w) && Enabled(w, TryAcquire(r))
    ensures HistoriesOk(TriedAcquire(w, r))
  {
    var v := TriedAcquire(w, r);
    var id, me := w.requests[r].ids[w.requests[r].acquired], Resolver(r, w.requests[r].acquired);
    AcquireAsks(w, r);
    assert !ExpiredOk(w, me);
    forall k ensures FifoOk(v, k) && ArrivalsOk(v, k) {
      assert FifoOk(w, k) && ArrivalsOk(w, k);
      AcquireJoins(w, r, k);
      if k == id {
        JoinHistory(w, v, k, me);
      } else {
        ArrivalsStay(w, v, k);
      }
    }
    forall x | x in v.expired ensures ExpiredOk(v, x) {
      assert ExpiredOk(w, x);
    }
  }

  predicate JoinsQueue(w: World, r: RequestId) {
    Enabled(w, TryAcquire(r)) && w.requests[r].ids[w.requests[r].acquired] in w.locks
  }

  lemma QueueRequests(w: World, r: RequestId)
    requires RequestsOk(w) && LocksOk(w) && JoinsQueue(w, r)
    ensures RequestsOk(TriedAcquire(w, r))
  {
    forall n | n in TriedAcquire(w, r).requests ensures RequestOk(TriedAcquire(w, r), n) {
      assert RequestOk(w, n);
    }
  }

  lemma QueueLocks(w: World, r: RequestId)
    requires LocksOk(w) && JoinsQueue(w, r)
    ensures LocksOk(TriedAcquire(w, r))
  {
    var v, id := TriedAcquire(w, r), w.requests[r].ids[w.requests[r].acquired];
    forall k | k in v.locks ensures LockOk(v, k) {
      if k != id {
        LockStays(w, v, k);
      } else {
        assert LockOk(w, k);
        var n :| Holds(w, n, k);
        assert Holds(v, n, k);
        forall x | x in v.locks[k].queue ensures QueuesFor(v, x, k) {
          assert x in w.locks[k].queue ==> QueuesFor(w, x, k);
        }
      }
    }
  }

  lemma AcquireQueues(w: World, r: RequestId)
    requires Inv(w) && JoinsQueue(w, r)
    ensures Inv(TriedAcquire(w, r))
  {
    QueueRequests(w, r);
    QueueLocks(w, r);
    AcquireHistory(w, r);
    SameHolders(w, TriedAcquire(w, r));
  }

  lemma SameHolders(w: World, v: World)
    requires HoldersOk(w) && forall a, k :: Holds(v, a, k) ==> Holds(w, a, k)
    ensures HoldersOk(v)
  {
    forall a, b, k | Holds(v, a, k) && Holds(v, b, k) ensures a == b {
      assert Holds(w, a, k) && Holds(w, b, k);
    }
  }

  // ---------------------------------------------------------------- phases that touch no lock

  /** A request may move to a phase that claims no more than it has. */
  predicate MayMove(w: World, r: RequestId, phase: Phase) {
    && r in w.requests
    && match phase
       case Running => w.requests[r].phase.Acquiring? && w.requests[r].acquired == |w.requests[r].ids|
       case Releasing => w.requests[r].phase.Running? || w.requests[r].phase.Failing?
       case Finished => w.requests[r].phase.Releasing? && w.requests[r].holding == []
       case _ => false
  }

  lemma PhaseKeeps(w: World, r: RequestId, phase: Phase)
    requires Inv(w) && MayMove(w, r, phase)
    ensures Inv(WithPhase(w, r, phase))
  {
    var v := WithPhase(w, r, phase);
    forall k | k in v.locks ensures LockOk(v, k) {
      LockStays(w, v, k);
    }
    SameHolders(w, v);
    HistoriesStay(w, v);
  }

  lemma StartKeeps(w: World, r: RequestId, tournamentIds: seq<string>)
    requires Inv(w) && r !in w.requests
    ensures Inv(Next(w, Start(r, tournamentIds)))
  {
    var v := Next(w, Start(r, tournamentIds));
    forall n | n in v.requests ensures RequestOk(v, n) {
      if n != r {
        assert RequestOk(w, n);
      }
    }
    forall k | k in v.locks ensures LockOk(v, k) {
      LockStays(w, v, k);
    }
    SameHolders(w, v);
    HistoriesStay(w, v);
  }

  // ---------------------------------------------------------------- timing out

  /** A timeout takes out of its queue exactly its own acquisition, which was not granted. */
  lemma ExpireShape(w: World, r: RequestId)
    requires RequestsOk(w) && HistoriesOk(w) && Enabled(w, Expire(r))
    ensures var v, id, me := Expired(w, r), w.requests[r].ids[w.requests[r].acquired], Resolver(r, w.requests[r].acquired);
            && id in w.locks && v.locks == w.locks[id := w.locks[id].(queue := Without(w.locks[id].queue, me))]
            && (forall x :: x in v.locks[id].queue <==> x in w.locks[id].queue && x != me)
            && me !in HistoryOf(w.granted, id) && me !in w.expired
  {
    var id, me := w.requests[r].ids[w.requests[r].acquired], Resolver(r, w.requests[r].acquired);
    assert RequestOk(w, r);
    assert FifoOk(w, id) && ArrivalsOk(w, id);
    QueueDistinct(w, id);
    forall x ensures x in Without(w.locks[id].queue, me) <==> x in w.locks[id].queue && x != me {
      WithoutMembers(w.locks[id].queue, me, x);
    }
  }

  lemma ExpireRequests(w: World, r: RequestId)
    requires RequestsOk(w) && HistoriesOk(w) && Enabled(w, Expire(r))
    ensures RequestsOk(Expired(w, r))
  {
    var v := Expired(w, r);
    ExpireShape(w, r);
    forall n | n in v.requests ensures RequestOk(v, n) {
      assert RequestOk(w, n);
    }
  }

  lemma ExpireLocks(w: World, r: RequestId)
    requires RequestsOk(w) && LocksOk(w) && HistoriesOk(w) && Enabled(w, Expire(r))
    ensures LocksOk(Expired(w, r))
  {
    var v := Expired(w, r);
    ExpireShape(w, r);
    forall k | k in v.locks ensures LockOk(v, k) {
      assert LockOk(w, k);
      LockStays(w, v, k);
    }
  }

  lemma ExpireHistories(w: World, r: RequestId)
    requires RequestsOk(w) && HistoriesOk(w) && Enabled(w, Expire(r))
    ensures HistoriesOk(Expired(w, r))
  {
    var v := Expired(w, r);
    var id, me := w.requests[r].ids[w.requests[r].acquired], Resolver(r, w.requests[r].acquired);
    ExpireShape(w, r);
    forall k ensures FifoOk(v, k) && ArrivalsOk(v, k) {
      assert FifoOk(w, k) && ArrivalsOk(w, k);
      ExpireHistory(w, v, k, id, me);
      ArrivalsStay(w, v, k);
    }
    forall x | x in v.expired ensures ExpiredOk(v, x) {
      assert x != me ==> ExpiredOk(w, x);
    }
  }

  lemma ExpireKeeps(w: World, r: RequestId)
    requires Inv(w) && Enabled(w, Expire(r))
    ensures Inv(Expired(w, r))
  {
    ExpireRequests(w, r);
    ExpireLocks(w, r);
    ExpireHistories(w, r);
    SameHolders(w, Expired(w, r));
  }

  /** A timeout takes its acquisition out of the order of its own lock and disturbs no other. */
  lemma ExpireHistory(w: World, v: World, k: string, id: string, me: Resolver)
    requires FifoOk(w, k) && ArrivalsOk(w, k)
    requires v.arrived == w.arrived && v.granted == w.granted && v.expired == w.expired + {me} && me !in w.expired
    requires me.request in w.requests && me.index < |w.requests[me.request].ids| && w.requests[me.request].ids[me.index] == id
    requires k == id ==> me !in HistoryOf(w.granted, k) && QueueOf(v.locks, k) == Without(QueueOf(w.locks, k), me)
    requires k != id ==> QueueOf(v.locks, k) == QueueOf(w.locks, k)
    ensures FifoOk(v, k)
  {
    KeepLess(HistoryOf(w.arrived, k), w.expired, me);
    if k == id {
      WithoutConcat(HistoryOf(w.granted, k), QueueOf(w.locks, k), me);
    } else {
      KeepMembers(HistoryOf(w.arrived, k), w.expired, me);
      WithoutAbsent(Keep(HistoryOf(w.arrived, k), w.expired), me);
    }
  }
}
