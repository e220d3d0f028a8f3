/** Handing locks over, whole runs, and why nobody waits for ever on a cycle. */
module MutexRuns {
  import opened Options
  import opened Ordering
  import opened TournamentMutex
  import opened MutexProtocol
  import opened MutexSafety

  // ---------------------------------------------------------------- releasing

  /** What handing `id` from `r` to the first in its queue, `x`, changes. */
  predicate HandedOver(w: World, v: World, r: RequestId, id: string, x: Resolver) {
    && r in w.requests && x.request in w.requests && x.request != r && id in w.locks && |w.locks[id].queue| > 0
    && |w.requests[r].holding| > 0 && id == w.requests[r].holding[0] && x == w.locks[id].queue[0]
    && w.requests[r].phase.Releasing? && QueuesFor(w, x, id)
    && v.requests == w.requests[r := w.requests[r].(holding := w.requests[r].holding[1..])]
                               [x.request := Took(w.requests[x.request], id)]
    && v.locks == w.locks[id := w.locks[id].(queue := w.locks[id].queue[1..])]
    && v.granted == w.granted[id := HistoryOf(w.granted, id) + [x]] && v.arrived == w.arrived && v.expired == w.expired
  }

  predicate Releases(w: World, r: RequestId) {
    r in w.requests && w.requests[r].phase.Releasing? && |w.requests[r].holding| > 0
  }

  predicate HandsOver(w: World, r: RequestId) {
    Releases(w, r) && QueueOf(w.locks, w.requests[r].holding[0]) != []
  }

  lemma HandOverShape(w: World, r: RequestId)
    requires LocksOk(w) && HandsOver(w, r)
    ensures var id := w.requests[r].holding[0];
            id in w.locks && |w.locks[id].queue| > 0 && HandedOver(w, ReleasedOne(w, r), r, id, w.locks[id].queue[0])
  {
    var id := w.requests[r].holding[0];
    assert LockOk(w, id);
    assert QueuesFor(w, w.locks[id].queue[0], id);
  }

  /** Who holds what after the hand-over. */
  lemma HandOverHolds(w: World, v: World, r: RequestId, id: string, x: Resolver, m: RequestId, k: string)
    requires HandedOver(w, v, r, id, x) && RequestOk(w, r)
    ensures Holds(v, m, k) <==> (Holds(w, m, k) && !(m == r && k == id)) || (m == x.request && k == id)
  {
    assert w.requests[r].holding == [id] + w.requests[r].holding[1..];
    assert id !in w.requests[r].holding[1..];
  }

  lemma HandOverRequest(w: World, v: World, r: RequestId, id: string, x: Resolver, m: RequestId)
    requires HandedOver(w, v, r, id, x) && m in w.requests && RequestOk(w, m)
    requires x.request == m ==> !Holds(w, m, id)
    ensures RequestOk(v, m)
  {
    var q := w.requests[m];
    assert w.locks[id].queue == [x] + w.locks[id].queue[1..];
    if m == x.request {
      assert q.ids[..x.index + 1] == q.holding + [id];
    } else if q.phase.Waiting? {
      assert Resolver(m, q.acquired) != x;
    }
  }

  lemma HandOverLock(w: World, v: World, r: RequestId, id: string, x: Resolver, k: string)
    requires HandedOver(w, v, r, id, x) && RequestOk(w, r) && k in w.locks && LockOk(w, k)
    requires Distinct(w.locks[id].queue)
    ensures LockOk(v, k)
  {
    var m :| Holds(w, m, k);
    HandOverHolds(w, v, r, id, x, m, k);
    HandOverHolds(w, v, r, id, x, x.request, k);
    assert Holds(v, m, k) || Holds(v, x.request, k);
    forall y | y in v.locks[k].queue ensures QueuesFor(v, y, k) {
      assert w.locks[id].queue == [x] + w.locks[id].queue[1..];
      assert QueuesFor(w, y, k);
      assert y != x;
    }
  }

  lemma HandOverLocks(w: World, r: RequestId)
    requires RequestsOk(w) && LocksOk(w) && HistoriesOk(w) && HandsOver(w, r)
    ensures LocksOk(ReleasedOne(w, r))
  {
    var id, v := w.requests[r].holding[0], ReleasedOne(w, r);
    HandOverShape(w, r);
    assert RequestOk(w, r) && FifoOk(w, id) && ArrivalsOk(w, id);
    QueueDistinct(w, id);
    forall k | k in v.locks ensures LockOk(v, k) {
      assert LockOk(w, k);
      HandOverLock(w, v, r, id, w.locks[id].queue[0], k);
    }
  }

  lemma HandOverRequests(w: World, r: RequestId)
    requires RequestsOk(w) && LocksOk(w) && HoldersOk(w) && HandsOver(w, r)
    ensures RequestsOk(ReleasedOne(w, r))
  {
    var id, v := w.requests[r].holding[0], ReleasedOne(w, r);
    HandOverShape(w, r);
    assert Holds(w, r, id);
    forall m | m in v.requests ensures RequestOk(v, m) {
      assert RequestOk(w, m);
      HandOverRequest(w, v, r, id, w.locks[id].queue[0], m);
    }
  }

  lemma HandOverHolders(w: World, r: RequestId)
    requires RequestsOk(w) && LocksOk(w) && HoldersOk(w) && HandsOver(w, r)
    ensures HoldersOk(ReleasedOne(w, r))
  {
    var id, v := w.requests[r].holding[0], ReleasedOne(w, r);
    HandOverShape(w, r);
    assert RequestOk(w, r) && Holds(w, r, id);
    forall a, b, k | Holds(v, a, k) && Holds(v, b, k) ensures a == b {
      HandOverHolds(w, v, r, id, w.locks[id].queue[0], a, k);
      HandOverHolds(w, v, r, id, w.locks[id].queue[0], b, k);
    }
  }

  lemma HandOverHistories(w: World, r: RequestId)
    requires LocksOk(w) && HistoriesOk(w) && HandsOver(w, r)
    ensures HistoriesOk(ReleasedOne(w, r))
  {
    var v := ReleasedOne(w, r);
    HandOverShape(w, r);
    forall k ensures FifoOk(v, k) && ArrivalsOk(v, k) {
      assert FifoOk(w, k) && ArrivalsOk(w, k);
    }
    forall y | y in v.expired ensures ExpiredOk(v, y) {
      assert ExpiredOk(w, y);
    }
  }

  /** Handing a lock to the first in its queue. */
  lemma HandOverKeeps(w: World, r: RequestId)
    requires Inv(w) && HandsOver(w, r)
    ensures Inv(ReleasedOne(w, r))
  {
    HandOverRequests(w, r);
    HandOverLocks(w, r);
    HandOverHolders(w, r);
    HandOverHistories(w, r);
  }

  /** What dropping the lock `id`, which nobody queues for, changes. */
  predicate Dropped(w: World, v: World, r: RequestId, id: string) {
    && r in w.requests && |w.requests[r].holding| > 0 && id == w.requests[r].holding[0]
    && w.requests[r].phase.Releasing? && id in w.locks && w.locks[id].queue == []
    && v == w.(locks := w.locks - {id}, requests := w.requests[r := w.requests[r].(holding := w.requests[r].holding[1..])])
  }

  lemma DropHolds(w: World, v: World, r: RequestId, id: string, m: RequestId, k: string)
    requires Dropped(w, v, r, id) && RequestOk(w, r)
    ensures Holds(v, m, k) <==> Holds(w, m, k) && !(m == r && k == id)
  {
    assert w.requests[r].holding == [id] + w.requests[r].holding[1..];
    assert id !in w.requests[r].holding[1..];
  }

  lemma DropRequest(w: World, v: World, r: RequestId, id: string, m: RequestId)
    requires Dropped(w, v, r, id) && m in w.requests && RequestOk(w, m) && RequestOk(w, r)
    requires m != r ==> !Holds(w, m, id)
    ensures RequestOk(v, m)
  {
    if m == r {
      assert id !in w.requests[r].holding[1..];
    }
  }

  lemma DropLock(w: World, v: World, r: RequestId, id: string, k: string)
    requires Dropped(w, v, r, id) && RequestOk(w, r) && k in v.locks && LockOk(w, k)
    ensures LockOk(v, k)
  {
    forall m ensures Holds(w, m, k) ==> Holds(v, m, k) {
      DropHolds(w, v, r, id, m, k);
    }
    LockStays(w, v, k);
  }

  lemma DropRequests(w: World, v: World, r: RequestId, id: string)
    requires RequestsOk(w) && HoldersOk(w) && Dropped(w, v, r, id)
    ensures RequestsOk(v)
  {
    assert RequestOk(w, r) && Holds(w, r, id);
    forall m | m in v.requests ensures RequestOk(v, m) {
      assert RequestOk(w, m);
      DropRequest(w, v, r, id, m);
    }
  }

  /** Releasing a lock nobody queues for drops its entry. */
  lemma DropKeeps(w: World, r: RequestId)
    requires Inv(w) && Releases(w, r) && QueueOf(w.locks, w.requests[r].holding[0]) == []
    ensures Inv(ReleasedOne(w, r))
  {
    var id, v := w.requests[r].holding[0], ReleasedOne(w, r);
    assert RequestOk(w, r);
    assert Dropped(w, v, r, id);
    DropRequests(w, v, r, id);
    forall k | k in v.locks ensures LockOk(v, k) {
      DropLock(w, v, r, id, k);
    }
    forall a, k ensures Holds(v, a, k) ==> Holds(w, a, k) {
      DropHolds(w, v, r, id, a, k);
    }
    SameHolders(w, v);
    HistoriesStay(w, v);
  }

  /** `r` lets go of one id and is otherwise as it was; the other requests keep what they held. */
  predicate Shrinks(w: World, v: World, r: RequestId)
    requires r in w.requests
  {
    && r in v.requests && |w.requests[r].holding| > 0
    && v.requests[r] == w.requests[r].(holding := w.requests[r].holding[1..])
    && (forall n :: n in w.requests && n != r ==> n in v.requests && v.requests[n].ids == w.requests[n].ids
                                                  && w.requests[n].holding <= v.requests[n].holding)
    && v.requests.Keys == w.requests.Keys
  }

  lemma ReleaseOneKeeps(w: World, r: RequestId)
    requires Inv(w) && Releases(w, r)
    ensures Inv(ReleasedOne(w, r)) && Shrinks(w, ReleasedOne(w, r), r)
  {
    OneShrinks(w, r);
    if QueueOf(w.locks, w.requests[r].holding[0]) == [] {
      DropKeeps(w, r);
    } else {
      HandOverKeeps(w, r);
    }
  }

  lemma OneShrinks(w: World, r: RequestId)
    requires RequestsOk(w) && LocksOk(w) && Releases(w, r)
    ensures Shrinks(w, ReleasedOne(w, r), r)
  {
    var id, v := w.requests[r].holding[0], ReleasedOne(w, r);
    assert RequestOk(w, r) && LockOk(w, id);
    if QueueOf(w.locks, id) != [] {
      HandOverShape(w, r);
    } else {
      assert Dropped(w, v, r, id);
    }
  }

  lemma {:induction false} ReleaseEachKeeps(w: World, r: RequestId, n: nat)
    requires Inv(w) && r in w.requests && w.requests[r].phase.Releasing? && |w.requests[r].holding| == n
    ensures var v := ReleasedEach(w, r, n);
            Inv(v) && v.requests.Keys == w.requests.Keys && v.requests[r] == w.requests[r].(holding := [])
            && (forall m :: m in w.requests ==> v.requests[m].ids == w.requests[m].ids)
    decreases n
  {
    if n > 0 {
      ReleaseOneKeeps(w, r);
      ReleaseEachKeeps(ReleasedOne(w, r), r, n - 1);
    }
  }

  /** Its locks handed on or dropped, the request is over and holds nothing. */
  predicate Ended(w: World, v: World, r: RequestId) {
    && r in v.requests && v.requests[r].holding == [] && v.requests.Keys == w.requests.Keys
    && (forall m :: m in w.requests ==> v.requests[m].ids == w.requests[m].ids)
  }

  lemma ReleasedAllKeeps(w: World, r: RequestId, v: World)
    requires Inv(w) && MayMove(w, r, Releasing) && v == ReleasedEach(WithPhase(w, r, Releasing), r, |w.requests[r].holding|)
    ensures Inv(v) && Ended(w, v, r) && v.requests[r].phase.Releasing?
  {
    PhaseKeeps(w, r, Releasing);
    ReleaseEachKeeps(WithPhase(w, r, Releasing), r, |w.requests[r].holding|);
  }

  lemma FinishKeeps(w: World, r: RequestId)
    requires Inv(w) && MayMove(w, r, Releasing)
    ensures Inv(ReleasedAndFinished(w, r)) && Ended(w, ReleasedAndFinished(w, r), r)
  {
    var v := ReleasedEach(WithPhase(w, r, Releasing), r, |w.requests[r].holding|);
    ReleasedAllKeeps(w, r, v);
    PhaseKeeps(v, r, Finished);
  }

  // ---------------------------------------------------------------- runs

  lemma StepKeeps(w: World, s: Step)
    requires Inv(w) && Enabled(w, s)
    ensures Inv(Next(w, s))
  {
    match s
    case Start(r, tournamentIds) => StartKeeps(w, r, tournamentIds);
    case TryAcquire(r) =>
      if w.requests[r].ids[w.requests[r].acquired] in w.locks {
        AcquireQueues(w, r);
      } else {
        AcquireGrants(w, r);
      }
    case Enter(r) => PhaseKeeps(w, r, Running);
    case Finish(r) => FinishKeeps(w, r);
    case Expire(r) => ExpireKeeps(w, r);
    case Abort(r) => FinishKeeps(w, r);
  }

  ghost predicate ValidRun(w: World, steps: seq<Step>)
    decreases |steps|
  {
    |steps| == 0 || (Enabled(w, steps[0]) && ValidRun(Next(w, steps[0]), steps[1..]))
  }

  ghost function Run(w: World, steps: seq<Step>): World
    requires ValidRun(w, steps)
    decreases |steps|
  {
    if |steps| == 0 then w else Run(Next(w, steps[0]), steps[1..])
  }

  lemma {:induction false} RunKeeps(w: World, steps: seq<Step>)
    requires Inv(w) && ValidRun(w, steps)
    ensures Inv(Run(w, steps))
    decreases |steps|
  {
    if |steps| > 0 {
      StepKeeps(w, steps[0]);
      RunKeeps(Next(w, steps[0]), steps[1..]);
    }
  }

  /**
   Over every run: at most one request holds an id, a finished request holds nothing, the lock table has an entry for an
   id exactly when it is held, and each lock is granted in arrival order minus the acquisitions that timed out.
   */
  lemma MutualExclusion(w: World, steps: seq<Step>)
    requires Initial(w) && ValidRun(w, steps)
    ensures var v := Run(w, steps);
            && (forall a, b, id :: Holds(v, a, id) && Holds(v, b, id) ==> a == b)
            && (forall r :: r in v.requests && v.requests[r].phase.Finished? ==> v.requests[r].holding == [])
            && (forall r :: r in v.requests && v.requests[r].phase.Running? ==> v.requests[r].holding == v.requests[r].ids)
            && (forall id :: id in v.locks <==> exists r :: Holds(v, r, id))
            && (forall id :: Keep(HistoryOf(v.arrived, id), v.expired) == HistoryOf(v.granted, id) + QueueOf(v.locks, id))
  {
    RunKeeps(w, steps);
    var v := Run(w, steps);
    forall r | r in v.requests ensures RequestOk(v, r) {
    }
    forall id ensures id in v.locks <==> exists r :: Holds(v, r, id) {
      if id in v.locks {
        assert LockOk(v, id);
      }
    }
    forall id ensures Keep(HistoryOf(v.arrived, id), v.expired) == HistoryOf(v.granted, id) + QueueOf(v.locks, id) {
      assert FifoOk(v, id);
    }
  }

  // ---------------------------------------------------------------- deadlock freedom

  predicate Waits(w: World, r: RequestId) {
    r in w.requests && w.requests[r].phase.Waiting? && w.requests[r].acquired < |w.requests[r].ids|
  }

  function Awaited(w: World, r: RequestId): string
    requires Waits(w, r)
  {
    w.requests[r].ids[w.requests[r].acquired]
  }

  function Above(w: World, id: string): set<string> {
    set k | k in w.locks && Less(id, k)
  }

  /** Follow the holders: each waits for a later id than the one it holds, so the chase ends at one that does not wait. */
  lemma {:induction false} Chase(w: World, r: RequestId) returns (h: RequestId)
    requires Inv(w) && Waits(w, r)
    requires forall n :: n in w.requests ==> Distinct(w.requests[n].ids)
    ensures h in w.requests && w.requests[h].holding != [] && !w.requests[h].phase.Waiting? && !w.requests[h].phase.Finished?
    decreases Above(w, Awaited(w, r))
  {
    var id := Awaited(w, r);
    assert RequestOk(w, r);
    assert LockOk(w, id);
    h :| Holds(w, h, id);
    assert RequestOk(w, h);
    if w.requests[h].phase.Waiting? {
      var q := w.requests[h];
      var i :| 0 <= i < |q.holding| && q.holding[i] == id;
      assert q.ids[i] == id;
      StrictlyIncreasing(q.ids, i, q.acquired);
      var next := Awaited(w, h);
      assert next in w.locks && Less(id, next);
      LessIrreflexive(next);
      forall k | k in Above(w, next) ensures k in Above(w, id) {
        LessTransitive(id, next, k);
      }
      assert next in Above(w, id) && next !in Above(w, next);
      h := Chase(w, h);
    }
  }

  /** Every id list given to the lock is free of duplicates. */
  predicate DistinctLists(steps: seq<Step>) {
    forall i :: 0 <= i < |steps| && steps[i].Start? ==> Distinct(steps[i].tournamentIds)
  }

  lemma StepKeepsDistinct(w: World, s: Step)
    requires Inv(w) && Enabled(w, s) && (s.Start? ==> Distinct(s.tournamentIds))
    requires forall n :: n in w.requests ==> Distinct(w.requests[n].ids)
    ensures forall n :: n in Next(w, s).requests ==> Distinct(Next(w, s).requests[n].ids)
  {
    match s
    case Start(r, tournamentIds) => SortDistinct(tournamentIds);
    case Finish(r) => FinishKeeps(w, r);
    case Abort(r) => FinishKeeps(w, r);
    case _ =>
  }

  lemma {:induction false} RunKeepsDistinct(w: World, steps: seq<Step>)
    requires Inv(w) && ValidRun(w, steps) && DistinctLists(steps)
    requires forall n :: n in w.requests ==> Distinct(w.requests[n].ids)
    ensures forall n :: n in Run(w, steps).requests ==> Distinct(Run(w, steps).requests[n].ids)
    decreases |steps|
  {
    if |steps| > 0 {
      StepKeeps(w, steps[0]);
      StepKeepsDistinct(w, steps[0]);
      RunKeepsDistinct(Next(w, steps[0]), steps[1..]);
    }
  }

  lemma StepLeavesNoneReleasing(w: World, s: Step)
    requires Inv(w) && Enabled(w, s)
    requires forall n :: n in w.requests ==> !w.requests[n].phase.Releasing?
    ensures forall n :: n in Next(w, s).requests ==> !Next(w, s).requests[n].phase.Releasing?
  {
    if s.Finish? || s.Abort? {
      PhaseKeeps(w, s.r, Releasing);
      EachLeavesOthers(WithPhase(w, s.r, Releasing), s.r, |w.requests[s.r].holding|);
    }
  }

  predicate OthersNotReleasing(w: World, r: RequestId) {
    forall m :: m in w.requests && m != r ==> !w.requests[m].phase.Releasing?
  }

  lemma {:induction false} EachLeavesOthers(w: World, r: RequestId, n: nat)
    requires r in w.requests && |w.requests[r].holding| == n && OthersNotReleasing(w, r)
    ensures OthersNotReleasing(ReleasedEach(w, r, n), r)
    decreases n
  {
    if n > 0 {
      var v := ReleasedOne(w, r);
      assert OthersNotReleasing(v, r);
      if r in v.requests && |v.requests[r].holding| == n - 1 {
        EachLeavesOthers(v, r, n - 1);
      }
    }
  }

  lemma {:induction false} RunLeavesNoneReleasing(w: World, steps: seq<Step>)
    requires Inv(w) && ValidRun(w, steps)
    requires forall n :: n in w.requests ==> !w.requests[n].phase.Releasing?
    ensures forall n :: n in Run(w, steps).requests ==> !Run(w, steps).requests[n].phase.Releasing?
    decreases |steps|
  {
    if |steps| > 0 {
      StepKeeps(w, steps[0]);
      StepLeavesNoneReleasing(w, steps[0]);
      RunLeavesNoneReleasing(Next(w, steps[0]), steps[1..]);
    }
  }

  // ---------------------------------------------------------------- duplicates

  /** In every run, a request in its body had no duplicate in its list: one that has waits behind itself. */
  lemma DuplicatesNeverEnter(w: World, steps: seq<Step>, r: RequestId)
    requires Initial(w) && ValidRun(w, steps)
    requires r in Run(w, steps).requests && !Distinct(Run(w, steps).requests[r].ids)
    ensures !Run(w, steps).requests[r].phase.Running?
  {
    RunKeeps(w, steps);
    assert RequestOk(Run(w, steps), r);
    var q := Run(w, steps).requests[r];
    assert q.ids[..|q.ids|] == q.ids;
  }

  /** The turns of one request that meets no other, up to its body. */
  function Solo(r: RequestId, n: nat): seq<Step> {
    if n == 0 then [Enter(r)] else [TryAcquire(r)] + Solo(r, n - 1)
  }

  /** What one turn of a request that finds no lock taken leaves of it. */
  predicate Alone(w: World, r: RequestId, n: nat) {
    && r in w.requests && w.requests[r].phase.Acquiring? && Distinct(w.requests[r].ids)
    && w.requests[r].acquired + n == |w.requests[r].ids|
    && w.requests[r].holding == w.requests[r].ids[..w.requests[r].acquired]
    && (forall id :: id in w.locks ==> id in w.requests[r].holding)
  }

  lemma RunCons(w: World, s: Step, rest: seq<Step>)
    requires Enabled(w, s) && ValidRun(Next(w, s), rest)
    ensures ValidRun(w, [s] + rest) && Run(w, [s] + rest) == Run(Next(w, s), rest)
  {
    assert ([s] + rest)[1..] == rest;
  }

  /** The run ends with the request in its body. */
  ghost predicate EndsRunning(w: World, r: RequestId, steps: seq<Step>) {
    ValidRun(w, steps) && r in Run(w, steps).requests && Run(w, steps).requests[r].phase.Running?
  }

  lemma EndsCons(w: World, r: RequestId, s: Step, rest: seq<Step>)
    requires Enabled(w, s) && EndsRunning(Next(w, s), r, rest)
    ensures EndsRunning(w, r, [s] + rest)
  {
    RunCons(w, s, rest);
  }

  lemma AloneEnters(w: World, r: RequestId)
    requires Alone(w, r, 0)
    ensures Enabled(w, Enter(r)) && EndsRunning(Next(w, Enter(r)), r, [])
  {
  }

  lemma SoloEnds(w: World, r: RequestId)
    requires Alone(w, r, 0)
    ensures EndsRunning(w, r, Solo(r, 0))
  {
    AloneEnters(w, r);
    EndsCons(w, r, Enter(r), []);
    assert [Enter(r)] + [] == Solo(r, 0);
  }

  lemma {:induction false} SoloEnters(w: World, r: RequestId, n: nat)
    requires Alone(w, r, n)
    ensures EndsRunning(w, r, Solo(r, n))
    decreases n
  {
    if n == 0 {
      SoloEnds(w, r);
    } else {
      SoloEnters(Next(w, TryAcquire(r)), r, n - 1);
      EndsCons(w, r, TryAcquire(r), Solo(r, n - 1));
    }
  }

  /** The turns of a request up to its body, with nobody else there and no timeout. */
  ghost predicate EntersBy(w: World, r: RequestId, tournamentIds: seq<string>, steps: seq<Step>) {
    && |steps| > 0 && steps[0] == Start(r, tournamentIds) && OnlyOne(steps, r) && EndsRunning(w, r, steps)
  }

  lemma StartedAlone(w: World, r: RequestId, tournamentIds: seq<string>)
    requires Initial(w) && Distinct(tournamentIds)
    ensures Enabled(w, Start(r, tournamentIds)) && Alone(Next(w, Start(r, tournamentIds)), r, |tournamentIds|)
  {
    SortDistinct(tournamentIds);
  }

  lemma DistinctEnters(w: World, r: RequestId, tournamentIds: seq<string>)
    requires Initial(w) && Distinct(tournamentIds)
    ensures EntersBy(w, r, tournamentIds, [Start(r, tournamentIds)] + Solo(r, |tournamentIds|))
  {
    var start, turns := Start(r, tournamentIds), Solo(r, |tournamentIds|);
    StartedAlone(w, r, tournamentIds);
    SoloEnters(Next(w, start), r, |tournamentIds|);
    EndsCons(w, r, start, turns);
    SoloOnly(r, |tournamentIds|);
  }

  lemma EnteredIsDistinct(w: World, r: RequestId, tournamentIds: seq<string>, steps: seq<Step>)
    requires Initial(w) && EntersBy(w, r, tournamentIds, steps)
    ensures Distinct(tournamentIds)
  {
    var started := Next(w, steps[0]);
    SortDistinct(tournamentIds);
    RunKeepsIds(started, steps[1..], r);
    if !Distinct(tournamentIds) {
      DuplicatesNeverEnter(w, steps, r);
    }
  }

  /** A request alone enters its body without a timeout exactly when its list has no duplicate. */
  lemma EntersAloneIffDistinct(w: World, r: RequestId, tournamentIds: seq<string>)
    requires Initial(w)
    ensures Distinct(tournamentIds) <==> exists steps :: EntersBy(w, r, tournamentIds, steps)
  {
    if Distinct(tournamentIds) {
      DistinctEnters(w, r, tournamentIds);
    }
    if steps :| EntersBy(w, r, tournamentIds, steps) {
      EnteredIsDistinct(w, r, tournamentIds, steps);
    }
  }

  predicate OnlyOne(steps: seq<Step>, r: RequestId) {
    forall i :: 0 <= i < |steps| ==> steps[i].r == r
  }

  lemma {:induction false} SoloOnly(r: RequestId, n: nat)
    ensures OnlyOne(Solo(r, n), r)
  {
    if n > 0 {
      SoloOnly(r, n - 1);
    }
  }

  predicate SameIds(w: World, v: World, r: RequestId) {
    r in w.requests ==> r in v.requests && v.requests[r].ids == w.requests[r].ids
  }

  lemma {:induction false} EachKeepsIds(w: World, r: RequestId, n: nat, m: RequestId)
    requires r in w.requests && |w.requests[r].holding| == n
    ensures SameIds(w, ReleasedEach(w, r, n), m)
    decreases n
  {
    if n > 0 {
      var v := ReleasedOne(w, r);
      assert SameIds(w, v, m);
      if r in v.requests && |v.requests[r].holding| == n - 1 {
        EachKeepsIds(v, r, n - 1, m);
      }
    }
  }

  lemma StepKeepsIds(w: World, s: Step, r: RequestId)
    requires Enabled(w, s)
    ensures SameIds(w, Next(w, s), r)
  {
    if s.Finish? || s.Abort? {
      EachKeepsIds(WithPhase(w, s.r, Releasing), s.r, |w.requests[s.r].holding|, r);
    }
  }

  lemma {:induction false} RunKeepsIds(w: World, steps: seq<Step>, r: RequestId)
    requires ValidRun(w, steps) && r in w.requests
    ensures SameIds(w, Run(w, steps), r)
    decreases |steps|
  {
    if |steps| > 0 {
      StepKeepsIds(w, steps[0], r);
      RunKeepsIds(Next(w, steps[0]), steps[1..], r);
    }
  }
}
