/**
 `withTournamentLock` as any number of requests run it: acquire the sorted ids one by one, run the body, release all.
 One step is one turn of the event loop; a timeout may fire at any turn while its request still queues.
 */
module MutexProtocol {
  import opened Options
  import opened Ordering
  import opened TournamentMutex

  datatype Phase = Acquiring | Waiting | Running | Failing | Releasing | Finished

  /** `ids` sorted; the first `acquired` of them were taken, of which `holding` are not yet released. */
  datatype Request = Request(ids: seq<string>, acquired: nat, holding: seq<string>, phase: Phase)

  /** `arrived` and `granted` are per-lock history, in order; `expired` the acquisitions that timed out. */
  datatype World = World(
    locks: LockTable,
    requests: map<RequestId, Request>,
    arrived: map<string, seq<Resolver>>,
    granted: map<string, seq<Resolver>>,
    expired: set<Resolver>)

  datatype Step =
    | Start(r: RequestId, tournamentIds: seq<string>)
    | TryAcquire(r: RequestId)
    | Enter(r: RequestId)
    | Finish(r: RequestId)
    | Expire(r: RequestId)
    | Abort(r: RequestId)

  predicate Initial(w: World) {
    w == World(map[], map[], map[], map[], {})
  }

  predicate Enabled(w: World, s: Step) {
    match s
    case Start(r, _) => r !in w.requests
    case TryAcquire(r) => r in w.requests && w.requests[r].phase.Acquiring? && w.requests[r].acquired < |w.requests[r].ids|
    case Enter(r) => r in w.requests && w.requests[r].phase.Acquiring? && w.requests[r].acquired == |w.requests[r].ids|
    case Finish(r) => r in w.requests && w.requests[r].phase.Running?
    case Expire(r) => r in w.requests && w.requests[r].phase.Waiting? && w.requests[r].acquired < |w.requests[r].ids|
    case Abort(r) => r in w.requests && w.requests[r].phase.Failing?
  }

  function HistoryOf(h: map<string, seq<Resolver>>, id: string): seq<Resolver> {
    if id in h then h[id] else []
  }

  function QueueOf(locks: LockTable, id: string): seq<Resolver> {
    if id in locks then locks[id].queue else []
  }

  function Took(q: Request, id: string): Request {
    q.(acquired := q.acquired + 1, holding := q.holding + [id], phase := Acquiring)
  }

  function TriedAcquire(w: World, r: RequestId): World
    requires Enabled(w, TryAcquire(r))
  {
    var q := w.requests[r];
    var id := q.ids[q.acquired];
    var me := Resolver(r, q.acquired);
    var (locks, resolved) := Acquired(w.locks, id, me);
    var asked := w.(locks := locks, arrived := w.arrived[id := HistoryOf(w.arrived, id) + [me]]);
    if resolved then
      asked.(requests := w.requests[r := Took(q, id)], granted := w.granted[id := HistoryOf(w.granted, id) + [me]])
    else asked.(requests := w.requests[r := q.(phase := Waiting)])
  }

  /** `release(id)` by request `r`, the first id it still holds. */
  function ReleasedOne(w: World, r: RequestId): World
    requires r in w.requests && |w.requests[r].holding| > 0
  {
    var q := w.requests[r];
    var id := q.holding[0];
    var (locks, next) := Released(w.locks, id);
    var requests := w.requests[r := q.(holding := q.holding[1..])];
    if next.Some? && next.value.request in requests then
      var n := next.value.request;
      w.(locks := locks, requests := requests[n := Took(requests[n], id)],
         granted := w.granted[id := HistoryOf(w.granted, id) + [next.value]])
    else w.(locks := locks, requests := requests)
  }

  function ReleasedEach(w: World, r: RequestId, n: nat): World
    requires r in w.requests && |w.requests[r].holding| == n
    decreases n
  {
    if n == 0 then w
    else
      var v := ReleasedOne(w, r);
      if r in v.requests && |v.requests[r].holding| == n - 1 then ReleasedEach(v, r, n - 1) else v
  }

  function WithPhase(w: World, r: RequestId, phase: Phase): World
    requires r in w.requests
  {
    w.(requests := w.requests[r := w.requests[r].(phase := phase)])
  }

  /** The release loop runs in one turn; the request is then over. */
  function ReleasedAndFinished(w: World, r: RequestId): World
    requires r in w.requests
  {
    var v := ReleasedEach(WithPhase(w, r, Releasing), r, |w.requests[r].holding|);
    if r in v.requests then WithPhase(v, r, Finished) else v
  }

  function Expired(w: World, r: RequestId): World
    requires Enabled(w, Expire(r))
  {
    var q := w.requests[r];
    var me := Resolver(r, q.acquired);
    WithPhase(w.(locks := TimedOut(w.locks, q.ids[q.acquired], me), expired := w.expired + {me}), r, Failing)
  }

  function Next(w: World, s: Step): World
    requires Enabled(w, s)
  {
    match s
    case Start(r, tournamentIds) => w.(requests := w.requests[r := Request(Sort(tournamentIds), 0, [], Acquiring)])
    case TryAcquire(r) => TriedAcquire(w, r)
    case Enter(r) => WithPhase(w, r, Running)
    case Finish(r) => ReleasedAndFinished(w, r)
    case Expire(r) => Expired(w, r)
    case Abort(r) => ReleasedAndFinished(w, r)
  }

  // ---------------------------------------------------------------- the invariant

  predicate Holds(w: World, r: RequestId, id: string) {
    r in w.requests && id in w.requests[r].holding
  }

  predicate RequestOk(w: World, r: RequestId)
    requires r in w.requests
  {
    var q := w.requests[r];
    && Sorted(q.ids) && q.acquired <= |q.ids| && Distinct(q.holding)
    && (q.phase.Acquiring? || q.phase.Waiting? || q.phase.Running? || q.phase.Failing? ==> q.holding == q.ids[..q.acquired])
    && (q.phase.Running? ==> q.acquired == |q.ids|)
    && (q.phase.Finished? ==> q.holding == [])
    && (forall id :: id in q.holding ==> id in w.locks)
    && (q.phase.Waiting? ==> q.acquired < |q.ids| && Resolver(r, q.acquired) in QueueOf(w.locks, q.ids[q.acquired]))
  }

  /** An entry means the lock is held, and whoever queues is a request waiting for exactly this lock. */
  ghost predicate LockOk(w: World, id: string)
    requires id in w.locks
  {
    && w.locks[id].active
    && (exists r :: Holds(w, r, id))
    && (forall x :: x in w.locks[id].queue ==> QueuesFor(w, x, id))
  }

  predicate QueuesFor(w: World, x: Resolver, id: string) {
    && x.request in w.requests
    && w.requests[x.request].phase.Waiting? && w.requests[x.request].acquired == x.index
    && x.index < |w.requests[x.request].ids| && w.requests[x.request].ids[x.index] == id
  }

  /** Everything that asked and did not time out was granted in that order, or is still queueing in that order. */
  predicate FifoOk(w: World, id: string) {
    Keep(HistoryOf(w.arrived, id), w.expired) == HistoryOf(w.granted, id) + QueueOf(w.locks, id)
  }

  function Keep(s: seq<Resolver>, out: set<Resolver>): seq<Resolver> {
    if |s| == 0 then []
    else
      var rest := Keep(s[..|s| - 1], out);
      if s[|s| - 1] in out then rest else rest + [s[|s| - 1]]
  }

  /** Acquisitions so far; later ones are new, so history never repeats one. */
  ghost predicate ArrivalsOk(w: World, id: string) {
    && Distinct(HistoryOf(w.arrived, id))
    && (forall x :: x in HistoryOf(w.arrived, id) ==> Asked(w, x) && w.requests[x.request].ids[x.index] == id)
  }

  predicate ExpiredOk(w: World, x: Resolver) {
    Asked(w, x) && (w.requests[x.request].phase.Failing? || w.requests[x.request].phase.Releasing? || w.requests[x.request].phase.Finished?)
  }

  predicate Asked(w: World, x: Resolver) {
    x.request in w.requests && x.index < |w.requests[x.request].ids| &&
    (x.index < w.requests[x.request].acquired
     || (x.index == w.requests[x.request].acquired && !w.requests[x.request].phase.Acquiring?))
  }

  predicate RequestsOk(w: World) {
    forall r :: r in w.requests ==> RequestOk(w, r)
  }

  ghost predicate LocksOk(w: World) {
    forall id :: id in w.locks ==> LockOk(w, id)
  }

  /** At most one request holds an id. */
  ghost predicate HoldersOk(w: World) {
    forall a, b, id :: Holds(w, a, id) && Holds(w, b, id) ==> a == b
  }

  ghost predicate HistoriesOk(w: World) {
    (forall id :: FifoOk(w, id) && ArrivalsOk(w, id)) && (forall x :: x in w.expired ==> ExpiredOk(w, x))
  }

  ghost predicate Inv(w: World) {
    RequestsOk(w) && LocksOk(w) && HoldersOk(w) && HistoriesOk(w)
  }
}
