/**
 Sorted acquisition of duplicate-free lists gets everybody in: no schedule of turns, with no timeout firing, ends before
 each request that asked for its locks has run its body.
 */
module MutexProgress {
  import opened Options
  import opened Ordering
  import opened TournamentMutex
  import opened MutexProtocol
  import opened MutexSafety
  import opened MutexRuns

  // ---------------------------------------------------------------- turns left

  /** The turns a request can still take before it is over. */
  function Left(q: Request): nat {
    var missing := if q.acquired <= |q.ids| then |q.ids| - q.acquired else 0;
    match q.phase
    case Acquiring => 2 * missing + 2
    case Waiting => 2 * missing + 1
    case Running => 1
    case Failing => 1
    case Releasing => 1
    case Finished => 0
  }

  ghost function AnyOf(keys: set<RequestId>): RequestId
    requires keys != {}
  {
    var n :| n in keys; n
  }

  ghost function Turns(requests: map<RequestId, Request>, keys: set<RequestId>): nat
    requires keys <= requests.Keys
  {
    if keys == {} then 0 else Left(requests[AnyOf(keys)]) + Turns(requests, keys - {AnyOf(keys)})
  }

  ghost function AllTurns(w: World): nat {
    Turns(w.requests, w.requests.Keys)
  }

  lemma {:induction false} FewerTurns(a: map<RequestId, Request>, b: map<RequestId, Request>, keys: set<RequestId>, r: RequestId)
    requires keys <= a.Keys && keys <= b.Keys && forall n :: n in keys ==> Left(b[n]) <= Left(a[n])
    ensures Turns(b, keys) <= Turns(a, keys)
    ensures r in keys && Left(b[r]) < Left(a[r]) ==> Turns(b, keys) < Turns(a, keys)
    decreases keys
  {
    if keys != {} {
      FewerTurns(a, b, keys - {AnyOf(keys)}, r);
    }
  }

  // ---------------------------------------------------------------- every turn is progress

  predicate Asking(q: Request) {
    q.phase.Acquiring? || q.phase.Waiting?
  }

  /** What a turn of somebody else leaves of a request. */
  predicate Onward(q: Request, u: Request) {
    Left(u) <= Left(q) && (Asking(q) ==> Asking(u))
  }

  predicate OthersOnward(w: World, v: World, r: RequestId) {
    v.requests.Keys == w.requests.Keys && forall n :: n in w.requests && n != r ==> Onward(w.requests[n], v.requests[n])
  }

  lemma ReleaseOneOnward(w: World, r: RequestId)
    requires RequestsOk(w) && LocksOk(w) && Releases(w, r)
    ensures OthersOnward(w, ReleasedOne(w, r), r)
  {
    OneShrinks(w, r);
    if QueueOf(w.locks, w.requests[r].holding[0]) != [] {
      HandOverShape(w, r);
    }
  }

  lemma ReleaseOneTurns(w: World, r: RequestId, n: nat)
    requires Inv(w) && Releases(w, r) && |w.requests[r].holding| == n
    ensures var v := ReleasedOne(w, r);
            && Inv(v) && r in v.requests && v.requests[r].phase.Releasing? && |v.requests[r].holding| == n - 1
            && OthersOnward(w, v, r) && ReleasedEach(w, r, n) == ReleasedEach(v, r, n - 1)
  {
    ReleaseOneOnward(w, r);
    ReleaseOneKeeps(w, r);
  }

  lemma {:induction false} ReleaseEachOnward(w: World, r: RequestId, n: nat)
    requires Inv(w) && r in w.requests && w.requests[r].phase.Releasing? && |w.requests[r].holding| == n
    ensures OthersOnward(w, ReleasedEach(w, r, n), r)
    decreases n
  {
    if n > 0 {
      var v := ReleasedOne(w, r);
      ReleaseOneTurns(w, r, n);
      ReleaseEachOnward(v, r, n - 1);
      OnwardTrans(w, v, ReleasedEach(v, r, n - 1), r);
    }
  }

  lemma OnwardTrans(u: World, v: World, w: World, r: RequestId)
    requires OthersOnward(u, v, r) && OthersOnward(v, w, r)
    ensures OthersOnward(u, w, r)
  {
    forall n | n in u.requests && n != r ensures Onward(u.requests[n], w.requests[n]) {
      assert Onward(u.requests[n], v.requests[n]) && Onward(v.requests[n], w.requests[n]);
    }
  }

  lemma PhaseOnward(w: World, r: RequestId, phase: Phase)
    requires r in w.requests
    ensures OthersOnward(w, WithPhase(w, r, phase), r)
  {
  }

  lemma FinishOnward(w: World, r: RequestId)
    requires Inv(w) && MayMove(w, r, Releasing)
    ensures var v := ReleasedAndFinished(w, r);
            OthersOnward(w, v, r) && r in v.requests && Left(v.requests[r]) == 0
  {
    var released := ReleasedEach(WithPhase(w, r, Releasing), r, |w.requests[r].holding|);
    PhaseKeeps(w, r, Releasing);
    ReleaseEachOnward(WithPhase(w, r, Releasing), r, |w.requests[r].holding|);
    PhaseOnward(w, r, Releasing);
    PhaseOnward(released, r, Finished);
    OnwardTrans(w, WithPhase(w, r, Releasing), released, r);
    OnwardTrans(w, released, ReleasedAndFinished(w, r), r);
  }

  lemma TurnOnward(w: World, s: Step)
    requires Inv(w) && Enabled(w, s) && !s.Start?
    ensures var v := Next(w, s);
            OthersOnward(w, v, s.r) && Left(v.requests[s.r]) < Left(w.requests[s.r])
            && (s.TryAcquire? ==> Asking(v.requests[s.r])) && (s.Enter? ==> v.requests[s.r].phase.Running?)
  {
    if s.Finish? || s.Abort? {
      FinishOnward(w, s.r);
    }
  }

  lemma TurnsGoDown(w: World, s: Step)
    requires Inv(w) && Enabled(w, s) && !s.Start?
    ensures AllTurns(Next(w, s)) < AllTurns(w)
  {
    TurnOnward(w, s);
    FewerTurns(w.requests, Next(w, s).requests, w.requests.Keys, s.r);
  }

  // ---------------------------------------------------------------- somebody can always move

  /** Between turns, with duplicate-free lists. */
  ghost predicate Settled(w: World) {
    && Inv(w) && (forall n :: n in w.requests ==> Distinct(w.requests[n].ids))
    && (forall n :: n in w.requests ==> !w.requests[n].phase.Releasing?)
  }

  lemma {:induction false} ReachableSettled(w: World, steps: seq<Step>)
    requires Initial(w) && ValidRun(w, steps) && DistinctLists(steps)
    ensures Settled(Run(w, steps))
  {
    RunKeeps(w, steps);
    RunKeepsDistinct(w, steps);
    RunLeavesNoneReleasing(w, steps);
  }

  lemma TurnKeepsSettled(w: World, s: Step)
    requires Settled(w) && Enabled(w, s) && !s.Start?
    ensures Settled(Next(w, s))
  {
    StepKeeps(w, s);
    StepKeepsDistinct(w, s);
    StepLeavesNoneReleasing(w, s);
  }

  /** A turn that is neither a newcomer's nor a timeout. */
  predicate IsTurn(s: Step) {
    !s.Start? && !s.Expire?
  }

  predicate AsksFor(w: World, r: RequestId) {
    r in w.requests && Asking(w.requests[r])
  }

  /** While a request asks for its locks, it or the holder at the end of the chain of those it waits for can move. */
  lemma SomebodyMoves(w: World, r: RequestId) returns (s: Step)
    requires Settled(w) && AsksFor(w, r)
    ensures IsTurn(s) && Enabled(w, s) && (s.r == r || w.requests[s.r].holding != [])
  {
    var h := r;
    assert RequestOk(w, r);
    if w.requests[r].phase.Waiting? {
      h := Chase(w, r);
    }
    assert RequestOk(w, h);
    match w.requests[h].phase {
      case Acquiring => s := if w.requests[h].acquired < |w.requests[h].ids| then TryAcquire(h) else Enter(h);
      case Running => s := Finish(h);
      case Failing => s := Abort(h);
    }
  }

  ghost predicate TurnsOnly(steps: seq<Step>) {
    forall i :: 0 <= i < |steps| ==> IsTurn(steps[i])
  }

  predicate InBody(w: World, r: RequestId) {
    r in w.requests && w.requests[r].phase.Running?
  }

  lemma AskerMovesOn(w: World, s: Step, r: RequestId)
    requires Inv(w) && Enabled(w, s) && IsTurn(s) && AsksFor(w, r)
    ensures AsksFor(Next(w, s), r) || InBody(Next(w, s), r)
  {
    TurnOnward(w, s);
  }

  /** Taking whatever turn there is brings the request into its body. */
  lemma {:induction false} Proceeds(w: World, r: RequestId) returns (turns: seq<Step>)
    requires Settled(w) && AsksFor(w, r)
    ensures TurnsOnly(turns) && EndsRunning(w, r, turns)
    decreases AllTurns(w)
  {
    var s := SomebodyMoves(w, r);
    AskerMovesOn(w, s, r);
    TurnKeepsSettled(w, s);
    TurnsGoDown(w, s);
    var rest: seq<Step> := [];
    if AsksFor(Next(w, s), r) {
      rest := Proceeds(Next(w, s), r);
    }
    EndsCons(w, r, s, rest);
    turns := [s] + rest;
  }

  /** Nobody can take a turn any more. */
  ghost predicate Quiet(w: World) {
    forall s: Step :: IsTurn(s) ==> !Enabled(w, s)
  }

  ghost predicate WasInBody(w: World, steps: seq<Step>, r: RequestId)
    requires ValidRun(w, steps)
    decreases |steps|
  {
    InBody(w, r) || (|steps| > 0 && WasInBody(Next(w, steps[0]), steps[1..], r))
  }

  lemma {:induction false} NoneStarves(w: World, turns: seq<Step>, r: RequestId)
    requires Settled(w) && AsksFor(w, r) && ValidRun(w, turns) && TurnsOnly(turns)
    ensures Quiet(Run(w, turns)) ==> WasInBody(w, turns, r)
    decreases |turns|
  {
    if |turns| == 0 {
      var s := SomebodyMoves(w, r);
    } else {
      AskerMovesOn(w, turns[0], r);
      TurnKeepsSettled(w, turns[0]);
      if AsksFor(Next(w, turns[0]), r) {
        NoneStarves(Next(w, turns[0]), turns[1..], r);
      }
    }
  }

  lemma {:induction false} TurnsRunOut(w: World, turns: seq<Step>)
    requires Inv(w) && ValidRun(w, turns) && forall i :: 0 <= i < |turns| ==> !turns[i].Start?
    ensures |turns| <= AllTurns(w)
    decreases |turns|
  {
    if |turns| > 0 {
      StepKeeps(w, turns[0]);
      TurnsGoDown(w, turns[0]);
      TurnsRunOut(Next(w, turns[0]), turns[1..]);
    }
  }

  /**
   Over every run of duplicate-free lists: from any state reached, every request still asking for its locks can be brought
   into its body by turns of those already there, with no timeout; and whatever turns are taken, they run out, and not
   before it has been in its body.
   */
  lemma DeadlockFreedom(w: World, steps: seq<Step>, r: RequestId) returns (turns: seq<Step>)
    requires Initial(w) && ValidRun(w, steps) && DistinctLists(steps) && AsksFor(Run(w, steps), r)
    ensures TurnsOnly(turns) && EndsRunning(Run(w, steps), r, turns)
    ensures forall others: seq<Step> :: ValidRun(Run(w, steps), others) && TurnsOnly(others) ==>
              |others| <= AllTurns(Run(w, steps))
              && (Quiet(Run(Run(w, steps), others)) ==> WasInBody(Run(w, steps), others, r))
  {
    ReachableSettled(w, steps);
    var v := Run(w, steps);
    turns := Proceeds(v, r);
    forall others: seq<Step> | ValidRun(v, others) && TurnsOnly(others)
      ensures |others| <= AllTurns(v) && (Quiet(Run(v, others)) ==> WasInBody(v, others, r))
    {
      TurnsRunOut(v, others);
      NoneStarves(v, others, r);
    }
  }
}
