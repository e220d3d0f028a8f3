/** Mutations mirrored upstream: a durable queue drained in order, one post at a time. */
module MutationMirror {
  import opened Options

  const MAX_BATCH := 20
  const DRAIN_INTERVAL_MS := 3000
  const MAX_BACKOFF_MS := 60000

  datatype Mutation = Mutation(sequence: nat, payload: string)

  datatype Entry = Entry(mutation: Mutation, attempts: nat, lastError: Option<string>)

  /** `queue` in sequence order; `upstream` is what the upstream server applied, in order. */
  datatype State = State(nextSequence: nat, queue: seq<Entry>, upstream: seq<Mutation>)

  /** A post is applied and answered, refused, or applied with its answer lost. */
  datatype Post = Delivered | RefusedPost(error: string) | AnswerLost(error: string)

  /** One turn of the drain loop: the post, whether the statement after it is refused, and what is enqueued meanwhile. */
  datatype Attempt = Attempt(post: Post, ackFails: bool, nackFails: bool, arrivals: seq<string>)

  datatype Outcome = Sent | Failed | Threw

  datatype DrainResult = Drained(sent: nat, failed: nat) | Rejected

  function Enqueued(s: State, payload: string): State {
    s.(nextSequence := s.nextSequence + 1, queue := s.queue + [Entry(Mutation(s.nextSequence, payload), 0, None)])
  }

  function EnqueuedAll(s: State, payloads: seq<string>): State {
    if |payloads| == 0 then s else Enqueued(EnqueuedAll(s, payloads[..|payloads| - 1]), payloads[|payloads| - 1])
  }

  function Without(queue: seq<Entry>, sequence: nat): seq<Entry> {
    if |queue| == 0 then []
    else if queue[0].mutation.sequence == sequence then Without(queue[1..], sequence)
    else [queue[0]] + Without(queue[1..], sequence)
  }

  function Nacked(queue: seq<Entry>, sequence: nat, error: string): (r: seq<Entry>)
    ensures |r| == |queue|
    ensures forall i :: 0 <= i < |queue| ==> r[i].mutation == queue[i].mutation
  {
    if |queue| == 0 then []
    else
      [if queue[0].mutation.sequence == sequence then Entry(queue[0].mutation, queue[0].attempts + 1, Some(error)) else queue[0]]
      + Nacked(queue[1..], sequence, error)
  }

  /** Did the post come back well, and was it acknowledged? */
  predicate Acknowledged(a: Attempt) {
    a.post.Delivered? && !a.ackFails
  }

  function ErrorOf(a: Attempt): string {
    if a.post.Delivered? then "ack failed" else a.post.error
  }

  /** One entry's turn: post, then delete it, or count the failure. */
  function Attempted(s: State, m: Mutation, a: Attempt): (State, Outcome) {
    var posted := EnqueuedAll(if a.post.RefusedPost? then s else s.(upstream := s.upstream + [m]), a.arrivals);
    if Acknowledged(a) then (posted.(queue := Without(posted.queue, m.sequence)), Sent)
    else if a.nackFails then (posted, Threw)
    else (posted.(queue := Nacked(posted.queue, m.sequence, ErrorOf(a))), Failed)
  }

  /** The loop over a batch, from its `i`th entry on: it stops at the first that fails. */
  function DrainedFrom(s: State, batch: seq<Entry>, i: nat, attempt: nat -> Attempt): (State, nat, Outcome)
    requires i <= |batch|
    decreases |batch| - i
  {
    if i == |batch| then (s, i, Sent)
    else
      var (next, outcome) := Attempted(s, batch[i].mutation, attempt(i));
      if outcome.Sent? then DrainedFrom(next, batch, i + 1, attempt) else (next, i, outcome)
  }

  function Peek(queue: seq<Entry>): (batch: seq<Entry>)
    ensures batch <= queue && |batch| == if |queue| < 20 then |queue| else 20
  {
    if |queue| <= MAX_BATCH then queue else queue[..MAX_BATCH]
  }

  function Bumped(backoff: nat): nat {
    if backoff == 0 then DRAIN_INTERVAL_MS else if backoff * 2 < MAX_BACKOFF_MS then backoff * 2 else MAX_BACKOFF_MS
  }

  /** Queue sequences grow along the queue. */
  predicate InSequence(queue: seq<Entry>) {
    forall i, j :: 0 <= i < j < |queue| ==> queue[i].mutation.sequence < queue[j].mutation.sequence
  }

  /** The entry of that sequence has one more attempt and the error; every other is as it was. */
  lemma {:induction false} NackedCounts(queue: seq<Entry>, sequence: nat, error: string, i: nat)
    requires i < |queue|
    ensures Nacked(queue, sequence, error)[i] ==
            if queue[i].mutation.sequence == sequence then Entry(queue[i].mutation, queue[i].attempts + 1, Some(error)) else queue[i]
  {
    if i > 0 {
      NackedCounts(queue[1..], sequence, error, i - 1);
    }
  }

  /** What is enqueued joins the end, each under the next sequence. */
  lemma {:induction false} ArrivalsJoin(s: State, payloads: seq<string>)
    ensures var t := EnqueuedAll(s, payloads);
            && t.upstream == s.upstream && t.nextSequence == s.nextSequence + |payloads|
            && |t.queue| == |s.queue| + |payloads| && s.queue <= t.queue
            && (forall j :: |s.queue| <= j < |t.queue| ==>
                  t.queue[j] == Entry(Mutation(s.nextSequence + (j - |s.queue|), payloads[j - |s.queue|]), 0, None))
            && (SequencesOk(s) ==> SequencesOk(t))
  {
    if |payloads| > 0 {
      ArrivalsJoin(s, payloads[..|payloads| - 1]);
    }
  }

  lemma {:induction false} WithoutFirst(queue: seq<Entry>)
    requires |queue| > 0 && InSequence(queue)
    ensures Without(queue, queue[0].mutation.sequence) == queue[1..]
  {
    WithoutNone(queue[1..], queue[0].mutation.sequence);
  }

  lemma {:induction false} WithoutNone(queue: seq<Entry>, sequence: nat)
    requires forall i :: 0 <= i < |queue| ==> queue[i].mutation.sequence != sequence
    ensures Without(queue, sequence) == queue
  {
    if |queue| > 0 {
      WithoutNone(queue[1..], sequence);
      assert queue == [queue[0]] + queue[1..];
    }
  }

  /** Sequences grow, and stay below the next one. */
  predicate SequencesOk(s: State) {
    InSequence(s.queue) && forall i :: 0 <= i < |s.queue| ==> s.queue[i].mutation.sequence < s.nextSequence
  }

  /** Everything posted is applied, acknowledged and gone from the queue; what arrived meanwhile follows the rest. */
  predicate AllSent(s: State, t: State, batch: seq<Entry>, i: nat, rest: seq<Entry>)
    requires i <= |batch|
  {
    && SequencesOk(t) && rest <= t.queue
    && |t.upstream| == |s.upstream| + |batch| - i && s.upstream <= t.upstream
    && forall j :: i <= j < |batch| ==> t.upstream[|s.upstream| + j - i] == batch[j].mutation
  }

  lemma SentOne(s: State, m: Mutation, a: Attempt)
    requires SequencesOk(s) && |s.queue| > 0 && s.queue[0].mutation == m && a.post.Delivered? && !a.ackFails
    ensures var (t, outcome) := Attempted(s, m, a);
            outcome.Sent? && SequencesOk(t) && t.upstream == s.upstream + [m] && s.queue[1..] <= t.queue
  {
    var posted := EnqueuedAll(s.(upstream := s.upstream + [m]), a.arrivals);
    ArrivalsJoin(s.(upstream := s.upstream + [m]), a.arrivals);
    WithoutFirst(posted.queue);
    assert s.queue[1..] <= posted.queue[1..];
  }

  /** A drain in which every post is delivered and acknowledged sends its whole batch, in order, and empties it. */
  lemma {:induction false} CleanDrainSendsAll(s: State, batch: seq<Entry>, i: nat, attempt: nat -> Attempt)
    requires SequencesOk(s) && i <= |batch| && |batch| - i <= |s.queue|
    requires forall j :: i <= j < |batch| ==> s.queue[j - i].mutation == batch[j].mutation
    requires forall j :: i <= j < |batch| ==> attempt(j).post.Delivered? && !attempt(j).ackFails
    ensures var (t, sent, outcome) := DrainedFrom(s, batch, i, attempt);
            sent == |batch| && outcome.Sent? && AllSent(s, t, batch, i, s.queue[|batch| - i..])
    decreases |batch| - i
  {
    if i < |batch| {
      var next := Attempted(s, batch[i].mutation, attempt(i)).0;
      SentOne(s, batch[i].mutation, attempt(i));
      forall j | i + 1 <= j < |batch| ensures next.queue[j - (i + 1)].mutation == batch[j].mutation {
        assert s.queue[1..][j - (i + 1)] == s.queue[j - i];
      }
      CleanDrainSendsAll(next, batch, i + 1, attempt);
      var t := DrainedFrom(next, batch, i + 1, attempt).0;
      SentThen(s, next, t, batch, i);
    }
  }

  lemma SentThen(s: State, next: State, t: State, batch: seq<Entry>, i: nat)
    requires i < |batch| && |batch| - i <= |s.queue| && next.upstream == s.upstream + [batch[i].mutation] && s.queue[1..] <= next.queue
    requires AllSent(next, t, batch, i + 1, next.queue[|batch| - (i + 1)..])
    ensures AllSent(s, t, batch, i, s.queue[|batch| - i..])
  {
    var n := |batch| - (i + 1);
    PrefixFrom(s.queue[1..], next.queue, n);
    assert s.queue[1..][n..] == s.queue[n + 1..];
    assert t.upstream[|s.upstream|] == next.upstream[|s.upstream|] == batch[i].mutation;
  }

  lemma PrefixFrom(a: seq<Entry>, b: seq<Entry>, n: nat)
    requires a <= b && n <= |a|
    ensures a[n..] <= b[n..]
  {
  }

  /** The first twenty entries, or all there are, are sent in order; the rest stay queued, with what arrived behind them. */
  lemma CleanDrain(s: State, attempt: nat -> Attempt)
    requires SequencesOk(s) && forall j :: attempt(j).post.Delivered? && !attempt(j).ackFails
    ensures var n := if |s.queue| < 20 then |s.queue| else 20;
            var (t, sent, outcome) := DrainedFrom(s, Peek(s.queue), 0, attempt);
            sent == n && outcome.Sent? && AllSent(s, t, s.queue[..n], 0, s.queue[n..])
  {
    var batch := Peek(s.queue);
    forall j | 0 <= j < |batch| ensures s.queue[j - 0].mutation == batch[j].mutation {
    }
    assert forall j :: 0 <= j < |batch| ==> attempt(j).post.Delivered? && !attempt(j).ackFails;
    CleanDrainSendsAll(s, batch, 0, attempt);
    assert batch == s.queue[..|batch|];
  }

  class MutationMirrorService {
    var table: State
    var draining: bool
    var currentBackoff: nat

    constructor ()
      ensures table == State(1, [], []) && !draining && currentBackoff == 0
    {
      table, draining, currentBackoff := State(1, [], []), false, 0;
    }

    method Enqueue(payload: string)
      modifies this`table
      ensures table == Enqueued(old(table), payload)
    {
      table := table.(nextSequence := table.nextSequence + 1,
                      queue := table.queue + [Entry(Mutation(table.nextSequence, payload), 0, None)]);
    }

    /** What arrives while a post is under way. */
    method Arrive(payloads: seq<string>)
      modifies this`table
      ensures table == EnqueuedAll(old(table), payloads)
    {
      for i := 0 to |payloads|
        invariant table == EnqueuedAll(old(table), payloads[..i])
      {
        assert payloads[..i + 1][..i] == payloads[..i];
        Enqueue(payloads[i]);
      }
      assert payloads[..|payloads|] == payloads;
    }

    method BumpBackoff()
      modifies this`currentBackoff
      ensures currentBackoff == Bumped(old(currentBackoff))
    {
      if currentBackoff == 0 {
        currentBackoff := DRAIN_INTERVAL_MS;
      } else {
        currentBackoff := if currentBackoff * 2 < MAX_BACKOFF_MS then currentBackoff * 2 else MAX_BACKOFF_MS;
      }
    }

    /** `attempt(i)` is what happens to the batch's `i`th entry. */
    method DrainOnce(attempt: nat -> Attempt, peekFails: bool) returns (result: DrainResult)
      modifies this
      ensures draining == old(draining)
      ensures old(draining) ==> table == old(table) && currentBackoff == old(currentBackoff) && result == Drained(0, 0)
      ensures !old(draining) && peekFails ==> table == old(table) && currentBackoff == old(currentBackoff) && result.Rejected?
      ensures !old(draining) && !peekFails ==>
                var batch := Peek(old(table).queue);
                var (after, sent, outcome) := DrainedFrom(old(table), batch, 0, attempt);
                && table == after
                && currentBackoff == (if batch == [] || outcome.Threw? then old(currentBackoff)
                                      else if outcome.Failed? then Bumped(old(currentBackoff)) else 0)
                && result == (if outcome.Threw? then Rejected else Drained(sent, if outcome.Failed? then 1 else 0))
    {
      if draining {
        return Drained(0, 0);
      }
      draining := true;
      if peekFails {
        draining := false;
        return Rejected;
      }
      var batch := Peek(table.queue);
      var sent, failed := 0, 0;
      var i := 0;
      while i < |batch| && failed == 0
        invariant 0 <= i <= |batch| && draining && currentBackoff == old(currentBackoff)
        invariant failed == 0 && sent == i
        invariant DrainedFrom(table, batch, i, attempt) == DrainedFrom(old(table), batch, 0, attempt)
        decreases |batch| - i
      {
        var m, a := batch[i].mutation, attempt(i);
        if !a.post.RefusedPost? {
          table := table.(upstream := table.upstream + [m]);
        }
        Arrive(a.arrivals);
        if a.post.Delivered? && !a.ackFails {
          table := table.(queue := Without(table.queue, m.sequence));
          sent := sent + 1;
        } else {
          if a.nackFails {
            draining := false;
            return Rejected;
          }
          table := table.(queue := Nacked(table.queue, m.sequence, ErrorOf(a)));
          failed := failed + 1;
          BumpBackoff();
          break;
        }
        i := i + 1;
      }
      if failed == 0 && |batch| > 0 {
        currentBackoff := 0;
      }
      draining := false;
      return Drained(sent, failed);
    }
  }
}
