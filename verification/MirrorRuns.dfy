/** Whatever fails, upstream sees the mutations in enqueue order, each at least once, and none is lost. */
module MirrorRuns {
  import opened Options
  import opened MutationMirror

  /**
   `batch` is what the running drain has still to send. `order` is the history of enqueued mutations, `acked` how many
   of them were acknowledged, `unacknowledged` how many posts were applied without being acknowledged, and `streak` the
   failed drains since the last one without failure.
   */
  datatype World = World(
    table: State, batch: Option<seq<Entry>>, backoff: nat,
    order: seq<Mutation>, acked: nat, unacknowledged: nat, streak: nat)

  /** `Crash` ends the process, whatever it was doing, and starts another. */
  datatype Step = Enqueue(payload: string) | BeginDrain | Turn(attempt: Attempt) | EndDrain | Crash

  predicate Enabled(w: World, s: Step) {
    match s
    case BeginDrain => w.batch.None? && w.table.queue != []
    case Turn(_) => w.batch.Some? && w.batch.value != []
    case EndDrain => w.batch == Some([])
    case _ => true
  }

  function NewMutations(sequence: nat, payloads: seq<string>): seq<Mutation> {
    if |payloads| == 0 then []
    else NewMutations(sequence, payloads[..|payloads| - 1]) + [Mutation(sequence + |payloads| - 1, payloads[|payloads| - 1])]
  }

  function Next(w: World, s: Step): World
    requires Enabled(w, s)
  {
    match s
    case Enqueue(payload) =>
      w.(table := Enqueued(w.table, payload), order := w.order + [Mutation(w.table.nextSequence, payload)])
    case BeginDrain => w.(batch := Some(Peek(w.table.queue)))
    case Turn(a) =>
      var (table, outcome) := Attempted(w.table, w.batch.value[0].mutation, a);
      var u := w.(table := table, order := w.order + NewMutations(w.table.nextSequence, a.arrivals),
                  acked := if outcome.Sent? then w.acked + 1 else w.acked,
                  unacknowledged := if outcome.Sent? || a.post.RefusedPost? then w.unacknowledged else w.unacknowledged + 1);
      (match outcome
       case Sent => u.(batch := Some(w.batch.value[1..]))
       case Failed => u.(batch := None, backoff := Bumped(w.backoff), streak := w.streak + 1)
       case Threw => u.(batch := None))
    case EndDrain => w.(batch := None, backoff := 0, streak := 0)
    case Crash => w.(batch := None, backoff := 0, streak := 0)
  }

  /** The class's loop is these turns one after another. */
  lemma {:induction false} LoopIsTurns(s: State, batch: seq<Entry>, i: nat, attempt: nat -> Attempt, w: World)
    requires i < |batch| && w.table == s && w.batch == Some(batch[i..])
    ensures var v := Next(w, Turn(attempt(i)));
            var (end, n, outcome) := DrainedFrom(s, batch, i, attempt);
            if Acknowledged(attempt(i))
            then v.batch == Some(batch[i + 1..]) && (end, n, outcome) == DrainedFrom(v.table, batch, i + 1, attempt)
            else v.batch.None? && v.table == end && n == i && !outcome.Sent?
  {
    assert batch[i..][0] == batch[i] && batch[i..][1..] == batch[i + 1..];
  }

  /** A sequence with consecutive repetitions taken once. */
  function Collapse(log: seq<Mutation>): seq<Mutation> {
    if |log| == 0 then []
    else
      var front, last := log[..|log| - 1], log[|log| - 1];
      if |front| > 0 && front[|front| - 1] == last then Collapse(front) else Collapse(front) + [last]
  }

  function Backoff(streak: nat): nat {
    if streak == 0 then 0 else Min(DRAIN_INTERVAL_MS * Pow2(streak - 1), MAX_BACKOFF_MS)
  }

  function Min(a: nat, b: nat): nat {
    if a < b then a else b
  }

  function Pow2(n: nat): (p: nat)
    ensures p > 0
  {
    if n == 0 then 1 else 2 * Pow2(n - 1)
  }

  // ---------------------------------------------------------------- the invariant

  /** What is queued is what was enqueued and not yet acknowledged. */
  predicate QueueOk(w: World) {
    && w.acked <= |w.order| && |w.table.queue| == |w.order| - w.acked
    && (forall i :: 0 <= i < |w.table.queue| ==> w.table.queue[i].mutation == w.order[w.acked + i])
  }

  predicate OrderOk(w: World) {
    && (forall i, j :: 0 <= i < j < |w.order| ==> w.order[i].sequence < w.order[j].sequence)
    && (forall i :: 0 <= i < |w.order| ==> w.order[i].sequence < w.table.nextSequence)
  }

  predicate BatchOk(w: World) {
    w.batch.Some? ==>
      |w.batch.value| <= |w.table.queue| && forall i :: 0 <= i < |w.batch.value| ==> w.batch.value[i].mutation == w.table.queue[i].mutation
  }

  /** Upstream is at the last acknowledged mutation, or has already seen the next. */
  predicate UpstreamOk(w: World) {
    && w.acked <= |w.order|
    && (Collapse(w.table.upstream) == w.order[..w.acked]
        || (w.acked < |w.order| && Collapse(w.table.upstream) == w.order[..w.acked + 1]))
    && |w.table.upstream| == w.acked + w.unacknowledged
  }

  predicate Inv(w: World) {
    QueueOk(w) && OrderOk(w) && BatchOk(w) && UpstreamOk(w) && w.backoff == Backoff(w.streak)
    && (w.backoff > 0 && w.batch.None? ==> w.table.queue != [])
  }

  // ---------------------------------------------------------------- lemmas

  lemma {:induction false} CollapseLast(log: seq<Mutation>)
    requires |log| > 0
    ensures |Collapse(log)| > 0 && Collapse(log)[|Collapse(log)| - 1] == log[|log| - 1]
  {
    if |log| > 1 {
      CollapseLast(log[..|log| - 1]);
    }
  }

  lemma CollapseAppend(log: seq<Mutation>, m: Mutation)
    ensures Collapse(log + [m]) ==
            if |Collapse(log)| > 0 && Collapse(log)[|Collapse(log)| - 1] == m then Collapse(log) else Collapse(log) + [m]
  {
    assert (log + [m])[..|log|] == log;
    if |log| > 0 {
      CollapseLast(log);
    }
  }

  lemma {:induction false} EnqueuedAllHolds(s: State, payloads: seq<string>)
    ensures var t := EnqueuedAll(s, payloads);
            && t.nextSequence == s.nextSequence + |payloads| && t.upstream == s.upstream
            && |t.queue| == |s.queue| + |payloads| && |NewMutations(s.nextSequence, payloads)| == |payloads|
            && (forall i :: 0 <= i < |s.queue| ==> t.queue[i] == s.queue[i])
            && (forall j :: |s.queue| <= j < |t.queue| ==>
                  t.queue[j].mutation == NewMutations(s.nextSequence, payloads)[j - |s.queue|])
            && (forall i :: 0 <= i < |payloads| ==> NewMutations(s.nextSequence, payloads)[i].sequence == s.nextSequence + i)
  {
    if |payloads| > 0 {
      EnqueuedAllHolds(s, payloads[..|payloads| - 1]);
    }
  }

  lemma WithoutHead(queue: seq<Entry>)
    requires |queue| > 0
    requires forall i :: 0 < i < |queue| ==> queue[i].mutation.sequence != queue[0].mutation.sequence
    ensures Without(queue, queue[0].mutation.sequence) == queue[1..]
  {
    WithoutNone(queue[1..], queue[0].mutation.sequence);
  }

  /** Posting the first unacknowledged mutation, once more or for the first time, keeps upstream in order. */
  lemma PostKeepsUpstream(log: seq<Mutation>, order: seq<Mutation>, acked: nat)
    requires acked < |order| && (forall i, j :: 0 <= i < j < |order| ==> order[i].sequence < order[j].sequence)
    requires Collapse(log) == order[..acked] || Collapse(log) == order[..acked + 1]
    ensures Collapse(log + [order[acked]]) == order[..acked + 1]
  {
    CollapseAppend(log, order[acked]);
    OnceMore(Collapse(log), order, acked);
  }

  lemma OnceMore(seen: seq<Mutation>, order: seq<Mutation>, acked: nat)
    requires acked < |order| && (acked > 0 ==> order[acked - 1].sequence < order[acked].sequence)
    requires seen == order[..acked] || seen == order[..acked + 1]
    ensures (if |seen| > 0 && seen[|seen| - 1] == order[acked] then seen else seen + [order[acked]]) == order[..acked + 1]
  {
    assert order[..acked] + [order[acked]] == order[..acked + 1];
  }

  /** What a turn does to upstream, the history and the counts. */
  lemma TurnCounts(w: World, a: Attempt)
    requires Inv(w) && Enabled(w, Turn(a))
    ensures var v := Next(w, Turn(a));
            && w.acked < |w.order| && w.batch.value[0].mutation == w.order[w.acked] == w.table.queue[0].mutation
            && v.table.upstream == (if a.post.RefusedPost? then w.table.upstream else w.table.upstream + [w.order[w.acked]])
            && v.order == w.order + NewMutations(w.table.nextSequence, a.arrivals)
            && v.acked == (if Acknowledged(a) then w.acked + 1 else w.acked)
            && v.table.nextSequence == w.table.nextSequence + |a.arrivals|
            && |v.table.upstream| == v.acked + v.unacknowledged
  {
    EnqueuedAllHolds(w.table, a.arrivals);
    EnqueuedAllHolds(w.table.(upstream := w.table.upstream + [w.batch.value[0].mutation]), a.arrivals);
  }

  lemma TurnOrder(w: World, a: Attempt)
    requires Inv(w) && Enabled(w, Turn(a))
    ensures OrderOk(Next(w, Turn(a)))
  {
    TurnCounts(w, a);
    EnqueuedAllHolds(w.table, a.arrivals);
  }

  lemma TurnUpstream(w: World, a: Attempt)
    requires Inv(w) && Enabled(w, Turn(a))
    ensures UpstreamOk(Next(w, Turn(a)))
  {
    TurnCounts(w, a);
    if !a.post.RefusedPost? {
      PostKeepsUpstream(w.table.upstream, w.order, w.acked);
    }
    UpstreamAfter(w, a, Next(w, Turn(a)));
  }

  lemma UpstreamAfter(w: World, a: Attempt, v: World)
    requires UpstreamOk(w) && w.acked < |w.order| && w.order <= v.order
    requires v.acked == (if Acknowledged(a) then w.acked + 1 else w.acked) && |v.table.upstream| == v.acked + v.unacknowledged
    requires if a.post.RefusedPost? then v.table.upstream == w.table.upstream
             else Collapse(v.table.upstream) == w.order[..w.acked + 1]
    ensures UpstreamOk(v)
  {
    assert v.order[..w.acked] == w.order[..w.acked] && v.order[..w.acked + 1] == w.order[..w.acked + 1];
  }

  lemma AcknowledgedQueue(queue: seq<Entry>, order: seq<Mutation>, acked: nat)
    requires |queue| > 0 && |queue| == |order| - acked && (forall i :: 0 <= i < |queue| ==> queue[i].mutation == order[acked + i])
    requires forall i, j :: 0 <= i < j < |order| ==> order[i].sequence < order[j].sequence
    ensures Without(queue, queue[0].mutation.sequence) == queue[1..]
  {
    forall i | 0 < i < |queue| ensures queue[i].mutation.sequence != queue[0].mutation.sequence {
      assert order[acked].sequence < order[acked + i].sequence;
    }
    WithoutHead(queue);
  }

  /** The queue once the post is back and the arrivals are in. */
  lemma PostedQueue(w: World, a: Attempt, posted: State)
    requires QueueOk(w) && posted.queue == w.table.queue && posted.nextSequence == w.table.nextSequence
    ensures var queue, order := EnqueuedAll(posted, a.arrivals).queue, w.order + NewMutations(w.table.nextSequence, a.arrivals);
            |queue| == |order| - w.acked && (forall i :: 0 <= i < |queue| ==> queue[i].mutation == order[w.acked + i])
            && (forall i :: 0 <= i < |w.table.queue| ==> queue[i] == w.table.queue[i])
  {
    EnqueuedAllHolds(posted, a.arrivals);
  }

  function Posted(w: World, a: Attempt): State
    requires Enabled(w, Turn(a))
  {
    if a.post.RefusedPost? then w.table else w.table.(upstream := w.table.upstream + [w.batch.value[0].mutation])
  }

  lemma TurnTable(w: World, a: Attempt)
    requires Enabled(w, Turn(a))
    ensures var queue, m := EnqueuedAll(Posted(w, a), a.arrivals).queue, w.batch.value[0].mutation;
            Next(w, Turn(a)).table.queue ==
              if Acknowledged(a) then Without(queue, m.sequence) else if a.nackFails then queue else Nacked(queue, m.sequence, ErrorOf(a))
  {
  }

  /** The queue a turn leaves is again the unacknowledged rest. */
  lemma QueueAfter(queue: seq<Entry>, order: seq<Mutation>, acked: nat, a: Attempt, after: seq<Entry>)
    requires |queue| > 0 && |queue| == |order| - acked && (forall i :: 0 <= i < |queue| ==> queue[i].mutation == order[acked + i])
    requires forall i, j :: 0 <= i < j < |order| ==> order[i].sequence < order[j].sequence
    requires var sequence := queue[0].mutation.sequence;
             after == if Acknowledged(a) then Without(queue, sequence) else if a.nackFails then queue else Nacked(queue, sequence, ErrorOf(a))
    ensures Acknowledged(a) ==> after == queue[1..]
    ensures !Acknowledged(a) ==> |after| == |queue| && forall i :: 0 <= i < |queue| ==> after[i].mutation == queue[i].mutation
  {
    if Acknowledged(a) {
      AcknowledgedQueue(queue, order, acked);
    }
  }

  lemma RestIsQueued(w: World, v: World, queue: seq<Entry>, sent: bool)
    requires |w.table.queue| > 0 && w.acked < |v.order| && |queue| == |v.order| - w.acked && |w.table.queue| <= |queue|
    requires forall i :: 0 <= i < |queue| ==> queue[i].mutation == v.order[w.acked + i]
    requires forall i :: 0 <= i < |w.table.queue| ==> queue[i] == w.table.queue[i]
    requires v.acked == (if sent then w.acked + 1 else w.acked)
    requires sent ==> v.table.queue == queue[1..]
    requires !sent ==> |v.table.queue| == |queue| && forall i :: 0 <= i < |queue| ==> v.table.queue[i].mutation == queue[i].mutation
    ensures QueueOk(v)
    ensures sent ==> forall i :: 0 < i < |w.table.queue| ==> v.table.queue[i - 1] == w.table.queue[i]
    ensures !sent ==> v.table.queue != []
  {
    forall i | 0 <= i < |v.table.queue| ensures v.table.queue[i].mutation == v.order[v.acked + i] {
      if sent {
        assert v.table.queue[i] == queue[i + 1];
        assert queue[i + 1].mutation == v.order[w.acked + (i + 1)];
      }
    }
  }

  lemma TurnQueue(w: World, a: Attempt, v: World)
    requires Inv(w) && Enabled(w, Turn(a)) && v == Next(w, Turn(a))
    ensures QueueOk(v)
    ensures Acknowledged(a) ==> forall i :: 0 < i < |w.table.queue| ==> v.table.queue[i - 1] == w.table.queue[i]
    ensures !Acknowledged(a) ==> v.table.queue != []
  {
    var queue := EnqueuedAll(Posted(w, a), a.arrivals).queue;
    TurnParts(w, a, v, queue);
    QueueTurns(w, a, v, queue);
  }

  /** What a turn makes of the queue as it is once the post is back and the arrivals are in. */
  predicate Turned(w: World, a: Attempt, v: World, queue: seq<Entry>) {
    && 0 < |w.table.queue| <= |queue| && w.acked < |v.order| && |queue| == |v.order| - w.acked
    && (forall i :: 0 <= i < |queue| ==> queue[i].mutation == v.order[w.acked + i])
    && (forall i :: 0 <= i < |w.table.queue| ==> queue[i] == w.table.queue[i])
    && (forall i, j :: 0 <= i < j < |v.order| ==> v.order[i].sequence < v.order[j].sequence)
    && v.acked == (if Acknowledged(a) then w.acked + 1 else w.acked)
    && v.table.queue == (if Acknowledged(a) then Without(queue, queue[0].mutation.sequence)
                         else if a.nackFails then queue else Nacked(queue, queue[0].mutation.sequence, ErrorOf(a)))
  }

  lemma TurnParts(w: World, a: Attempt, v: World, queue: seq<Entry>)
    requires Inv(w) && Enabled(w, Turn(a)) && v == Next(w, Turn(a)) && queue == EnqueuedAll(Posted(w, a), a.arrivals).queue
    ensures Turned(w, a, v, queue)
  {
    PostedQueue(w, a, Posted(w, a));
    TurnCounts(w, a);
    TurnOrder(w, a);
    TurnTable(w, a);
  }

  lemma QueueTurns(w: World, a: Attempt, v: World, queue: seq<Entry>)
    requires Turned(w, a, v, queue)
    ensures QueueOk(v)
    ensures Acknowledged(a) ==> forall i :: 0 < i < |w.table.queue| ==> v.table.queue[i - 1] == w.table.queue[i]
    ensures !Acknowledged(a) ==> v.table.queue != []
  {
    QueueAfter(queue, v.order, w.acked, a, v.table.queue);
    RestIsQueued(w, v, queue, Acknowledged(a));
  }

  lemma TurnKeeps(w: World, a: Attempt)
    requires Inv(w) && Enabled(w, Turn(a))
    ensures Inv(Next(w, Turn(a)))
  {
    TurnOrder(w, a);
    TurnUpstream(w, a);
    TurnQueue(w, a, Next(w, Turn(a)));
    BackoffDoubles(w.streak);
    var v := Next(w, Turn(a));
    if Acknowledged(a) {
      forall i | 0 <= i < |v.batch.value| ensures v.batch.value[i].mutation == v.table.queue[i].mutation {
        assert w.batch.value[i + 1].mutation == w.table.queue[i + 1].mutation;
      }
    }
  }

  lemma {:induction false} BackoffDoubles(streak: nat)
    ensures Bumped(Backoff(streak)) == Backoff(streak + 1)
  {
    if streak > 0 {
      assert Pow2(streak) == 2 * Pow2(streak - 1);
    }
  }

  lemma StepKeeps(w: World, s: Step)
    requires Inv(w) && Enabled(w, s)
    ensures Inv(Next(w, s))
  {
    match s
    case Enqueue(payload) =>
      assert forall k :: 0 <= k <= |w.order| ==> Next(w, s).order[..k] == w.order[..k];
    case Turn(a) =>
      TurnKeeps(w, a);
    case _ =>
  }

  predicate ValidRun(w: World, steps: seq<Step>)
    decreases |steps|
  {
    |steps| == 0 || (Enabled(w, steps[0]) && ValidRun(Next(w, steps[0]), steps[1..]))
  }

  function Run(w: World, steps: seq<Step>): World
    requires ValidRun(w, steps)
    decreases |steps|
  {
    if |steps| == 0 then w else Run(Next(w, steps[0]), steps[1..])
  }

  lemma {:induction false} RunKeeps(w: World, steps: seq<Step>)
    requires Inv(w) && ValidRun(w, steps)
    ensures Inv(Run(w, steps))
    decreases |steps|
  {
    if |steps| > 0 {
      StepKeeps(w, steps[0]);
      RunKeeps(Next(w, steps[0]), steps[1..]);
    }
  }

  predicate Initial(w: World) {
    && |w.table.queue| == |w.table.upstream| == |w.order| == 0 && w.batch.None?
    && w.backoff == w.acked == w.unacknowledged == w.streak == 0
  }

  lemma {:induction false} CollapseMembers(log: seq<Mutation>, m: Mutation)
    requires m in Collapse(log)
    ensures m in log
  {
    var front, last := log[..|log| - 1], log[|log| - 1];
    assert log == front + [last];
    if m != last {
      CollapseMembers(front, m);
    }
  }

  lemma {:induction false} CollapseShrinks(log: seq<Mutation>)
    ensures |Collapse(log)| <= |log| && (|Collapse(log)| == |log| ==> Collapse(log) == log)
  {
    if |log| > 0 {
      CollapseShrinks(log[..|log| - 1]);
      assert log == log[..|log| - 1] + [log[|log| - 1]];
    }
  }

  /**
   Over every run of enqueues, drains, refused posts, lost answers, refused acknowledgements and crashes: what upstream
   applied, repetitions taken once, is a prefix of the enqueue order that holds everything acknowledged and at most one
   mutation more; the queue is exactly the rest.
   */
  lemma UpstreamIsInOrder(w: World, steps: seq<Step>)
    requires Initial(w) && ValidRun(w, steps)
    ensures var v := Run(w, steps);
            && Collapse(v.table.upstream) <= v.order
            && v.acked <= |Collapse(v.table.upstream)| <= v.acked + 1
            && |v.table.queue| == |v.order| - v.acked
            && (forall i :: 0 <= i < |v.table.queue| ==> v.table.queue[i].mutation == v.order[v.acked + i])
            && (v.table.queue == [] ==> Collapse(v.table.upstream) == v.order)
  {
    RunKeeps(w, steps);
    var v := Run(w, steps);
    assert v.order[..|v.order|] == v.order;
  }

  /** Nothing leaves the queue before upstream applied it. */
  lemma NothingDropped(w: World, steps: seq<Step>, i: nat)
    requires Initial(w) && ValidRun(w, steps) && i < |Run(w, steps).order|
    ensures var v := Run(w, steps);
            v.order[i] in v.table.upstream || exists j :: 0 <= j < |v.table.queue| && v.table.queue[j].mutation == v.order[i]
  {
    RunKeeps(w, steps);
    var v := Run(w, steps);
    if i < v.acked {
      assert Collapse(v.table.upstream)[i] == v.order[i];
      CollapseMembers(v.table.upstream, v.order[i]);
    } else {
      assert v.table.queue[i - v.acked].mutation == v.order[i];
    }
  }

  /** Upstream applied each acknowledged mutation once and nothing else exactly when every applied post was acknowledged. */
  lemma OnceIffAllAcknowledged(w: World, steps: seq<Step>)
    requires Initial(w) && ValidRun(w, steps)
    ensures var v := Run(w, steps);
            v.acked <= |v.order| && (v.table.upstream == v.order[..v.acked] <==> v.unacknowledged == 0)
  {
    RunKeeps(w, steps);
    CollapseShrinks(Run(w, steps).table.upstream);
  }

  /**
   The backoff is nothing, or three seconds doubled for each further failed drain up to a minute, and in force only while
   something is queued.
   */
  lemma BackoffIsOfStreak(w: World, steps: seq<Step>)
    requires Initial(w) && ValidRun(w, steps)
    ensures var v := Run(w, steps);
            && v.backoff == (if v.streak == 0 then 0 else Min(3000 * Pow2(v.streak - 1), 60000))
            && (v.backoff > 0 && v.batch.None? ==> v.table.queue != [])
  {
    RunKeeps(w, steps);
  }
}
