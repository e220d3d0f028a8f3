/** Writes of one action type take effect in call order; once drained, the table agrees with memory. */
module AuditRuns {
  import opened Options
  import opened AuditCounters

  datatype Step =
    | Fail(key: string)
    | Recover(key: string)
    | Start(key: string, i: nat)
    | Land(key: string, i: nat, tookEffect: bool)
    | Finally(key: string, i: nat)

  /**
   A write starts once the promise it was chained on has settled and that promise's `finally`, registered before, has
   run.
   */
  predicate Enabled(s: State, step: Step) {
    match step
    case Start(key, i) =>
      && i < |WritesOf(s, key)| && WritesOf(s, key)[i].phase.Waiting?
      && (var after := WritesOf(s, key)[i].after;
          after.Some? ==> after.value < |WritesOf(s, key)| && WritesOf(s, key)[after.value].phase.Done?)
    case Land(key, i, _) => i < |WritesOf(s, key)| && WritesOf(s, key)[i].phase.Running?
    case Finally(key, i) => i < |WritesOf(s, key)| && WritesOf(s, key)[i].phase.Settled?
    case _ => true
  }

  function Landed(s: State, key: string, i: nat, tookEffect: bool): State
    requires i < |WritesOf(s, key)|
  {
    var t := InPhase(s, key, i, Settled(tookEffect));
    if tookEffect then
      t.(persisted := WithCount(s.persisted, key, Applied(CountOf(s.persisted, key), WritesOf(s, key)[i].kind)))
    else t
  }

  function Next(s: State, step: Step): State
    requires Enabled(s, step)
  {
    match step
    case Fail(key) => FailureRecorded(s, key)
    case Recover(key) => RecoveryRecorded(s, key)
    case Start(key, i) => InPhase(s, key, i, Running)
    case Land(key, i, tookEffect) => Landed(s, key, i, tookEffect)
    case Finally(key, i) => Finalized(s, key, i)
  }

  // ---------------------------------------------------------------- the invariant

  predicate Effective(w: Write) {
    (w.phase.Settled? && w.phase.tookEffect) || (w.phase.Done? && w.phase.effective)
  }

  /** The count after every call so far. */
  function Called(count: Option<nat>, writes: seq<Write>): Option<nat> {
    if |writes| == 0 then count else Applied(Called(count, writes[..|writes| - 1]), writes[|writes| - 1].kind)
  }

  /** The count after the writes that changed the table, in call order. */
  function Effected(count: Option<nat>, writes: seq<Write>): Option<nat> {
    if |writes| == 0 then count
    else
      var before := Effected(count, writes[..|writes| - 1]);
      if Effective(writes[|writes| - 1]) then Applied(before, writes[|writes| - 1].kind) else before
  }

  /** Done writes, then at most one under way, then waiting ones, each chained on the one before it unless that was over. */
  predicate InOrder(writes: seq<Write>, n: nat) {
    && n <= |writes|
    && (forall i :: 0 <= i < n ==> writes[i].phase.Done?)
    && (n < |writes| ==> !writes[n].phase.Done?)
    && (forall i :: n < i < |writes| ==> writes[i].phase.Waiting? && writes[i].after == Some(i - 1))
    && (forall i :: 0 <= i < |writes| && writes[i].after.Some? ==> 0 < i && writes[i].after.value == i - 1)
  }

  /** The first `n` writes are over, and the chain's entry is the last of the others. */
  predicate ChainOk(s: State, key: string, n: nat) {
    && InOrder(WritesOf(s, key), n)
    && CountOf(s.chain, key) == if n < |WritesOf(s, key)| then Some(|WritesOf(s, key)| - 1) else None
  }

  ghost predicate KeyOk(s: State, key: string, start: Option<nat>) {
    && (exists n: nat :: ChainOk(s, key, n))
    && CountOf(s.failureCounts, key) == Called(start, WritesOf(s, key))
    && CountOf(s.persisted, key) == Effected(start, WritesOf(s, key))
  }

  ghost predicate Inv(s: State, hydrated: map<string, nat>) {
    forall key :: KeyOk(s, key, CountOf(hydrated, key))
  }

  // ---------------------------------------------------------------- steps

  lemma {:induction false} PhaseOnly(start: Option<nat>, a: seq<Write>, b: seq<Write>)
    requires |a| == |b| && forall i :: 0 <= i < |a| ==> a[i].kind == b[i].kind
    ensures Called(start, a) == Called(start, b)
    ensures (forall i :: 0 <= i < |a| ==> Effective(a[i]) == Effective(b[i])) ==> Effected(start, a) == Effected(start, b)
  {
    if |a| > 0 {
      PhaseOnly(start, a[..|a| - 1], b[..|b| - 1]);
    }
  }

  /** Writes that have not taken effect change nothing. */
  lemma {:induction false} PendingTail(start: Option<nat>, writes: seq<Write>, n: nat)
    requires n <= |writes| && forall i :: n <= i < |writes| ==> !Effective(writes[i])
    ensures Effected(start, writes) == Effected(start, writes[..n])
  {
    if |writes| == n {
      assert writes[..n] == writes;
    } else {
      var front := writes[..|writes| - 1];
      PendingTail(start, front, n);
      assert front[..n] == writes[..n];
    }
  }

  lemma ChainedKeeps(s: State, key: string, kind: Kind, start: Option<nat>, n: nat)
    requires ChainOk(s, key, n)
    ensures var t := Chained(s, key, kind);
            && ChainOk(t, key, n) && t.failureCounts == s.failureCounts && t.persisted == s.persisted
            && Called(start, WritesOf(t, key)) == Applied(Called(start, WritesOf(s, key)), kind)
            && Effected(start, WritesOf(t, key)) == Effected(start, WritesOf(s, key))
  {
    var t := Chained(s, key, kind);
    assert WritesOf(t, key)[..|WritesOf(s, key)|] == WritesOf(s, key);
  }

  /** A call counted in memory and chained keeps the key in order. */
  lemma CallChained(s: State, u: State, key: string, kind: Kind, start: Option<nat>, n: nat)
    requires KeyOk(s, key, start) && ChainOk(s, key, n)
    requires u == s.(failureCounts := u.failureCounts) && CountOf(u.failureCounts, key) == Applied(CountOf(s.failureCounts, key), kind)
    ensures KeyOk(Chained(u, key, kind), key, start)
  {
    assert ChainOk(u, key, n);
    ChainedKeeps(u, key, kind, start, n);
    assert ChainOk(Chained(u, key, kind), key, n);
  }

  lemma CallKeeps(s: State, step: Step, key: string, start: Option<nat>)
    requires KeyOk(s, key, start) && (step.Fail? || step.Recover?) && step.key == key
    ensures KeyOk(Next(s, step), key, start)
  {
    var n: nat :| ChainOk(s, key, n);
    if step.Fail? {
      var u := s.(failureCounts := s.failureCounts[key := CountOf(s.failureCounts, key).GetOr(0) + 1]);
      CallChained(s, u, key, Increment, start, n);
    } else if CountOf(s.failureCounts, key).GetOr(0) > 0 {
      CallChained(s, s.(failureCounts := s.failureCounts - {key}), key, Clear, start, n);
    }
  }

  lemma {:induction false} EffectedAt(start: Option<nat>, a: seq<Write>, b: seq<Write>, n: nat)
    requires n < |a| == |b| && a[..n] == b[..n] && (forall i :: n < i < |a| ==> !Effective(a[i]) && a[i] == b[i])
    requires !Effective(a[n]) && b[n].kind == a[n].kind
    ensures Effected(start, b) == if Effective(b[n]) then Applied(Effected(start, a), a[n].kind) else Effected(start, a)
  {
    PendingTail(start, a, n);
    PendingTail(start, b, n + 1);
    assert b[..n + 1][..n] == b[..n];
  }

  lemma StartKeeps(s: State, key: string, start: Option<nat>, n: nat)
    requires KeyOk(s, key, start) && ChainOk(s, key, n) && n < |WritesOf(s, key)| && WritesOf(s, key)[n].phase.Waiting?
    ensures KeyOk(InPhase(s, key, n, Running), key, start)
  {
    var t := InPhase(s, key, n, Running);
    PhaseOnly(start, WritesOf(s, key), WritesOf(t, key));
    assert ChainOk(t, key, n);
  }

  lemma LandKeeps(s: State, key: string, start: Option<nat>, n: nat, tookEffect: bool)
    requires KeyOk(s, key, start) && ChainOk(s, key, n) && n < |WritesOf(s, key)| && WritesOf(s, key)[n].phase.Running?
    ensures KeyOk(Landed(s, key, n, tookEffect), key, start)
  {
    var t := Landed(s, key, n, tookEffect);
    PhaseOnly(start, WritesOf(s, key), WritesOf(t, key));
    EffectedAt(start, WritesOf(s, key), WritesOf(t, key), n);
    assert ChainOk(t, key, n);
  }

  lemma FinallyKeeps(s: State, key: string, start: Option<nat>, n: nat)
    requires KeyOk(s, key, start) && ChainOk(s, key, n) && n < |WritesOf(s, key)| && WritesOf(s, key)[n].phase.Settled?
    ensures KeyOk(Finalized(s, key, n), key, start)
  {
    var t := Finalized(s, key, n);
    PhaseOnly(start, WritesOf(s, key), WritesOf(t, key));
    assert ChainOk(t, key, n + 1);
  }

  lemma MoveKeeps(s: State, step: Step, key: string, start: Option<nat>)
    requires KeyOk(s, key, start) && Enabled(s, step) && (step.Start? || step.Land? || step.Finally?) && step.key == key
    ensures KeyOk(Next(s, step), key, start)
  {
    var n: nat :| ChainOk(s, key, n);
    match step
    case Start(_, i) => StartKeeps(s, key, start, n);
    case Land(_, i, tookEffect) => LandKeeps(s, key, start, n, tookEffect);
    case Finally(_, i) => FinallyKeeps(s, key, start, n);
  }

  lemma ElsewhereSame(s: State, step: Step, key: string)
    requires Enabled(s, step) && step.key != key
    ensures var t := Next(s, step);
            && WritesOf(t, key) == WritesOf(s, key) && CountOf(t.failureCounts, key) == CountOf(s.failureCounts, key)
            && CountOf(t.persisted, key) == CountOf(s.persisted, key) && CountOf(t.chain, key) == CountOf(s.chain, key)
  {
  }

  lemma OthersKeep(s: State, step: Step, key: string, start: Option<nat>)
    requires KeyOk(s, key, start) && Enabled(s, step) && step.key != key
    ensures KeyOk(Next(s, step), key, start)
  {
    ElsewhereSame(s, step, key);
    var n: nat :| ChainOk(s, key, n);
    assert ChainOk(Next(s, step), key, n);
  }

  lemma StepKeeps(s: State, step: Step, hydrated: map<string, nat>)
    requires Inv(s, hydrated) && Enabled(s, step)
    ensures Inv(Next(s, step), hydrated)
  {
    forall key ensures KeyOk(Next(s, step), key, CountOf(hydrated, key)) {
      assert KeyOk(s, key, CountOf(hydrated, key));
      if step.key != key {
        OthersKeep(s, step, key, CountOf(hydrated, key));
      } else if step.Fail? || step.Recover? {
        CallKeeps(s, step, key, CountOf(hydrated, key));
      } else {
        MoveKeeps(s, step, key, CountOf(hydrated, key));
      }
    }
  }

  predicate ValidRun(s: State, steps: seq<Step>)
    decreases |steps|
  {
    |steps| == 0 || (Enabled(s, steps[0]) && ValidRun(Next(s, steps[0]), steps[1..]))
  }

  function Run(s: State, steps: seq<Step>): State
    requires ValidRun(s, steps)
    decreases |steps|
  {
    if |steps| == 0 then s else Run(Next(s, steps[0]), steps[1..])
  }

  predicate Hydrated(s: State, counts: map<string, nat>) {
    s.failureCounts == counts && s.persisted == counts && s.chain == map[] && s.writes == map[]
  }

  lemma {:induction false} RunKeeps(s: State, steps: seq<Step>, hydrated: map<string, nat>)
    requires Inv(s, hydrated) && ValidRun(s, steps)
    ensures Inv(Run(s, steps), hydrated)
    decreases |steps|
  {
    if |steps| > 0 {
      StepKeeps(s, steps[0], hydrated);
      RunKeeps(Next(s, steps[0]), steps[1..], hydrated);
    }
  }

  lemma HydratedHolds(s: State, hydrated: map<string, nat>)
    requires Hydrated(s, hydrated)
    ensures Inv(s, hydrated)
  {
    forall key ensures KeyOk(s, key, CountOf(hydrated, key)) {
      assert ChainOk(s, key, 0);
    }
  }

  // ---------------------------------------------------------------- the theorems

  /**
   Over every run, the writes of an action type run one at a time in call order, the chain has an entry exactly while one
   is not over, and the entry is the last of them; the persisted count is that of the effective writes in call order.
   */
  lemma WritesTakeEffectInOrder(s: State, steps: seq<Step>, hydrated: map<string, nat>, key: string)
    requires Hydrated(s, hydrated) && ValidRun(s, steps)
    ensures var t := Run(s, steps);
            var writes := WritesOf(t, key);
            && (forall i, j :: 0 <= i < j < |writes| && !writes[j].phase.Waiting? ==> writes[i].phase.Done?)
            && (key in t.chain <==> exists i :: 0 <= i < |writes| && !writes[i].phase.Done?)
            && (key in t.chain ==> t.chain[key] == |writes| - 1)
            && CountOf(t.persisted, key) == Effected(CountOf(hydrated, key), writes)
            && CountOf(t.failureCounts, key) == Called(CountOf(hydrated, key), writes)
  {
    HydratedHolds(s, hydrated);
    RunKeeps(s, steps, hydrated);
    assert KeyOk(Run(s, steps), key, CountOf(hydrated, key));
  }

  lemma {:induction false} AllEffective(start: Option<nat>, writes: seq<Write>)
    requires forall i :: 0 <= i < |writes| ==> Effective(writes[i])
    ensures Effected(start, writes) == Called(start, writes)
  {
    if |writes| > 0 {
      AllEffective(start, writes[..|writes| - 1]);
    }
  }

  /** With increments only, each write that failed leaves the table one behind. */
  lemma {:induction false} IncrementsOnly(start: Option<nat>, writes: seq<Write>)
    requires forall i :: 0 <= i < |writes| ==> writes[i].kind.Increment?
    ensures Effected(start, writes).GetOr(0) <= Called(start, writes).GetOr(0)
    ensures Effected(start, writes) == Called(start, writes) <==> forall i :: 0 <= i < |writes| ==> Effective(writes[i])
  {
    if |writes| > 0 {
      IncrementsOnly(start, writes[..|writes| - 1]);
    }
  }

  /** From a clear on, both counts start over. */
  lemma {:induction false} FromClear(start: Option<nat>, writes: seq<Write>, c: nat)
    requires c < |writes| && writes[c].kind.Clear? && Effective(writes[c])
    ensures Called(start, writes) == Called(None, writes[c + 1..])
    ensures Effected(start, writes) == Effected(None, writes[c + 1..])
  {
    var front := writes[..|writes| - 1];
    if c == |writes| - 1 {
      assert writes[c + 1..] == [];
    } else {
      FromClear(start, front, c);
      assert writes[c + 1..][..|writes[c + 1..]| - 1] == front[c + 1..];
    }
  }

  predicate Drained(s: State, key: string) {
    key !in s.chain
  }

  /** Drained with no failed write, the persisted count is the one in memory, absent exactly when that is. */
  lemma DrainedAgrees(s: State, steps: seq<Step>, hydrated: map<string, nat>, key: string)
    requires Hydrated(s, hydrated) && ValidRun(s, steps) && Drained(Run(s, steps), key)
    requires forall i :: 0 <= i < |WritesOf(Run(s, steps), key)| ==> Effective(WritesOf(Run(s, steps), key)[i])
    ensures CountOf(Run(s, steps).persisted, key) == CountOf(Run(s, steps).failureCounts, key)
  {
    WritesTakeEffectInOrder(s, steps, hydrated, key);
    AllEffective(CountOf(hydrated, key), WritesOf(Run(s, steps), key));
  }

  /**
   After the last recovery, if its clear took effect, or from the start if there was none, the two counts agree exactly
   when no increment since then failed.
   */
  lemma AgreesIffNoIncrementFailed(s: State, steps: seq<Step>, hydrated: map<string, nat>, key: string, from: nat)
    requires Hydrated(s, hydrated) && ValidRun(s, steps) && Drained(Run(s, steps), key)
    requires var writes := WritesOf(Run(s, steps), key);
             && from <= |writes| && (forall i :: from <= i < |writes| ==> writes[i].kind.Increment?)
             && (from > 0 ==> writes[from - 1].kind.Clear? && Effective(writes[from - 1]))
    ensures CountOf(Run(s, steps).persisted, key) == CountOf(Run(s, steps).failureCounts, key)
       <==> forall i :: from <= i < |WritesOf(Run(s, steps), key)| ==> Effective(WritesOf(Run(s, steps), key)[i])
  {
    WritesTakeEffectInOrder(s, steps, hydrated, key);
    CountsAgreeIff(CountOf(hydrated, key), WritesOf(Run(s, steps), key), from);
  }

  lemma CountsAgreeIff(start: Option<nat>, writes: seq<Write>, from: nat)
    requires from <= |writes| && (forall i :: from <= i < |writes| ==> writes[i].kind.Increment?)
    requires from > 0 ==> writes[from - 1].kind.Clear? && Effective(writes[from - 1])
    ensures Effected(start, writes) == Called(start, writes) <==> forall i :: from <= i < |writes| ==> Effective(writes[i])
  {
    if from > 0 {
      FromClear(start, writes, from - 1);
      IncrementsOnly(None, writes[from..]);
      assert forall i :: from <= i < |writes| ==> writes[from..][i - from] == writes[i];
    } else {
      IncrementsOnly(start, writes);
    }
  }

  // ---------------------------------------------------------------- the chain runs out

  /** The chain's own steps for one action type, every statement taking effect. */
  predicate Moves(step: Step, key: string) {
    step.key == key && !step.Fail? && !step.Recover? && (step.Land? ==> step.tookEffect)
  }

  predicate MovesOnly(steps: seq<Step>, key: string) {
    forall i :: 0 <= i < |steps| ==> Moves(steps[i], key)
  }

  function Rank(phase: Phase): nat {
    match phase
    case Waiting => 3
    case Running => 2
    case Settled(_) => 1
    case Done(_) => 0
  }

  /** The first `n` writes as they were, the rest effective, and the counts in memory untouched. */
  predicate DrainedFrom(s: State, t: State, key: string, n: nat) {
    && t.failureCounts == s.failureCounts && Drained(t, key)
    && |WritesOf(t, key)| == |WritesOf(s, key)|
    && (forall i :: 0 <= i < n && i < |WritesOf(s, key)| ==> WritesOf(t, key)[i] == WritesOf(s, key)[i])
    && (forall i :: n <= i < |WritesOf(s, key)| ==> WritesOf(t, key)[i].kind == WritesOf(s, key)[i].kind && Effective(WritesOf(t, key)[i]))
  }

  /** The first write that is not over, and its next step. */
  function HeadStep(s: State, key: string, n: nat): Step
    requires n < |WritesOf(s, key)|
  {
    match WritesOf(s, key)[n].phase
    case Waiting => Start(key, n)
    case Running => Land(key, n, true)
    case _ => Finally(key, n)
  }

  lemma HeadMoves(s: State, key: string, n: nat)
    requires ChainOk(s, key, n) && n < |WritesOf(s, key)|
    ensures var step := HeadStep(s, key, n);
            && Enabled(s, step) && Moves(step, key)
            && var t := Next(s, step);
               && t.failureCounts == s.failureCounts && |WritesOf(t, key)| == |WritesOf(s, key)|
               && (forall i :: 0 <= i < |WritesOf(s, key)| && i != n ==> WritesOf(t, key)[i] == WritesOf(s, key)[i])
               && WritesOf(t, key)[n].kind == WritesOf(s, key)[n].kind
               && Rank(WritesOf(t, key)[n].phase) < Rank(WritesOf(s, key)[n].phase)
               && (Effective(WritesOf(s, key)[n]) || step.Land? ==> Effective(WritesOf(t, key)[n]))
  {
  }

  lemma HeadKeepsChain(s: State, key: string, n: nat)
    requires ChainOk(s, key, n) && n < |WritesOf(s, key)|
    ensures var step := HeadStep(s, key, n);
            && Enabled(s, step)
            && (step.Finally? ==> ChainOk(Next(s, step), key, n + 1)) && (!step.Finally? ==> ChainOk(Next(s, step), key, n))
  {
  }

  /** A failure is counted and chained; a recovery clears the count and chains its clear, or finds nothing to clear. */
  lemma CallsAreCounted(s: State, key: string)
    ensures CalledOnce(s, Next(s, Fail(key)), key, Increment, Some(CountOf(s.failureCounts, key).GetOr(0) + 1))
    ensures if CountOf(s.failureCounts, key).GetOr(0) > 0 then CalledOnce(s, Next(s, Recover(key)), key, Clear, None)
            else Next(s, Recover(key)) == s
  {
  }

  lemma RunCons(s: State, step: Step, rest: seq<Step>)
    requires Enabled(s, step) && ValidRun(Next(s, step), rest)
    ensures ValidRun(s, [step] + rest) && Run(s, [step] + rest) == Run(Next(s, step), rest)
  {
    assert ([step] + rest)[1..] == rest;
  }

  /** Every write that waits can be run: the chain never stalls. */
  lemma {:induction false} ChainRunsOut(s: State, key: string, n: nat) returns (steps: seq<Step>)
    requires ChainOk(s, key, n)
    requires n < |WritesOf(s, key)| ==> !WritesOf(s, key)[n].phase.Settled? || WritesOf(s, key)[n].phase.tookEffect
    ensures ValidRun(s, steps) && MovesOnly(steps, key) && DrainedFrom(s, Run(s, steps), key, n)
    decreases |WritesOf(s, key)| - n, if n < |WritesOf(s, key)| then Rank(WritesOf(s, key)[n].phase) else 0
  {
    steps := [];
    if n < |WritesOf(s, key)| {
      var step := HeadStep(s, key, n);
      HeadMoves(s, key, n);
      HeadKeepsChain(s, key, n);
      var rest := ChainRunsOut(Next(s, step), key, if step.Finally? then n + 1 else n);
      RunCons(s, step, rest);
      steps := [step] + rest;
    }
  }

  /**
   From every state reached in which no write failed, the outstanding ones can all be run, and then the persisted count
   is the one in memory.
   */
  lemma OutstandingWritesCanLand(s: State, run: seq<Step>, hydrated: map<string, nat>, key: string) returns (steps: seq<Step>)
    requires Hydrated(s, hydrated) && ValidRun(s, run)
    requires forall i :: 0 <= i < |WritesOf(Run(s, run), key)| ==>
               var phase := WritesOf(Run(s, run), key)[i].phase; phase.Waiting? || phase.Running? || Effective(WritesOf(Run(s, run), key)[i])
    ensures ValidRun(Run(s, run), steps) && MovesOnly(steps, key)
    ensures var t := Run(Run(s, run), steps);
            Drained(t, key) && CountOf(t.persisted, key) == CountOf(Run(s, run).failureCounts, key)
  {
    HydratedHolds(s, hydrated);
    RunKeeps(s, run, hydrated);
    var t := Run(s, run);
    assert KeyOk(t, key, CountOf(hydrated, key));
    var n: nat :| ChainOk(t, key, n);
    steps := ChainRunsOut(t, key, n);
    RunKeeps(t, steps, hydrated);
    var end := Run(t, steps);
    assert KeyOk(end, key, CountOf(hydrated, key));
    forall i | 0 <= i < |WritesOf(end, key)| ensures Effective(WritesOf(end, key)[i]) {
      assert i < n ==> WritesOf(end, key)[i] == WritesOf(t, key)[i];
    }
    AllEffective(CountOf(hydrated, key), WritesOf(end, key));
  }
}
