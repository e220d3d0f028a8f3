/** Failure counters of the audit trail: counted in memory, persisted through one chain of writes per action type. */
module AuditCounters {
  import opened Options

  datatype Kind = Increment | Clear

  /**
   The life of a chained write: it waits for the promise before it, runs its statement, settles, and then its `finally`
   callback runs. `TookEffect` says whether its statement changed the table.
   */
  datatype Phase = Waiting | Running | Settled(tookEffect: bool) | Done(effective: bool)

  /** `after` is the promise it was chained on, none when the chain was empty. */
  datatype Write = Write(kind: Kind, after: Option<nat>, phase: Phase)

  /** A promise is its action type and its place among that type's writes. */
  datatype State = State(
    failureCounts: map<string, nat>, chain: map<string, nat>, writes: map<string, seq<Write>>, persisted: map<string, nat>)

  function WritesOf(s: State, key: string): seq<Write> {
    if key in s.writes then s.writes[key] else []
  }

  function CountOf(counts: map<string, nat>, key: string): Option<nat> {
    if key in counts then Some(counts[key]) else None
  }

  /** What a write does to the persisted count, and a call to the one in memory. */
  function Applied(count: Option<nat>, kind: Kind): Option<nat> {
    if kind.Clear? then None else Some(count.GetOr(0) + 1)
  }

  function WithCount(counts: map<string, nat>, key: string, count: Option<nat>): map<string, nat> {
    if count.Some? then counts[key := count.value] else counts - {key}
  }

  function Chained(s: State, key: string, kind: Kind): State {
    var n := |WritesOf(s, key)|;
    s.(writes := s.writes[key := WritesOf(s, key) + [Write(kind, CountOf(s.chain, key), Waiting)]], chain := s.chain[key := n])
  }

  function FailureRecorded(s: State, key: string): State {
    Chained(s.(failureCounts := s.failureCounts[key := CountOf(s.failureCounts, key).GetOr(0) + 1]), key, Increment)
  }

  /** Nothing to do without a count. */
  function RecoveryRecorded(s: State, key: string): State {
    if CountOf(s.failureCounts, key).GetOr(0) == 0 then s
    else Chained(s.(failureCounts := s.failureCounts - {key}), key, Clear)
  }

  function InPhase(s: State, key: string, i: nat, phase: Phase): State
    requires i < |WritesOf(s, key)|
  {
    s.(writes := s.writes[key := WritesOf(s, key)[i := WritesOf(s, key)[i].(phase := phase)]])
  }

  /** `finally`: drop the chain's entry if this promise is still its last. */
  function Finalized(s: State, key: string, i: nat): State
    requires i < |WritesOf(s, key)| && WritesOf(s, key)[i].phase.Settled?
  {
    var t := InPhase(s, key, i, Done(WritesOf(s, key)[i].phase.tookEffect));
    if CountOf(s.chain, key) == Some(i) then t.(chain := t.chain - {key}) else t
  }

  /** A call, by what it leaves: the count in memory as called for, and one more write, chained on the last one under way. */
  ghost predicate CalledOnce(s: State, t: State, key: string, kind: Kind, count: Option<nat>) {
    && CountOf(t.failureCounts, key) == count
    && (forall other :: other != key ==>
          CountOf(t.failureCounts, other) == CountOf(s.failureCounts, other) && WritesOf(t, other) == WritesOf(s, other)
          && CountOf(t.chain, other) == CountOf(s.chain, other))
    && WritesOf(t, key) == WritesOf(s, key) + [Write(kind, CountOf(s.chain, key), Waiting)]
    && CountOf(t.chain, key) == Some(|WritesOf(s, key)|) && t.persisted == s.persisted
  }

  class AuditService {
    var failureCounts: map<string, nat>
    var counterDbWriteChain: map<string, nat>
    var writes: map<string, seq<Write>>
    var persisted: map<string, nat>

    /** Hydrated from the persisted counts. */
    constructor (counts: map<string, nat>)
      ensures Contents() == State(counts, map[], map[], counts)
    {
      failureCounts, counterDbWriteChain, writes, persisted := counts, map[], map[], counts;
    }

    function Contents(): State
      reads this
    {
      State(failureCounts, counterDbWriteChain, writes, persisted)
    }

    method ChainCounterWrite(actionType: string, op: Kind)
      modifies this`counterDbWriteChain, this`writes
      ensures Contents() == Chained(old(Contents()), actionType, op)
    {
      var prev := if actionType in counterDbWriteChain then Some(counterDbWriteChain[actionType]) else None;
      var made := if actionType in writes then writes[actionType] else [];
      var next := |made|;
      writes := writes[actionType := made + [Write(op, prev, Waiting)]];
      counterDbWriteChain := counterDbWriteChain[actionType := next];
    }

    method RecordFailure(actionType: string) returns (count: nat, milestone: bool)
      modifies this`failureCounts, this`counterDbWriteChain, this`writes
      ensures Contents() == FailureRecorded(old(Contents()), actionType)
      ensures CalledOnce(old(Contents()), Contents(), actionType, Increment, Some(CountOf(old(failureCounts), actionType).GetOr(0) + 1))
      ensures CountOf(failureCounts, actionType) == Some(count)
      ensures milestone <==> count == 1 || count == 10 || count == 100 || count == 1000 || count % 50 == 0
    {
      count := (if actionType in failureCounts then failureCounts[actionType] else 0) + 1;
      failureCounts := failureCounts[actionType := count];
      milestone := count in {1, 10, 100, 1000} || count % 50 == 0;
      ChainCounterWrite(actionType, Increment);
    }

    method RecordRecovery(actionType: string)
      modifies this`failureCounts, this`counterDbWriteChain, this`writes
      ensures Contents() == RecoveryRecorded(old(Contents()), actionType)
      ensures if CountOf(old(failureCounts), actionType).GetOr(0) > 0
              then CalledOnce(old(Contents()), Contents(), actionType, Clear, None) else Contents() == old(Contents())
    {
      var previous := if actionType in failureCounts then failureCounts[actionType] else 0;
      if previous == 0 {
        return;
      }
      failureCounts := failureCounts - {actionType};
      ChainCounterWrite(actionType, Clear);
    }

    /** The statement of a running write. */
    method WriteCount(actionType: string, i: nat, tookEffect: bool)
      requires i < |WritesOf(Contents(), actionType)|
      modifies this`persisted, this`writes
      ensures Contents() ==
              var s := old(Contents());
              var t := InPhase(s, actionType, i, Settled(tookEffect));
              if tookEffect then
                t.(persisted := WithCount(s.persisted, actionType, Applied(CountOf(s.persisted, actionType), WritesOf(s, actionType)[i].kind)))
              else t
    {
      var made := writes[actionType];
      if tookEffect {
        if made[i].kind.Clear? {
          persisted := persisted - {actionType};
        } else if actionType in persisted {
          persisted := persisted[actionType := persisted[actionType] + 1];
        } else {
          persisted := persisted[actionType := 1];
        }
      }
      writes := writes[actionType := made[i := made[i].(phase := Settled(tookEffect))]];
    }

    method Finalize(actionType: string, i: nat)
      requires i < |WritesOf(Contents(), actionType)| && WritesOf(Contents(), actionType)[i].phase.Settled?
      modifies this`counterDbWriteChain, this`writes
      ensures Contents() == Finalized(old(Contents()), actionType, i)
    {
      var made := writes[actionType];
      writes := writes[actionType := made[i := made[i].(phase := Done(made[i].phase.tookEffect))]];
      if actionType in counterDbWriteChain && counterDbWriteChain[actionType] == i {
        counterDbWriteChain := counterDbWriteChain - {actionType};
      }
    }
  }
}
