/**
 How large the buffer can grow. A flush that fails puts its buckets back on top of those recorded meanwhile, past the
 buffer's limit, and all of it goes out in one statement the next time.
 */
module LoadBounds {
  import opened Options
  import opened Rendering
  import opened LoadProfile
  import opened LoadRuns

  function Excess(n: nat): nat {
    if n > MAX_BUFFERED_BUCKETS then n - MAX_BUFFERED_BUCKETS else 0
  }

  function FlightExcess(inFlight: seq<seq<Bucket>>): nat {
    if |inFlight| == 0 then 0 else FlightExcess(inFlight[..|inFlight| - 1]) + Excess(|inFlight[|inFlight| - 1]|)
  }

  function TotalExcess(w: World): nat {
    Excess(|w.buffer|) + FlightExcess(w.inFlight)
  }

  lemma {:induction false} FlightExcessConcat(a: seq<seq<Bucket>>, b: seq<seq<Bucket>>)
    ensures FlightExcess(a + b) == FlightExcess(a) + FlightExcess(b)
  {
    if |b| == 0 {
      assert a + b == a;
    } else {
      assert (a + b)[..|a + b| - 1] == a + b[..|b| - 1];
      FlightExcessConcat(a, b[..|b| - 1]);
    }
  }

  lemma FlightExcessWithout(inFlight: seq<seq<Bucket>>, i: nat)
    requires i < |inFlight|
    ensures FlightExcess(inFlight) == Excess(|inFlight[i]|) + FlightExcess(WithoutFlight(inFlight, i))
  {
    var a, b := inFlight[..i], inFlight[i + 1..];
    assert inFlight == a + [inFlight[i]] + b;
    FlightExcessConcat(a + [inFlight[i]], b);
    FlightExcessConcat(a, [inFlight[i]]);
    assert [inFlight[i]][..0] == [];
    FlightExcessConcat(a, b);
  }

  // ---------------------------------------------------------------- sizes

  lemma {:induction false} JoinedKeys(buffer: Buffer, draining: seq<Bucket>)
    ensures JoinedAll(buffer, draining).Keys == buffer.Keys + KeysOf(draining)
    decreases |draining|
  {
    if |draining| > 0 {
      JoinedKeys(Joined(buffer, draining[0]), draining[1..]);
      assert KeysOf(draining) == {draining[0].key} + KeysOf(draining[1..]) by {
        forall k | k in KeysOf(draining) ensures k == draining[0].key || k in KeysOf(draining[1..]) {
          var i :| 0 <= i < |draining| && draining[i].key == k;
          assert i > 0 ==> draining[1..][i - 1].key == k;
        }
        forall k | k in KeysOf(draining[1..]) ensures k in KeysOf(draining) {
          var i :| 0 <= i < |draining[1..]| && draining[1..][i].key == k;
          assert draining[i + 1].key == k;
        }
      }
    }
  }

  lemma {:induction false} KeysCount(draining: seq<Bucket>)
    ensures |KeysOf(draining)| <= |draining|
    ensures KeysDistinct(draining) ==> |KeysOf(draining)| == |draining|
  {
    if |draining| > 0 {
      var front, last := draining[..|draining| - 1], draining[|draining| - 1];
      KeysCount(front);
      assert KeysOf(draining) == KeysOf(front) + {last.key} by {
        forall k | k in KeysOf(draining) ensures k == last.key || k in KeysOf(front) {
          var i :| 0 <= i < |draining| && draining[i].key == k;
          assert i < |front| ==> front[i].key == k;
        }
        forall k | k in KeysOf(front) ensures k in KeysOf(draining) {
          var i :| 0 <= i < |front| && front[i].key == k;
          assert draining[i].key == k;
        }
      }
      if KeysDistinct(draining) {
        assert last.key !in KeysOf(front);
      }
    }
  }

  lemma JoinedSize(buffer: Buffer, draining: seq<Bucket>)
    ensures |JoinedAll(buffer, draining)| == |buffer.Keys + KeysOf(draining)| <= |buffer| + |draining|
  {
    JoinedKeys(buffer, draining);
    KeysCount(draining);
    var after := JoinedAll(buffer, draining);
    assert |after| == |after.Keys| && |buffer| == |buffer.Keys|;
    UnionSize(buffer.Keys, KeysOf(draining));
  }

  lemma UnionSize(a: set<Key>, b: set<Key>)
    ensures |a + b| <= |a| + |b|
  {
    assert a + b == a + (b - a);
    assert b == (b - a) + (b * a);
  }

  lemma DrainSize(buffer: Buffer, draining: seq<Bucket>)
    requires Drains(buffer, draining)
    ensures |draining| == |buffer|
  {
    KeysCount(draining);
    assert |buffer| == |buffer.Keys|;
  }

  // ---------------------------------------------------------------- the bound that holds

  /** The flushes that failed, or seemed to, during a run. */
  function Failures(steps: seq<Step>): nat {
    if |steps| == 0 then 0 else (if steps[0].Fails? || steps[0].ReplyLost? then 1 else 0) + Failures(steps[1..])
  }

  lemma RecordSize(buffer: Buffer, sample: Sample, now: nat)
    requires Accepts(buffer, sample, now)
    ensures var after := Joined(buffer, Single(sample, now));
            && after.Keys == buffer.Keys + {KeyOf(sample, now)}
            && |after| == |buffer| + (if KeyOf(sample, now) in buffer then 0 else 1) && Excess(|after|) == Excess(|buffer|)
  {
    var after := Joined(buffer, Single(sample, now));
    assert after.Keys == buffer.Keys + {KeyOf(sample, now)};
    assert |after| == |after.Keys| && |buffer| == |buffer.Keys|;
  }

  lemma StepExcess(w: World, s: Step)
    requires Enabled(w, s)
    ensures TotalExcess(Next(w, s)) <= TotalExcess(w) + MAX_BUFFERED_BUCKETS * Failures([s])
  {
    assert [s][1..] == [];
    match s
    case Record(sample, now) => if Accepts(w.buffer, sample, now) { RecordSize(w.buffer, sample, now); }
    case Drain(draining) =>
      DrainSize(w.buffer, draining);
      assert (w.inFlight + [draining])[..|w.inFlight|] == w.inFlight;
    case Lands(i) => FlightExcessWithout(w.inFlight, i);
    case Fails(i) =>
      FlightExcessWithout(w.inFlight, i);
      JoinedSize(w.buffer, w.inFlight[i]);
    case ReplyLost(i) =>
      FlightExcessWithout(w.inFlight, i);
      JoinedSize(w.buffer, w.inFlight[i]);
  }

  lemma {:induction false} RunExcess(w: World, steps: seq<Step>)
    requires ValidRun(w, steps)
    ensures TotalExcess(Run(w, steps)) <= TotalExcess(w) + MAX_BUFFERED_BUCKETS * Failures(steps)
    decreases |steps|
  {
    if |steps| > 0 {
      StepExcess(w, steps[0]);
      RunExcess(Next(w, steps[0]), steps[1..]);
      assert [steps[0]][1..] == [];
    }
  }

  /**
   Over every run from a state with nothing in flight and a buffer within its limit, a fresh service or one whose last
   flush landed: with `n` failures since, buffer and flights hold at most `n + 1` times the limit.
   */
  lemma BufferBound(w: World, steps: seq<Step>)
    requires ValidRun(w, steps) && w.inFlight == [] && |w.buffer| <= MAX_BUFFERED_BUCKETS
    ensures |Run(w, steps).buffer| <= MAX_BUFFERED_BUCKETS * (Failures(steps) + 1)
    ensures forall i :: 0 <= i < |Run(w, steps).inFlight| ==> |Run(w, steps).inFlight[i]| <= MAX_BUFFERED_BUCKETS * (Failures(steps) + 1)
    ensures Failures(steps) == 0 ==> forall i :: 0 <= i < |Run(w, steps).inFlight| ==> Fits(Run(w, steps).inFlight[i])
  {
    RunExcess(w, steps);
    var v := Run(w, steps);
    forall i | 0 <= i < |v.inFlight| ensures |v.inFlight[i]| <= MAX_BUFFERED_BUCKETS * (Failures(steps) + 1) {
      FlightExcessWithout(v.inFlight, i);
    }
  }

  /** After a failure the next flush fits its statement if and only if the merged buffer has at most 6,553 keys. */
  lemma RetryFitsIff(w: World, i: nat, draining: seq<Bucket>)
    requires Enabled(w, Fails(i)) && Enabled(Next(w, Fails(i)), Drain(draining))
    ensures Fits(draining) <==> |w.buffer.Keys + KeysOf(w.inFlight[i])| <= 6553
  {
    JoinedSize(w.buffer, w.inFlight[i]);
    DrainSize(Next(w, Fails(i)).buffer, draining);
  }

  // ---------------------------------------------------------------- past the statement's limit

  /** All of these keys are together in the buffer, or together in one flight. */
  predicate Together(w: World, keys: set<Key>) {
    keys <= w.buffer.Keys || exists i :: 0 <= i < |w.inFlight| && keys <= KeysOf(w.inFlight[i])
  }

  lemma FlightStays(inFlight: seq<seq<Bucket>>, i: nat, j: nat)
    requires i < |inFlight| && j < |inFlight| && i != j
    ensures exists k :: 0 <= k < |WithoutFlight(inFlight, i)| && WithoutFlight(inFlight, i)[k] == inFlight[j]
  {
    var k := if j < i then j else j - 1;
    assert WithoutFlight(inFlight, i)[k] == inFlight[j];
  }

  lemma TooManyForOne(draining: seq<Bucket>, keys: set<Key>)
    requires |keys| > 6553 && keys <= KeysOf(draining)
    ensures !Fits(draining)
  {
    KeysCount(draining);
    SubsetSize(keys, KeysOf(draining));
  }

  lemma SubsetSize(a: set<Key>, b: set<Key>)
    requires a <= b
    ensures |a| <= |b|
  {
    assert b == a + (b - a);
  }

  lemma StepKeepsTogether(w: World, s: Step, keys: set<Key>)
    requires Enabled(w, s) && Together(w, keys) && |keys| > 6553
    ensures Together(Next(w, s), keys)
  {
    var v := Next(w, s);
    if s.Fails? || s.ReplyLost? {
      JoinedKeys(w.buffer, w.inFlight[if s.Fails? then s.failing else s.lost]);
    }
    if keys <= w.buffer.Keys {
      if s.Drain? {
        assert v.inFlight[|w.inFlight|] == s.draining;
      }
    } else {
      var j :| 0 <= j < |w.inFlight| && keys <= KeysOf(w.inFlight[j]);
      TooManyForOne(w.inFlight[j], keys);
      match s
      case Record(_, _) => assert v.inFlight[j] == w.inFlight[j];
      case Drain(_) => assert v.inFlight[j] == w.inFlight[j];
      case Lands(i) => FlightStays(w.inFlight, i, j);
      case Fails(i) => if i != j { FlightStays(w.inFlight, i, j); }
      case ReplyLost(i) => FlightStays(w.inFlight, i, j);
    }
  }

  /**
   Past the limit there is no way back: once more than 6,553 keys are together, they stay together over every run, so
   whatever flush carries them is refused.
   */
  lemma {:induction false} OversizedNeverLands(w: World, steps: seq<Step>, keys: set<Key>)
    requires ValidRun(w, steps) && Together(w, keys) && |keys| > 6553
    ensures Together(Run(w, steps), keys)
    ensures forall i :: 0 <= i < |Run(w, steps).inFlight| && keys <= KeysOf(Run(w, steps).inFlight[i]) ==> !Enabled(Run(w, steps), Lands(i))
    decreases |steps|
  {
    if |steps| > 0 {
      StepKeepsTogether(w, steps[0], keys);
      OversizedNeverLands(Next(w, steps[0]), steps[1..], keys);
    } else {
      forall i | 0 <= i < |w.inFlight| && keys <= KeysOf(w.inFlight[i]) ensures !Fits(w.inFlight[i]) {
        TooManyForOne(w.inFlight[i], keys);
      }
    }
  }

  // ---------------------------------------------------------------- one failed flush is enough

  /** A mutation of the `n`th tournament. */
  function Visit(n: nat): Sample {
    Sample("t" + Digits(n), Live, 1, 1, 1, false)
  }

  function VisitKeys(from: nat, count: nat): set<Key> {
    set n | from <= n < from + count :: KeyOf(Visit(n), 0)
  }

  lemma VisitsDiffer(a: nat, b: nat)
    requires KeyOf(Visit(a), 0) == KeyOf(Visit(b), 0)
    ensures a == b
  {
    assert ("t" + Digits(a))[1..] == Digits(a) && ("t" + Digits(b))[1..] == Digits(b);
    DigitsInjective(a, b);
  }

  function Visits(from: nat, count: nat): seq<Step>
    decreases count
  {
    if count == 0 then [] else [Record(Visit(from), 0)] + Visits(from + 1, count - 1)
  }

  /** The state after a run, and that it can be run. */
  predicate Reaches(w: World, steps: seq<Step>, v: World) {
    ValidRun(w, steps) && Run(w, steps) == v
  }

  lemma {:induction false} ReachesConcat(u: World, a: seq<Step>, v: World, b: seq<Step>, w: World)
    requires Reaches(u, a, v) && Reaches(v, b, w)
    ensures Reaches(u, a + b, w)
    decreases |a|
  {
    if |a| == 0 {
      assert a + b == b;
    } else {
      assert (a + b)[1..] == a[1..] + b;
      ReachesConcat(Next(u, a[0]), a[1..], v, b, w);
    }
  }

  function AfterVisit(w: World, n: nat): World {
    Next(w, Record(Visit(n), 0))
  }

  function Visited(w: World, from: nat, count: nat): World
    decreases count
  {
    if count == 0 then w else Visited(AfterVisit(w, from), from + 1, count - 1)
  }

  lemma {:induction false} VisitsReach(w: World, from: nat, count: nat)
    ensures Reaches(w, Visits(from, count), Visited(w, from, count))
    decreases count
  {
    if count > 0 {
      VisitsReach(Next(w, Record(Visit(from), 0)), from + 1, count - 1);
      ReachesCons(w, Record(Visit(from), 0), Visits(from + 1, count - 1), Visited(w, from, count));
    }
  }

  lemma OneVisit(w: World, n: nat)
    ensures AfterVisit(w, n).inFlight == w.inFlight && |AfterVisit(w, n).buffer| <= |w.buffer| + 1
    ensures forall key :: key in w.buffer ==> key in AfterVisit(w, n).buffer
    ensures |w.buffer| < MAX_BUFFERED_BUCKETS ==> KeyOf(Visit(n), 0) in AfterVisit(w, n).buffer
  {
    if Accepts(w.buffer, Visit(n), 0) {
      RecordSize(w.buffer, Visit(n), 0);
    }
  }

  lemma {:induction false} VisitsSize(w: World, from: nat, count: nat)
    ensures Visited(w, from, count).inFlight == w.inFlight && |Visited(w, from, count).buffer| <= |w.buffer| + count
    decreases count
  {
    if count > 0 {
      OneVisit(w, from);
      VisitsSize(AfterVisit(w, from), from + 1, count - 1);
    }
  }

  lemma {:induction false} VisitsKeep(w: World, from: nat, count: nat, key: Key)
    requires key in w.buffer
    ensures key in Visited(w, from, count).buffer
    decreases count
  {
    if count > 0 {
      OneVisit(w, from);
      VisitsKeep(AfterVisit(w, from), from + 1, count - 1, key);
    }
  }

  /** Each visit finds or makes its bucket. */
  lemma {:induction false} VisitsFill(w: World, from: nat, count: nat, n: nat)
    requires |w.buffer| + count <= MAX_BUFFERED_BUCKETS && from <= n < from + count
    ensures KeyOf(Visit(n), 0) in Visited(w, from, count).buffer
    decreases count
  {
    OneVisit(w, from);
    if n == from {
      VisitsKeep(AfterVisit(w, from), from + 1, count - 1, KeyOf(Visit(n), 0));
    } else {
      VisitsFill(AfterVisit(w, from), from + 1, count - 1, n);
    }
  }

  lemma ReachesCons(w: World, s: Step, rest: seq<Step>, v: World)
    requires Enabled(w, s) && Reaches(Next(w, s), rest, v)
    ensures Reaches(w, [s] + rest, v)
  {
    assert ([s] + rest)[1..] == rest;
  }

  lemma VisitsAllFill(w: World, from: nat, count: nat)
    requires |w.buffer| + count <= MAX_BUFFERED_BUCKETS
    ensures var v := Visited(w, from, count);
            && v.inFlight == w.inFlight && |v.buffer| <= |w.buffer| + count && VisitKeys(from, count) <= v.buffer.Keys
            && Reaches(w, Visits(from, count), v)
  {
    VisitsSize(w, from, count);
    VisitsReach(w, from, count);
    forall key | key in VisitKeys(from, count) ensures key in Visited(w, from, count).buffer {
      var n: nat :| from <= n < from + count && KeyOf(Visit(n), 0) == key;
      VisitsFill(w, from, count, n);
    }
  }

  lemma FirstVisit(from: nat, count: nat)
    requires count > 0
    ensures var key := KeyOf(Visit(from), 0);
            VisitKeys(from, count) == {key} + VisitKeys(from + 1, count - 1) && key !in VisitKeys(from + 1, count - 1)
  {
    var key := KeyOf(Visit(from), 0);
    if key in VisitKeys(from + 1, count - 1) {
      var n :| from + 1 <= n < from + count && KeyOf(Visit(n), 0) == key;
      VisitsDiffer(from, n);
    }
  }

  lemma {:induction false} SomeDrain(buffer: Buffer) returns (draining: seq<Bucket>)
    ensures Drains(buffer, draining)
    decreases |buffer.Keys|
  {
    draining := [];
    if buffer.Keys != {} {
      var key :| key in buffer;
      var rest := SomeDrain(buffer - {key});
      Appending(rest, Bucket(key, buffer[key]));
      draining := rest + [Bucket(key, buffer[key])];
    }
  }

  lemma {:induction false} VisitKeysCount(from: nat, count: nat)
    ensures |VisitKeys(from, count)| == count
    decreases count
  {
    if count > 0 {
      var rest := VisitKeys(from + 1, count - 1);
      FirstVisit(from, count);
      VisitKeysCount(from + 1, count - 1);
      assert |{KeyOf(Visit(from), 0)} + rest| == |rest| + 1;
    } else {
      assert VisitKeys(from, count) == {};
    }
  }

  /** The visits of `n` tournaments, a flush that fails, and those of `m` others meanwhile. */
  function FailedFlush(n: nat, draining: seq<Bucket>, m: nat): seq<Step> {
    Visits(0, n) + ([Drain(draining)] + (Visits(n, m) + [Fails(0)]))
  }

  lemma OneFailureJoins(n: nat, m: nat) returns (draining: seq<Bucket>)
    requires 0 < n <= MAX_BUFFERED_BUCKETS && m <= MAX_BUFFERED_BUCKETS
    ensures ValidRun(Fresh(), FailedFlush(n, draining, m)) && Together(Run(Fresh(), FailedFlush(n, draining, m)), VisitKeys(0, n + m))
  {
    var full := Visited(Fresh(), 0, n);
    VisitsAllFill(Fresh(), 0, n);
    draining := SomeDrain(full.buffer);
    var drained := Next(full, Drain(draining));
    var more := Visited(drained, n, m);
    VisitsAllFill(drained, n, m);
    assert more.inFlight == [draining];
    JoinedKeys(more.buffer, draining);
    VisitKeysJoin(n, m);
    OneStep(more, Fails(0));
    OneStep(full, Drain(draining));
    var failed := Next(more, Fails(0));
    ReachesConcat(drained, Visits(n, m), more, [Fails(0)], failed);
    ReachesConcat(full, [Drain(draining)], drained, Visits(n, m) + [Fails(0)], failed);
    ReachesConcat(Fresh(), Visits(0, n), full, [Drain(draining)] + (Visits(n, m) + [Fails(0)]), failed);
  }

  lemma OneStep(w: World, s: Step)
    requires Enabled(w, s)
    ensures Reaches(w, [s], Next(w, s))
  {
    assert [s][1..] == [];
  }

  lemma FailedFlushFailsOnce(n: nat, draining: seq<Bucket>, m: nat)
    ensures Failures(FailedFlush(n, draining, m)) == 1
  {
    VisitsNeverFail(0, n);
    VisitsNeverFail(n, m);
    FailuresConcat(Visits(n, m), [Fails(0)]);
    FailuresConcat([Drain(draining)], Visits(n, m) + [Fails(0)]);
    FailuresConcat(Visits(0, n), [Drain(draining)] + (Visits(n, m) + [Fails(0)]));
  }

  /** From a fresh service, one failed flush can be enough: 5,000 tournaments before it and 1,554 others during it. */
  lemma OneFailureIsEnough() returns (steps: seq<Step>, keys: set<Key>)
    ensures ValidRun(Fresh(), steps) && Failures(steps) == 1 && |keys| > 6553 && Together(Run(Fresh(), steps), keys)
  {
    var n: nat, m: nat := MAX_BUFFERED_BUCKETS, 1554;
    var draining := OneFailureJoins(n, m);
    FailedFlushFailsOnce(n, draining, m);
    VisitKeysCount(0, n + m);
    steps, keys := FailedFlush(n, draining, m), VisitKeys(0, n + m);
  }

  lemma VisitKeysJoin(n: nat, m: nat)
    ensures VisitKeys(0, n) + VisitKeys(n, m) == VisitKeys(0, n + m)
  {
  }

  lemma {:induction false} VisitsNeverFail(from: nat, count: nat)
    ensures Failures(Visits(from, count)) == 0
    decreases count
  {
    if count > 0 {
      assert Visits(from, count)[1..] == Visits(from + 1, count - 1);
      VisitsNeverFail(from + 1, count - 1);
    }
  }

  lemma {:induction false} FailuresConcat(a: seq<Step>, b: seq<Step>)
    ensures Failures(a + b) == Failures(a) + Failures(b)
    decreases |a|
  {
    if |a| == 0 {
      assert a + b == b;
    } else {
      assert (a + b)[1..] == a[1..] + b;
      FailuresConcat(a[1..], b);
    }
  }
}
