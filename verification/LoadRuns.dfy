/** Every sample is accounted for: buffered, in flight or persisted, whatever overlaps and whatever fails. */
module LoadRuns {
  import opened Options
  import opened Rendering
  import opened LoadProfile

  /** `INSERT … ON CONFLICT DO UPDATE` accumulates into the table as a restored drain does into the buffer. */
  type Table = Buffer

  /**
   `accepted` is the history of accepted samples, `duplicated` that of drains whose statement landed although the flush
   was told it failed.
   */
  datatype World = World(
    buffer: Buffer, inFlight: seq<seq<Bucket>>, persisted: Table, accepted: seq<Bucket>, duplicated: seq<Bucket>)

  datatype Step =
    | Record(sample: Sample, now: nat)
    | Drain(draining: seq<Bucket>)
    | Lands(landing: nat)
    | Fails(failing: nat)
    | ReplyLost(lost: nat)

  predicate Enabled(w: World, s: Step) {
    match s
    case Record(_, _) => true
    case Drain(draining) => w.buffer != map[] && Drains(w.buffer, draining)
    case Lands(i) => i < |w.inFlight| && Fits(w.inFlight[i])
    case Fails(i) => i < |w.inFlight|
    case ReplyLost(i) => i < |w.inFlight| && Fits(w.inFlight[i])
  }

  function WithoutFlight(inFlight: seq<seq<Bucket>>, i: nat): seq<seq<Bucket>>
    requires i < |inFlight|
  {
    inFlight[..i] + inFlight[i + 1..]
  }

  function Next(w: World, s: Step): World
    requires Enabled(w, s)
  {
    match s
    case Record(sample, now) =>
      if Accepts(w.buffer, sample, now)
      then w.(buffer := Joined(w.buffer, Single(sample, now)), accepted := w.accepted + [Single(sample, now)]) else w
    case Drain(draining) => w.(buffer := map[], inFlight := w.inFlight + [draining])
    case Lands(i) =>
      w.(inFlight := WithoutFlight(w.inFlight, i), persisted := JoinedAll(w.persisted, w.inFlight[i]))
    case Fails(i) =>
      w.(inFlight := WithoutFlight(w.inFlight, i), buffer := JoinedAll(w.buffer, w.inFlight[i]))
    case ReplyLost(i) =>
      w.(inFlight := WithoutFlight(w.inFlight, i), persisted := JoinedAll(w.persisted, w.inFlight[i]),
         buffer := JoinedAll(w.buffer, w.inFlight[i]), duplicated := w.duplicated + w.inFlight[i])
  }

  // ---------------------------------------------------------------- sums

  function SumOf(buckets: seq<Bucket>, k: Key): Option<Totals> {
    if |buckets| == 0 then None
    else Plus(SumOf(buckets[..|buckets| - 1], k), Share(buckets[|buckets| - 1], k))
  }

  function Share(b: Bucket, k: Key): Option<Totals> {
    if b.key == k then Some(b.totals) else None
  }

  function SumAll(inFlight: seq<seq<Bucket>>, k: Key): Option<Totals> {
    if |inFlight| == 0 then None
    else Plus(SumAll(inFlight[..|inFlight| - 1], k), SumOf(inFlight[|inFlight| - 1], k))
  }

  function At(table: Table, k: Key): Option<Totals> {
    if k in table then Some(table[k]) else None
  }

  /** Everything held about a key, wherever it is. */
  function Held(w: World, k: Key): Option<Totals> {
    Plus(At(w.buffer, k), Plus(SumAll(w.inFlight, k), At(w.persisted, k)))
  }

  predicate Ledger(w: World, k: Key) {
    Held(w, k) == Plus(SumOf(w.accepted, k), SumOf(w.duplicated, k))
  }

  /** `a` has no maximum beyond those of `b`. */
  predicate MaximaWithin(a: Option<Totals>, b: Option<Totals>) {
    a.Some? ==> b.Some? && a.value.maxElapsed <= b.value.maxElapsed && a.value.maxBytes <= b.value.maxBytes
  }

  predicate MaximaCovered(w: World, k: Key) {
    MaximaWithin(SumOf(w.duplicated, k), SumOf(w.accepted, k))
  }

  predicate Positive(buckets: seq<Bucket>) {
    forall i :: 0 <= i < |buckets| ==> buckets[i].totals.mutations > 0
  }

  ghost predicate Inv(w: World) {
    && (forall k :: k in w.buffer ==> w.buffer[k].mutations > 0)
    && (forall i :: 0 <= i < |w.inFlight| ==> KeysDistinct(w.inFlight[i]) && Positive(w.inFlight[i]))
    && Positive(w.duplicated)
    && (forall k :: Ledger(w, k) && MaximaCovered(w, k))
  }

  lemma {:induction false} SumConcat(a: seq<Bucket>, b: seq<Bucket>, k: Key)
    ensures SumOf(a + b, k) == Plus(SumOf(a, k), SumOf(b, k))
  {
    if |b| == 0 {
      assert a + b == a;
    } else {
      assert (a + b)[..|a + b| - 1] == a + b[..|b| - 1];
      SumConcat(a, b[..|b| - 1], k);
      PlusAssociative(SumOf(a, k), SumOf(b[..|b| - 1], k), Share(b[|b| - 1], k));
    }
  }

  lemma {:induction false} SumAllConcat(a: seq<seq<Bucket>>, b: seq<seq<Bucket>>, k: Key)
    ensures SumAll(a + b, k) == Plus(SumAll(a, k), SumAll(b, k))
  {
    if |b| == 0 {
      assert a + b == a;
    } else {
      assert (a + b)[..|a + b| - 1] == a + b[..|b| - 1];
      SumAllConcat(a, b[..|b| - 1], k);
      PlusAssociative(SumAll(a, k), SumAll(b[..|b| - 1], k), SumOf(b[|b| - 1], k));
    }
  }

  lemma SumAllWithout(inFlight: seq<seq<Bucket>>, i: nat, k: Key)
    requires i < |inFlight|
    ensures SumAll(inFlight, k) == Plus(SumOf(inFlight[i], k), SumAll(WithoutFlight(inFlight, i), k))
  {
    var a, b := inFlight[..i], inFlight[i + 1..];
    assert inFlight == a + [inFlight[i]] + b;
    SumAllConcat(a + [inFlight[i]], b, k);
    SumAllConcat(a, [inFlight[i]], k);
    assert [inFlight[i]][..0] == [];
    SumAllConcat(a, b, k);
    PlusCommutative(SumAll(a, k), SumOf(inFlight[i], k));
    PlusAssociative(SumOf(inFlight[i], k), SumAll(a, k), SumAll(b, k));
  }

  lemma {:induction false} SumAbsent(buckets: seq<Bucket>, k: Key)
    ensures SumOf(buckets, k).None? <==> forall i :: 0 <= i < |buckets| ==> buckets[i].key != k
  {
    if |buckets| > 0 {
      SumAbsent(buckets[..|buckets| - 1], k);
    }
  }

  lemma {:induction false} SumPositive(buckets: seq<Bucket>, k: Key)
    requires Positive(buckets)
    ensures SumOf(buckets, k).Some? ==> SumOf(buckets, k).value.mutations > 0
  {
    if |buckets| > 0 {
      SumPositive(buckets[..|buckets| - 1], k);
    }
  }

  lemma {:induction false} JoinedAllHolds(buffer: Buffer, draining: seq<Bucket>, k: Key)
    ensures At(JoinedAll(buffer, draining), k) == Plus(At(buffer, k), SumOf(draining, k))
    decreases |draining|
  {
    if |draining| > 0 {
      var b, rest := draining[0], draining[1..];
      JoinedAllHolds(Joined(buffer, b), rest, k);
      assert draining == [b] + rest;
      SumConcat([b], rest, k);
      PlusAssociative(At(buffer, k), Share(b, k), SumOf(rest, k));
    }
  }

  lemma {:induction false} JoinedAllPositive(buffer: Buffer, draining: seq<Bucket>)
    requires Positive(draining) && forall k :: k in buffer ==> buffer[k].mutations > 0
    ensures forall k :: k in JoinedAll(buffer, draining) ==> JoinedAll(buffer, draining)[k].mutations > 0
    decreases |draining|
  {
    if |draining| > 0 {
      JoinedAllPositive(Joined(buffer, draining[0]), draining[1..]);
    }
  }

  /** Among distinct keys, the sum over a key is its one bucket's share. */
  lemma {:induction false} SumOfDistinct(buckets: seq<Bucket>, i: nat)
    requires KeysDistinct(buckets) && i < |buckets|
    ensures SumOf(buckets, buckets[i].key) == Some(buckets[i].totals)
  {
    var front := buckets[..|buckets| - 1];
    if i == |buckets| - 1 {
      SumAbsent(front, buckets[i].key);
    } else {
      SumOfDistinct(front, i);
    }
  }

  lemma DrainedHolds(buffer: Buffer, draining: seq<Bucket>, k: Key)
    requires Drains(buffer, draining)
    ensures SumOf(draining, k) == At(buffer, k)
  {
    SumAbsent(draining, k);
    if k in buffer {
      assert k in KeysOf(draining);
      var i :| 0 <= i < |draining| && draining[i].key == k;
      SumOfDistinct(draining, i);
    }
  }

  // ---------------------------------------------------------------- steps

  lemma RecordKeeps(w: World, sample: Sample, now: nat, k: Key)
    requires Ledger(w, k) && MaximaCovered(w, k)
    ensures var v := Next(w, Record(sample, now)); Ledger(v, k) && MaximaCovered(v, k)
  {
    if Accepts(w.buffer, sample, now) {
      var b := Single(sample, now);
      var one, rest := Share(b, k), Plus(SumAll(w.inFlight, k), At(w.persisted, k));
      assert (w.accepted + [b])[..|w.accepted|] == w.accepted;
      Exchange(At(w.buffer, k), one, rest);
      Exchange(SumOf(w.accepted, k), one, SumOf(w.duplicated, k));
    }
  }

  lemma Exchange(a: Option<Totals>, b: Option<Totals>, c: Option<Totals>)
    ensures Plus(Plus(a, b), c) == Plus(Plus(a, c), b)
  {
    PlusAssociative(a, b, c);
    PlusCommutative(b, c);
    PlusAssociative(a, c, b);
  }

  lemma DrainKeeps(w: World, draining: seq<Bucket>, k: Key)
    requires Ledger(w, k) && MaximaCovered(w, k) && Enabled(w, Drain(draining))
    ensures var v := Next(w, Drain(draining)); Ledger(v, k) && MaximaCovered(v, k)
  {
    DrainedHolds(w.buffer, draining, k);
    assert (w.inFlight + [draining])[..|w.inFlight|] == w.inFlight;
    var b, f, p := At(w.buffer, k), SumAll(w.inFlight, k), At(w.persisted, k);
    PlusCommutative(f, b);
    PlusAssociative(b, f, p);
  }

  /** What one flight carries can be told from the rest of what is held. */
  lemma HeldWithFlight(w: World, i: nat, k: Key)
    requires i < |w.inFlight|
    ensures Held(w, k) ==
            Plus(SumOf(w.inFlight[i], k), Plus(At(w.buffer, k), Plus(SumAll(WithoutFlight(w.inFlight, i), k), At(w.persisted, k))))
  {
    var b, d, f, p := At(w.buffer, k), SumOf(w.inFlight[i], k), SumAll(WithoutFlight(w.inFlight, i), k), At(w.persisted, k);
    SumAllWithout(w.inFlight, i, k);
    PlusAssociative(d, f, p);
    PlusAssociative(b, d, Plus(f, p));
    PlusCommutative(b, d);
    PlusAssociative(d, b, Plus(f, p));
  }

  lemma FailsKeeps(w: World, i: nat, k: Key)
    requires Ledger(w, k) && MaximaCovered(w, k) && i < |w.inFlight|
    ensures var v := Next(w, Fails(i)); Ledger(v, k) && MaximaCovered(v, k)
  {
    HeldWithFlight(w, i, k);
    JoinedAllHolds(w.buffer, w.inFlight[i], k);
    var b, d := At(w.buffer, k), SumOf(w.inFlight[i], k);
    PlusCommutative(b, d);
    PlusAssociative(d, b, Plus(SumAll(WithoutFlight(w.inFlight, i), k), At(w.persisted, k)));
  }

  lemma LandsKeeps(w: World, i: nat, k: Key)
    requires Ledger(w, k) && MaximaCovered(w, k) && Enabled(w, Lands(i))
    ensures var v := Next(w, Lands(i)); Ledger(v, k) && MaximaCovered(v, k)
  {
    HeldWithFlight(w, i, k);
    JoinedAllHolds(w.persisted, w.inFlight[i], k);
    var b, d, f, p := At(w.buffer, k), SumOf(w.inFlight[i], k), SumAll(WithoutFlight(w.inFlight, i), k), At(w.persisted, k);
    PlusAssociative(f, p, d);
    PlusAssociative(b, Plus(f, p), d);
    PlusCommutative(Plus(b, Plus(f, p)), d);
  }

  lemma LostKeeps(w: World, i: nat, k: Key)
    requires Ledger(w, k) && MaximaCovered(w, k) && Enabled(w, ReplyLost(i))
    ensures var v := Next(w, ReplyLost(i)); Ledger(v, k) && MaximaCovered(v, k)
  {
    var d := SumOf(w.inFlight[i], k);
    LandsKeeps(w, i, k);
    JoinedAllHolds(w.buffer, w.inFlight[i], k);
    SumConcat(w.duplicated, w.inFlight[i], k);
    var f := Plus(SumAll(WithoutFlight(w.inFlight, i), k), At(JoinedAll(w.persisted, w.inFlight[i]), k));
    Exchange(At(w.buffer, k), d, f);
    PlusAssociative(SumOf(w.accepted, k), SumOf(w.duplicated, k), d);
    HeldWithFlight(w, i, k);
    SumWithinBoth(SumOf(w.accepted, k), SumOf(w.duplicated, k), d);
  }

  lemma SumWithinBoth(a: Option<Totals>, b: Option<Totals>, d: Option<Totals>)
    requires MaximaWithin(b, a) && MaximaWithin(d, Plus(a, b))
    ensures MaximaWithin(Plus(b, d), a)
  {
  }

  lemma StepKeepsBuckets(w: World, s: Step)
    requires Inv(w) && Enabled(w, s)
    ensures var v := Next(w, s);
            && (forall q :: q in v.buffer ==> v.buffer[q].mutations > 0)
            && (forall i :: 0 <= i < |v.inFlight| ==> KeysDistinct(v.inFlight[i]) && Positive(v.inFlight[i]))
            && Positive(v.duplicated)
  {
    match s
    case Fails(i) => JoinedAllPositive(w.buffer, w.inFlight[i]);
    case ReplyLost(i) => JoinedAllPositive(w.buffer, w.inFlight[i]);
    case _ =>
  }

  lemma StepKeeps(w: World, s: Step)
    requires Inv(w) && Enabled(w, s)
    ensures Inv(Next(w, s))
  {
    StepKeepsBuckets(w, s);
    forall k ensures Ledger(Next(w, s), k) && MaximaCovered(Next(w, s), k) {
      assert Ledger(w, k) && MaximaCovered(w, k);
      match s
      case Record(sample, now) => RecordKeeps(w, sample, now, k);
      case Drain(draining) => DrainKeeps(w, draining, k);
      case Lands(i) => LandsKeeps(w, i, k);
      case Fails(i) => FailsKeeps(w, i, k);
      case ReplyLost(i) => LostKeeps(w, i, k);
    }
  }

  predicate ValidRun(w: World, steps: seq<Step>)
    decreases |steps|
  {
    |steps| == 0 || (Enabled(w, steps[0]) && ValidRun(Next(w, steps[0]), steps[1..]))
  }

  function Run(w: World, steps: seq<Step>): World
    requires ValidRun(w, steps)
    decreases |steps|
  {
    if |steps| == 0 then w else Run(Next(w, steps[0]), steps[1..])
  }

  function Fresh(): World {
    World(map[], [], map[], [], [])
  }

  lemma {:induction false} RunKeeps(w: World, steps: seq<Step>)
    requires Inv(w) && ValidRun(w, steps)
    ensures Inv(Run(w, steps))
    decreases |steps|
  {
    if |steps| > 0 {
      StepKeeps(w, steps[0]);
      RunKeeps(Next(w, steps[0]), steps[1..]);
    }
  }

  /**
   Over every interleaving of records, overlapping flushes, failures and lost replies, buffered, in-flight and persisted
   totals together are those of the accepted samples plus those of the drains that landed without the flush knowing.
   The maxima are the true ones regardless.
   */
  lemma Conservation(steps: seq<Step>, k: Key)
    requires ValidRun(Fresh(), steps)
    ensures var v := Run(Fresh(), steps);
            && Held(v, k) == Plus(SumOf(v.accepted, k), SumOf(v.duplicated, k))
            && MaximaWithin(Held(v, k), SumOf(v.accepted, k)) && MaximaWithin(SumOf(v.accepted, k), Held(v, k))
  {
    RunKeeps(Fresh(), steps);
    var v := Run(Fresh(), steps);
    assert Ledger(v, k) && MaximaCovered(v, k);
  }

  /** The totals of a key are exact if and only if no drain holding that key landed with its reply lost. */
  lemma ExactIffNoReplyLost(steps: seq<Step>, k: Key)
    requires ValidRun(Fresh(), steps)
    ensures var v := Run(Fresh(), steps);
            Held(v, k) == SumOf(v.accepted, k) <==> forall i :: 0 <= i < |v.duplicated| ==> v.duplicated[i].key != k
  {
    RunKeeps(Fresh(), steps);
    var v := Run(Fresh(), steps);
    assert Ledger(v, k);
    SumAbsent(v.duplicated, k);
    SumPositive(v.duplicated, k);
  }

  /** No multi-row upsert names a row twice, which the statement would refuse. */
  lemma DrainsHaveDistinctKeys(steps: seq<Step>, i: nat)
    requires ValidRun(Fresh(), steps) && i < |Run(Fresh(), steps).inFlight|
    ensures KeysDistinct(Run(Fresh(), steps).inFlight[i])
  {
    RunKeeps(Fresh(), steps);
  }

  // ---------------------------------------------------------------- what was accepted

  /** The samples of a run that find room, in order. */
  function Accepted(w: World, steps: seq<Step>): seq<Bucket>
    requires ValidRun(w, steps)
    decreases |steps|
  {
    if |steps| == 0 then []
    else
      var rest := Accepted(Next(w, steps[0]), steps[1..]);
      if steps[0].Record? && Accepts(w.buffer, steps[0].sample, steps[0].now)
      then [Single(steps[0].sample, steps[0].now)] + rest else rest
  }

  lemma {:induction false} HistoryIsAccepted(w: World, steps: seq<Step>)
    requires ValidRun(w, steps)
    ensures Run(w, steps).accepted == w.accepted + Accepted(w, steps)
    decreases |steps|
  {
    if |steps| > 0 {
      HistoryIsAccepted(Next(w, steps[0]), steps[1..]);
    }
  }

  /** How many of the buckets are of the key, with one mutation each. */
  function SamplesOf(buckets: seq<Bucket>, k: Key): nat {
    if |buckets| == 0 then 0
    else SamplesOf(buckets[..|buckets| - 1], k) + if buckets[|buckets| - 1].key == k then 1 else 0
  }

  predicate Singles(buckets: seq<Bucket>) {
    forall i :: 0 <= i < |buckets| ==> buckets[i].totals.mutations == 1
  }

  lemma {:induction false} SumCountsSamples(buckets: seq<Bucket>, k: Key)
    requires Singles(buckets)
    ensures SamplesOf(buckets, k) == if SumOf(buckets, k).Some? then SumOf(buckets, k).value.mutations else 0
  {
    if |buckets| > 0 {
      SumCountsSamples(buckets[..|buckets| - 1], k);
    }
  }

  lemma {:induction false} AcceptedAreSingles(w: World, steps: seq<Step>)
    requires ValidRun(w, steps)
    ensures Singles(Accepted(w, steps))
    decreases |steps|
  {
    if |steps| > 0 {
      AcceptedAreSingles(Next(w, steps[0]), steps[1..]);
    }
  }

  /**
   Over every run in which no reply is lost, the mutations counted for a tournament, hour and class, wherever they are held,
   are as many as samples of it were accepted.
   */
  lemma EverySampleIsHeld(steps: seq<Step>, k: Key)
    requires ValidRun(Fresh(), steps) && forall i :: 0 <= i < |steps| ==> !steps[i].ReplyLost?
    ensures var held := Held(Run(Fresh(), steps), k);
            SamplesOf(Accepted(Fresh(), steps), k) == if held.Some? then held.value.mutations else 0
  {
    Conservation(steps, k);
    HistoryIsAccepted(Fresh(), steps);
    assert [] + Accepted(Fresh(), steps) == Accepted(Fresh(), steps);
    AcceptedAreSingles(Fresh(), steps);
    SumCountsSamples(Accepted(Fresh(), steps), k);
    NothingDuplicated(Fresh(), steps);
  }

  lemma {:induction false} NothingDuplicated(w: World, steps: seq<Step>)
    requires ValidRun(w, steps) && forall i :: 0 <= i < |steps| ==> !steps[i].ReplyLost?
    ensures Run(w, steps).duplicated == w.duplicated
    decreases |steps|
  {
    if |steps| > 0 {
      NothingDuplicated(Next(w, steps[0]), steps[1..]);
    }
  }

  /** A flush that fits can land, and then everything that was buffered is in the table, added to what was there. */
  lemma FlushPersists(w: World, draining: seq<Bucket>, k: Key)
    requires Enabled(w, Drain(draining)) && Fits(draining)
    ensures var drained := Next(w, Drain(draining));
            && Enabled(drained, Lands(|w.inFlight|))
            && var v := Next(drained, Lands(|w.inFlight|));
               && v.buffer == map[] && v.inFlight == w.inFlight
               && At(v.persisted, k) == Plus(At(w.persisted, k), At(w.buffer, k))
  {
    var drained := Next(w, Drain(draining));
    assert drained.inFlight[|w.inFlight|] == draining;
    assert drained.inFlight[..|w.inFlight|] + drained.inFlight[|w.inFlight| + 1..] == w.inFlight;
    JoinedAllHolds(w.persisted, draining, k);
    DrainedHolds(w.buffer, draining, k);
  }
}
