/** Per-tournament load telemetry: samples buffered in buckets and flushed to a table that accumulates them. */
module LoadProfile {
  import opened Options
  import opened Rendering
  import Postgres

  const MAX_BUFFERED_BUCKETS := 5000
  const PARAMS_PER_BUCKET := 10

  datatype LifecycleClass = Archive | Construction | Live | Unknown

  datatype Key = Key(tournamentId: string, bucketStart: nat, lifecycleClass: LifecycleClass)

  /** Counts add up; the maxima start at zero. */
  datatype Totals = Totals(
    mutations: nat, methods: int, elapsed: int, maxElapsed: nat, bytes: int, maxBytes: nat, fenced: nat)

  datatype Bucket = Bucket(key: Key, totals: Totals)

  datatype Sample = Sample(
    tournamentId: string, lifecycleClass: LifecycleClass, methodCount: int, elapsedMs: int, recordBytes: int, fenced: bool)

  const ZERO := Totals(0, 0, 0, 0, 0, 0, 0)

  const MS_PER_HOUR := 3600000

  function Max(a: int, b: int): int {
    if a < b then b else a
  }

  function Merge(a: Totals, b: Totals): Totals {
    Totals(a.mutations + b.mutations, a.methods + b.methods, a.elapsed + b.elapsed, Max(a.maxElapsed, b.maxElapsed),
           a.bytes + b.bytes, Max(a.maxBytes, b.maxBytes), a.fenced + b.fenced)
  }

  /** Totals of a key that may have none. */
  function Plus(a: Option<Totals>, b: Option<Totals>): Option<Totals> {
    if a.None? then b else if b.None? then a else Some(Merge(a.value, b.value))
  }

  lemma PlusAssociative(a: Option<Totals>, b: Option<Totals>, c: Option<Totals>)
    ensures Plus(Plus(a, b), c) == Plus(a, Plus(b, c))
  {
  }

  lemma PlusCommutative(a: Option<Totals>, b: Option<Totals>)
    ensures Plus(a, b) == Plus(b, a)
  {
  }

  function ClassName(c: LifecycleClass): (s: string)
    ensures NoBar(s)
  {
    match c
    case Archive => "archive"
    case Construction => "construction"
    case Live => "live"
    case Unknown => "unknown"
  }

  function Render(k: Key): string {
    k.tournamentId + "|" + Digits(k.bucketStart) + "|" + ClassName(k.lifecycleClass)
  }

  /** The rendered key tells its three parts apart whatever the id contains: the `Map` it keys is one keyed by the parts. */
  lemma RenderInjective(a: Key, b: Key)
    requires Render(a) == Render(b)
    ensures a == b
  {
    JoinInjective(a.tournamentId + "|" + Digits(a.bucketStart), ClassName(a.lifecycleClass),
                  b.tournamentId + "|" + Digits(b.bucketStart), ClassName(b.lifecycleClass));
    assert NoBar(Digits(a.bucketStart)) && NoBar(Digits(b.bucketStart));
    JoinInjective(a.tournamentId, Digits(a.bucketStart), b.tournamentId, Digits(b.bucketStart));
    DigitsInjective(a.bucketStart, b.bucketStart);
  }

  type Buffer = map<Key, Totals>

  function KeyOf(sample: Sample, now: nat): Key {
    Key(sample.tournamentId, now / MS_PER_HOUR * MS_PER_HOUR, sample.lifecycleClass)
  }

  /** What one sample adds. */
  function Single(sample: Sample, now: nat): Bucket {
    Bucket(KeyOf(sample, now), Totals(1, sample.methodCount, sample.elapsedMs, Max(0, sample.elapsedMs),
                                      sample.recordBytes, Max(0, sample.recordBytes), if sample.fenced then 1 else 0))
  }

  /** The bucket's fields after one more sample. */
  function Counted(t: Totals, sample: Sample): Totals {
    Totals(t.mutations + 1, t.methods + sample.methodCount, t.elapsed + sample.elapsedMs, Max(t.maxElapsed, sample.elapsedMs),
           t.bytes + sample.recordBytes, Max(t.maxBytes, sample.recordBytes), t.fenced + if sample.fenced then 1 else 0)
  }

  lemma CountedMerges(t: Totals, sample: Sample, now: nat)
    ensures Counted(t, sample) == Merge(t, Single(sample, now).totals)
    ensures Counted(ZERO, sample) == Single(sample, now).totals
  {
  }

  predicate Accepts(buffer: Buffer, sample: Sample, now: nat) {
    sample.tournamentId != "" && (KeyOf(sample, now) in buffer || |buffer| < MAX_BUFFERED_BUCKETS)
  }

  predicate Drops(buffer: Buffer, sample: Sample, now: nat) {
    sample.tournamentId != "" && !Accepts(buffer, sample, now)
  }

  /** Add a bucket to the buffer, merging it with the one already there. */
  function Joined(buffer: Buffer, b: Bucket): Buffer {
    buffer[b.key := if b.key in buffer then Merge(buffer[b.key], b.totals) else b.totals]
  }

  function JoinedAll(buffer: Buffer, draining: seq<Bucket>): Buffer
    decreases |draining|
  {
    if |draining| == 0 then buffer else JoinedAll(Joined(buffer, draining[0]), draining[1..])
  }

  function KeysOf(draining: seq<Bucket>): set<Key> {
    set i | 0 <= i < |draining| :: draining[i].key
  }

  /** `[...buckets.values()]`, in whatever order. */
  predicate Drains(buffer: Buffer, draining: seq<Bucket>) {
    && KeysOf(draining) == buffer.Keys
    && (forall i :: 0 <= i < |draining| ==> draining[i].key in buffer && draining[i].totals == buffer[draining[i].key])
    && KeysDistinct(draining)
  }

  predicate KeysDistinct(draining: seq<Bucket>) {
    forall i, j :: 0 <= i < j < |draining| ==> draining[i].key != draining[j].key
  }

  /** What a key held, by field; nothing when it held nothing. */
  function TotalsOf(buffer: Buffer, key: Key): Totals {
    if key in buffer then buffer[key] else Totals(0, 0, 0, 0, 0, 0, 0)
  }

  /** A sample counted, by what it leaves: its fields added to the bucket of its tournament, class and hour, and to no other. */
  ghost predicate CountedIn(buffer: Buffer, after: Buffer, sample: Sample, now: nat) {
    exists start: nat ::
      var key := Key(sample.tournamentId, start, sample.lifecycleClass);
      var was, held := TotalsOf(buffer, key), TotalsOf(after, key);
      && start % 3600000 == 0 && start <= now < start + 3600000
      && key in after && after - {key} == buffer - {key}
      && held.mutations == was.mutations + 1 && held.methods == was.methods + sample.methodCount
      && held.elapsed == was.elapsed + sample.elapsedMs && held.bytes == was.bytes + sample.recordBytes
      && held.fenced == was.fenced + (if sample.fenced then 1 else 0)
      && held.maxElapsed == (if sample.elapsedMs > was.maxElapsed then sample.elapsedMs else was.maxElapsed)
      && held.maxBytes == (if sample.recordBytes > was.maxBytes then sample.recordBytes else was.maxBytes)
  }

  lemma SampleIsCounted(buffer: Buffer, sample: Sample, now: nat)
    requires Accepts(buffer, sample, now)
    ensures CountedIn(buffer, Joined(buffer, Single(sample, now)), sample, now)
  {
    var key := KeyOf(sample, now);
    var after := Joined(buffer, Single(sample, now));
    HourOf(now);
    assert key == Key(sample.tournamentId, key.bucketStart, sample.lifecycleClass);
    assert after - {key} == buffer - {key};
  }

  lemma HourOf(now: nat)
    ensures var start := now / MS_PER_HOUR * MS_PER_HOUR; start % 3600000 == 0 && start <= now < start + 3600000
  {
  }

  /** A sample is refused only without a tournament, or when the buffer is full of other buckets. */
  lemma AcceptedIff(buffer: Buffer, sample: Sample, now: nat)
    ensures Accepts(buffer, sample, now) <==>
            sample.tournamentId != ""
            && (|buffer| < 5000
                || exists key :: key in buffer && key.tournamentId == sample.tournamentId && key.lifecycleClass == sample.lifecycleClass
                                 && key.bucketStart % 3600000 == 0 && key.bucketStart <= now < key.bucketStart + 3600000)
    ensures Drops(buffer, sample, now) <==> sample.tournamentId != "" && !Accepts(buffer, sample, now)
  {
    HourOf(now);
    var key := KeyOf(sample, now);
    assert key.tournamentId == sample.tournamentId && key.lifecycleClass == sample.lifecycleClass;
    if other :| other in buffer && other.tournamentId == sample.tournamentId && other.lifecycleClass == sample.lifecycleClass
                && other.bucketStart % 3600000 == 0 && other.bucketStart <= now < other.bucketStart + 3600000 {
      OneHour(other.bucketStart, key.bucketStart, now);
      assert other == key;
    }
  }

  lemma OneHour(a: nat, b: nat, now: nat)
    requires a % 3600000 == 0 && a <= now < a + 3600000 && b % 3600000 == 0 && b <= now < b + 3600000
    ensures a == b
  {
  }

  /** The one statement that writes them is accepted. */
  predicate Fits(draining: seq<Bucket>) {
    PARAMS_PER_BUCKET * |draining| <= Postgres.MAX_BIND_PARAMS
  }

  lemma Appending(before: seq<Bucket>, b: Bucket)
    requires KeysDistinct(before) && b.key !in KeysOf(before)
    ensures KeysOf(before + [b]) == KeysOf(before) + {b.key} && KeysDistinct(before + [b])
  {
    var after := before + [b];
    assert forall i :: 0 <= i < |before| ==> before[i].key in KeysOf(before);
    assert after[|before|].key == b.key;
    forall k | k in KeysOf(before) ensures k in KeysOf(after) {
      var i :| 0 <= i < |before| && before[i].key == k;
      assert after[i].key == k;
    }
  }

  class LoadProfileService {
    var buckets: Buffer
    var flushFailures: nat
    var droppedSamples: nat

    constructor ()
      ensures buckets == map[] && flushFailures == 0 && droppedSamples == 0
    {
      buckets, flushFailures, droppedSamples := map[], 0, 0;
    }

    method Record(sample: Sample, now: nat)
      modifies this`buckets, this`droppedSamples
      ensures buckets == if Accepts(old(buckets), sample, now) then Joined(old(buckets), Single(sample, now)) else old(buckets)
      ensures droppedSamples == old(droppedSamples) + if Drops(old(buckets), sample, now) then 1 else 0
      ensures |buckets| <= Max(|old(buckets)|, MAX_BUFFERED_BUCKETS)
      ensures Accepts(old(buckets), sample, now) ==> CountedIn(old(buckets), buckets, sample, now)
    {
      if Accepts(buckets, sample, now) {
        SampleIsCounted(buckets, sample, now);
      }
      if sample.tournamentId == "" {
        return;
      }
      var key := KeyOf(sample, now);
      if key !in buckets {
        if |buckets| >= MAX_BUFFERED_BUCKETS {
          droppedSamples := droppedSamples + 1;
          return;
        }
        buckets := buckets[key := ZERO];
      }
      var t := buckets[key];
      var counted := Counted(t, sample);
      CountedMerges(t, sample, now);
      buckets := buckets[key := counted];
      assert buckets.Keys == old(buckets).Keys + {key};
    }

    /** The first half of `flush`: take everything out. */
    method Drain() returns (draining: seq<Bucket>)
      modifies this`buckets
      ensures buckets == map[] && Drains(old(buckets), draining)
    {
      draining := [];
      var left := buckets.Keys;
      while left != {}
        invariant buckets == old(buckets)
        invariant left <= buckets.Keys && KeysOf(draining) == buckets.Keys - left
        invariant forall i :: 0 <= i < |draining| ==>
                    draining[i].key in buckets && draining[i].totals == buckets[draining[i].key]
        invariant KeysDistinct(draining)
        decreases |left|
      {
        var key :| key in left;
        ghost var before := draining;
        draining := draining + [Bucket(key, buckets[key])];
        left := left - {key};
        Appending(before, Bucket(key, buckets[key]));
      }
      assert left == {};
      buckets := map[];
    }

    /** The second half, when the write failed: put everything back. */
    method FlushFailed(draining: seq<Bucket>)
      modifies this`buckets, this`flushFailures
      ensures buckets == JoinedAll(old(buckets), draining) && flushFailures == old(flushFailures) + 1
    {
      flushFailures := flushFailures + 1;
      for i := 0 to |draining|
        invariant JoinedAll(buckets, draining[i..]) == JoinedAll(old(buckets), draining)
        invariant flushFailures == old(flushFailures) + 1
      {
        var bucket := draining[i];
        assert draining[i..][0] == bucket && draining[i..][1..] == draining[i + 1..];
        if bucket.key in buckets {
          var current := buckets[bucket.key];
          buckets := buckets[bucket.key := Merge(current, bucket.totals)];
        } else {
          buckets := buckets[bucket.key := bucket.totals];
        }
      }
    }

    /** The second half, when it landed. */
    method FlushSucceeded()
      modifies this`flushFailures, this`droppedSamples
      ensures flushFailures == 0
      ensures droppedSamples == if old(flushFailures) > 0 then 0 else old(droppedSamples)
    {
      if flushFailures > 0 {
        flushFailures := 0;
        droppedSamples := 0;
      }
    }
  }
}
