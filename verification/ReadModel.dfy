/**
 The read model as the projection-queue consumer builds it.

 CFS is the single writer of `projection_queue`; the consumer drains it in `seq` order and applies each row by the
 rules stated beside `ProjectionDelta`. Every rule acts on one row at a time, so a replay is written here as what
 happens to ONE row identity: absent or present with its columns.
 */
module ReadModel {
  import opened Options

  type Columns = map<string, string>

  /** A row of a read table: the table and the row's primary key. */
  datatype RowId = RowId(table: string, key: Columns)

  datatype DeltaOp = Upsert | Delete | Update | SnapshotBegin | SnapshotEnd

  /** `row_key`: a primary key or equality filter, or the span a marker belongs to. */
  datatype Key = Filter(columns: Columns) | Span(spanId: string)

  /** `row_data`: the columns written, the tables a span purges, or the number of rows a span must have. */
  datatype Payload = Row(columns: Columns) | PurgeScope(tables: set<string>) | BodyCount(deltaCount: nat)

  datatype ProjectionDelta = ProjectionDelta(
    tournamentId: string,
    op: DeltaOp,
    table: string,
    key: Key,
    row: Option<Payload>,
    topic: Option<string>,
    snapshotId: Option<string>
  )

  const TABLE_TOURNAMENTS := "tournaments"
  const TABLE_MATCH_UPS := "match_ups"
  const TABLE_MATCH_UP_COMPETITORS := "match_up_competitors"
  const TABLE_TOURNAMENT_DISCOVERY := "tournament_discovery"
  const TABLE_PUBLIC_PARTICIPANTS := "public_participants"

  const SNAPSHOT_OWNED_TABLES: set<string> := {
    TABLE_TOURNAMENTS, "events", "draws", "structures", "seeds", "order_of_play", "scheduling_profile",
    "participant_publish", TABLE_MATCH_UPS, "entries", "courts", "tournament_venues"
  }

  /** The two request mechanisms, and the read tables each one's spans replace. `venues` belongs to neither. */
  datatype Region = Snapshot | Documents

  predicate Owns(region: Region, table: string) {
    match region
    case Snapshot =>
      table in SNAPSHOT_OWNED_TABLES || table == TABLE_MATCH_UP_COMPETITORS || table == TABLE_TOURNAMENT_DISCOVERY
    case Documents => table == TABLE_PUBLIC_PARTICIPANTS
  }

  function OwnedTables(region: Region): set<string> {
    match region
    case Snapshot => SNAPSHOT_OWNED_TABLES
    case Documents => {TABLE_PUBLIC_PARTICIPANTS}
  }

  predicate Matches(row: Columns, filter: Columns) {
    forall c :: c in filter ==> c in row && row[c] == filter[c]
  }

  /**
   What one queue row does to the read row `id`. An upsert merges its columns into the row with that primary key, a
   delete removes matching rows, an update sets columns on matching rows. Deleting the `tournaments` row cascades to
   every table a record snapshot owns.
   */
  function Effect(d: ProjectionDelta, id: RowId, v: Option<Columns>): Option<Columns> {
    if !d.key.Filter? then v else
    match d.op
    case Upsert =>
      if d.row.Some? && d.row.value.Row? && id == RowId(d.table, d.key.columns)
      then Some(v.GetOr(map[]) + d.row.value.columns) else v
    case Delete =>
      if d.table == TABLE_TOURNAMENTS then (if Owns(Snapshot, id.table) then None else v)
      else if v.Some? && id.table == d.table && Matches(v.value, d.key.columns) then None else v
    case Update =>
      if d.row.Some? && d.row.value.Row? && v.Some? && id.table == d.table && Matches(v.value, d.key.columns)
      then Some(v.value + d.row.value.columns) else v
    case SnapshotBegin => v
    case SnapshotEnd => v
  }

  function Column(v: Option<Columns>, c: string): Option<string> {
    if v.Some? && c in v.value then Some(v.value[c]) else None
  }

  /** A read row matches a filter when it has each of the filter's columns at its value. */
  predicate Chosen(d: ProjectionDelta, id: RowId, v: Option<Columns>) {
    d.key.Filter? && id.table == d.table && forall c :: c in d.key.columns ==> Column(v, c) == Some(d.key.columns[c])
  }

  /** An upsert reaches one row and creates it, an update those chosen and creates none; both set the columns they name. */
  lemma WritesSetColumns(d: ProjectionDelta, id: RowId, v: Option<Columns>, c: string)
    requires d.key.Filter? && d.row.Some? && d.row.value.Row? && (d.op.Upsert? || d.op.Update?)
    ensures var after, reached := Effect(d, id, v),
                if d.op.Upsert? then id == RowId(d.table, d.key.columns) else v.Some? && Chosen(d, id, v);
            && (after.Some? <==> v.Some? || (reached && d.op.Upsert?))
            && Column(after, c) == if reached && c in d.row.value.columns then Some(d.row.value.columns[c]) else Column(v, c)
  {
  }

  /** A delete takes the rows chosen, of `tournaments` with everything a snapshot owns, and leaves the others as they are. */
  lemma DeletesTakeRows(d: ProjectionDelta, id: RowId, v: Option<Columns>)
    requires d.key.Filter? && d.op.Delete?
    ensures d.table != TABLE_TOURNAMENTS ==> Effect(d, id, v) == if Chosen(d, id, v) then None else v
    ensures d.table == TABLE_TOURNAMENTS ==> Effect(d, id, v) == if Owns(Snapshot, id.table) then None else v
  {
  }

  function Apply(ds: seq<ProjectionDelta>, id: RowId, v: Option<Columns>): Option<Columns> {
    if |ds| == 0 then v else Effect(ds[|ds| - 1], id, Apply(ds[..|ds| - 1], id, v))
  }

  /** `match_up_competitors` and `tournament_discovery` are purged by cascade from a parent in the scope. */
  predicate Purges(tables: set<string>, table: string) {
    || table in tables
    || (table == TABLE_MATCH_UP_COMPETITORS && TABLE_MATCH_UPS in tables)
    || (table == TABLE_TOURNAMENT_DISCOVERY && TABLE_TOURNAMENTS in tables)
  }

  function Purged(begin: ProjectionDelta, id: RowId, v: Option<Columns>): Option<Columns> {
    if begin.row.Some? && begin.row.value.PurgeScope? && Purges(begin.row.value.tables, id.table) then None else v
  }

  predicate Ends(d: ProjectionDelta, tid: string, spanId: string, count: nat) {
    d.tournamentId == tid && d.op == SnapshotEnd && d.key == Span(spanId) && d.row == Some(BodyCount(count))
  }

  /** The rows of a span, selected by its id rather than by the range between its markers. */
  function Body(q: seq<ProjectionDelta>, tid: string, spanId: string): seq<ProjectionDelta> {
    if |q| == 0 then []
    else
      var rest := Body(q[..|q| - 1], tid, spanId);
      var d := q[|q| - 1];
      if d.tournamentId == tid && d.snapshotId == Some(spanId) then rest + [d] else rest
  }

  /** The end marker is there and counts exactly the rows found: a truncated span is not applied. */
  predicate Complete(q: seq<ProjectionDelta>, tid: string, spanId: string) {
    exists i :: 0 <= i < |q| && Ends(q[i], tid, spanId, |Body(q, tid, spanId)|)
  }

  /**
   The consumer at one queue row of tournament `tid`. A whole span is one transaction at its begin marker: purge, then
   every row of the span. Its rows do nothing at their own position.
   */
  function Consume(q: seq<ProjectionDelta>, tid: string, d: ProjectionDelta, id: RowId, v: Option<Columns>)
    : Option<Columns>
  {
    if d.op == SnapshotBegin && d.key.Span? then
      if Complete(q, tid, d.key.spanId) then Apply(Body(q, tid, d.key.spanId), id, Purged(d, id, v)) else v
    else if d.snapshotId.Some? then v
    else Effect(d, id, v)
  }

  function ReplayPrefix(q: seq<ProjectionDelta>, n: nat, tid: string, id: RowId): Option<Columns>
    requires n <= |q|
  {
    if n == 0 then None
    else
      var v := ReplayPrefix(q, n - 1, tid, id);
      if q[n - 1].tournamentId != tid then v else Consume(q, tid, q[n - 1], id, v)
  }

  /** What the read model holds for row `id` of tournament `tid` once the whole queue is drained. */
  function Replay(q: seq<ProjectionDelta>, tid: string, id: RowId): Option<Columns> {
    ReplayPrefix(q, |q|, tid, id)
  }

  // ---------------------------------------------------------------- appending to the queue

  lemma {:induction false} ApplyConcat(a: seq<ProjectionDelta>, b: seq<ProjectionDelta>, id: RowId, v: Option<Columns>)
    ensures Apply(a + b, id, v) == Apply(b, id, Apply(a, id, v))
  {
    if |b| == 0 {
      assert a + b == a;
    } else {
      assert (a + b)[..|a + b| - 1] == a + b[..|b| - 1];
      ApplyConcat(a, b[..|b| - 1], id, v);
    }
  }

  lemma {:induction false} BodyConcat(a: seq<ProjectionDelta>, b: seq<ProjectionDelta>, tid: string, spanId: string)
    ensures Body(a + b, tid, spanId) == Body(a, tid, spanId) + Body(b, tid, spanId)
  {
    if |b| == 0 {
      assert a + b == a;
    } else {
      assert (a + b)[..|a + b| - 1] == a + b[..|b| - 1];
      BodyConcat(a, b[..|b| - 1], tid, spanId);
    }
  }

  lemma {:induction false} BodyEmpty(q: seq<ProjectionDelta>, tid: string, spanId: string)
    requires forall d :: d in q ==> d.snapshotId != Some(spanId)
    ensures Body(q, tid, spanId) == []
  {
    if |q| > 0 {
      BodyEmpty(q[..|q| - 1], tid, spanId);
    }
  }

  lemma {:induction false} BodyWhole(q: seq<ProjectionDelta>, tid: string, spanId: string)
    requires forall d :: d in q ==> d.tournamentId == tid && d.snapshotId == Some(spanId)
    ensures Body(q, tid, spanId) == q
  {
    if |q| > 0 {
      BodyWhole(q[..|q| - 1], tid, spanId);
    }
  }

  /** A row that neither carries the span's id nor is one of its markers. */
  predicate Outside(d: ProjectionDelta, spanId: string) {
    d.snapshotId != Some(spanId) && d.key != Span(spanId)
  }

  /** No row of `ds` belongs to a span already in `q`: span ids are fresh UUIDs. */
  predicate FreshFor(q: seq<ProjectionDelta>, ds: seq<ProjectionDelta>) {
    forall i, j :: 0 <= i < |q| && 0 <= j < |ds| && q[i].key.Span? ==> Outside(ds[j], q[i].key.spanId)
  }

  lemma SpanUntouchedByAppend(q: seq<ProjectionDelta>, ds: seq<ProjectionDelta>, tid: string, spanId: string)
    requires forall d :: d in ds ==> Outside(d, spanId)
    ensures Body(q + ds, tid, spanId) == Body(q, tid, spanId)
    ensures Complete(q + ds, tid, spanId) == Complete(q, tid, spanId)
  {
    BodyConcat(q, ds, tid, spanId);
    BodyEmpty(ds, tid, spanId);
    var count := |Body(q, tid, spanId)|;
    if Complete(q, tid, spanId) {
      var i :| 0 <= i < |q| && Ends(q[i], tid, spanId, count);
      assert Ends((q + ds)[i], tid, spanId, count);
    }
    if Complete(q + ds, tid, spanId) {
      assert forall j :: 0 <= j < |ds| ==> ds[j] in ds && (q + ds)[|q| + j] == ds[j];
      var i :| 0 <= i < |q + ds| && Ends((q + ds)[i], tid, spanId, count);
      assert i < |q|;
      assert Ends(q[i], tid, spanId, count);
    }
  }

  /** Queue rows already drained mean the same after fresh rows are appended. */
  lemma {:induction false} PrefixStable(q: seq<ProjectionDelta>, ds: seq<ProjectionDelta>, n: nat, tid: string, id: RowId)
    requires n <= |q| && FreshFor(q, ds)
    ensures ReplayPrefix(q + ds, n, tid, id) == ReplayPrefix(q, n, tid, id)
  {
    if n > 0 {
      PrefixStable(q, ds, n - 1, tid, id);
      var d := q[n - 1];
      assert (q + ds)[n - 1] == d;
      if d.key.Span? {
        forall e | e in ds ensures Outside(e, d.key.spanId) {
          var j :| 0 <= j < |ds| && ds[j] == e;
          assert q[n - 1].key.Span?;
        }
        SpanUntouchedByAppend(q, ds, tid, d.key.spanId);
      }
    }
  }

  lemma {:induction false} ForeignSuffix(q: seq<ProjectionDelta>, n: nat, m: nat, tid: string, id: RowId)
    requires n <= m <= |q|
    requires forall i :: n <= i < m ==> q[i].tournamentId != tid
    ensures ReplayPrefix(q, m, tid, id) == ReplayPrefix(q, n, tid, id)
    decreases m
  {
    if n < m {
      ForeignSuffix(q, n, m - 1, tid, id);
    }
  }

  /** Another tournament's rows leave this tournament's read rows alone. */
  lemma ReplayForeign(q: seq<ProjectionDelta>, ds: seq<ProjectionDelta>, tid: string, id: RowId)
    requires FreshFor(q, ds)
    requires forall d :: d in ds ==> d.tournamentId != tid
    ensures Replay(q + ds, tid, id) == Replay(q, tid, id)
  {
    PrefixStable(q, ds, |q|, tid, id);
    forall i | |q| <= i < |q + ds| ensures (q + ds)[i].tournamentId != tid {
      assert (q + ds)[i] == ds[i - |q|];
    }
    ForeignSuffix(q + ds, |q|, |q + ds|, tid, id);
  }

  predicate Incremental(d: ProjectionDelta, tid: string) {
    d.tournamentId == tid && d.snapshotId.None? && d.key.Filter?
  }

  /** Incremental rows are applied in order on top of what was there. */
  lemma {:induction false} ReplayIncremental(q: seq<ProjectionDelta>, ds: seq<ProjectionDelta>, tid: string, id: RowId)
    requires forall d :: d in ds ==> Incremental(d, tid)
    ensures Replay(q + ds, tid, id) == Apply(ds, id, Replay(q, tid, id))
  {
    if |ds| == 0 {
      assert q + ds == q;
    } else {
      var front, last := ds[..|ds| - 1], ds[|ds| - 1];
      assert last in ds;
      ReplayIncremental(q, front, tid, id);
      assert q + ds == (q + front) + [last];
      assert FreshFor(q + front, [last]);
      PrefixStable(q + front, [last], |q + front|, tid, id);
    }
  }

  /** A begin marker, its rows, its end marker: one wholesale replace of the region's tables. */
  function SpanOf(tid: string, region: Region, spanId: string, body: seq<ProjectionDelta>): seq<ProjectionDelta> {
    [ProjectionDelta(tid, SnapshotBegin, TABLE_TOURNAMENTS, Span(spanId), Some(PurgeScope(OwnedTables(region))), None, None)]
    + body
    + [ProjectionDelta(tid, SnapshotEnd, TABLE_TOURNAMENTS, Span(spanId), Some(BodyCount(|body|)), None, None)]
  }

  predicate BodyRow(d: ProjectionDelta, tid: string, spanId: string) {
    d.tournamentId == tid && d.snapshotId == Some(spanId) && d.key.Filter?
  }

  lemma {:induction false} TaggedSuffix(q: seq<ProjectionDelta>, n: nat, m: nat, tid: string, id: RowId)
    requires n <= m <= |q|
    requires forall i :: n <= i < m ==> q[i].tournamentId == tid && q[i].op != SnapshotBegin && (q[i].snapshotId.Some? || q[i].op == SnapshotEnd)
    ensures ReplayPrefix(q, m, tid, id) == ReplayPrefix(q, n, tid, id)
    decreases m
  {
    if n < m {
      TaggedSuffix(q, n, m - 1, tid, id);
    }
  }

  lemma SpanFresh(q: seq<ProjectionDelta>, tid: string, region: Region, spanId: string, body: seq<ProjectionDelta>)
    requires forall d :: d in body ==> BodyRow(d, tid, spanId) && d.op != SnapshotBegin
    requires forall d :: d in q ==> Outside(d, spanId)
    ensures FreshFor(q, SpanOf(tid, region, spanId, body))
  {
    var span := SpanOf(tid, region, spanId, body);
    forall i, j | 0 <= i < |q| && 0 <= j < |span| && q[i].key.Span? ensures Outside(span[j], q[i].key.spanId) {
      assert q[i] in q;
      if 1 <= j <= |body| {
        assert span[j] == body[j - 1];
      }
    }
  }

  /** Appended whole, a span is found whole. */
  lemma SpanComplete(q: seq<ProjectionDelta>, tid: string, region: Region, spanId: string, body: seq<ProjectionDelta>)
    requires forall d :: d in body ==> BodyRow(d, tid, spanId)
    requires forall d :: d in q ==> Outside(d, spanId)
    ensures Body(q + SpanOf(tid, region, spanId, body), tid, spanId) == body
    ensures Complete(q + SpanOf(tid, region, spanId, body), tid, spanId)
  {
    var span := SpanOf(tid, region, spanId, body);
    var begin, end := span[0], span[|span| - 1];
    assert span == [begin] + body + [end];
    BodyConcat(q, span, tid, spanId);
    BodyEmpty(q, tid, spanId);
    BodyConcat([begin] + body, [end], tid, spanId);
    BodyConcat([begin], body, tid, spanId);
    BodyWhole(body, tid, spanId);
    BodyEmpty([begin], tid, spanId);
    BodyEmpty([end], tid, spanId);
    var all := q + span;
    assert all[|all| - 1] == end;
    assert Ends(all[|all| - 1], tid, spanId, |body|);
  }

  lemma SpanPurges(tid: string, region: Region, spanId: string, body: seq<ProjectionDelta>, id: RowId, v: Option<Columns>)
    ensures Purged(SpanOf(tid, region, spanId, body)[0], id, v) == if Owns(region, id.table) then None else v
  {
  }

  /** A span cut short anywhere, its end marker missing, does nothing at all. */
  lemma CutSpanDoesNothing(q: seq<ProjectionDelta>, tid: string, region: Region, spanId: string, body: seq<ProjectionDelta>, k: nat, id: RowId)
    requires forall d :: d in body ==> BodyRow(d, tid, spanId) && d.op != SnapshotBegin
    requires forall d :: d in q ==> Outside(d, spanId)
    requires k < |SpanOf(tid, region, spanId, body)|
    ensures Replay(q + SpanOf(tid, region, spanId, body)[..k], tid, id) == Replay(q, tid, id)
  {
    var cut := SpanOf(tid, region, spanId, body)[..k];
    var all := q + cut;
    SpanFresh(q, tid, region, spanId, body);
    PrefixStable(q, cut, |q|, tid, id);
    if k > 0 {
      forall i | 0 <= i < |all| ensures i > |q| ==> BodyRow(all[i], tid, spanId) && all[i].op != SnapshotBegin
                                ensures all[i].op == SnapshotEnd ==> all[i].key != Span(spanId) {
        if i < |q| {
          assert all[i] in q;
        } else if i > |q| {
          assert all[i] == body[i - |q| - 1];
        }
      }
      assert !Complete(all, tid, spanId);
      TaggedSuffix(all, |q| + 1, |all|, tid, id);
    }
  }

  /** A span purges its region and then applies exactly its own rows. */
  lemma ReplaySpan(q: seq<ProjectionDelta>, tid: string, region: Region, spanId: string, body: seq<ProjectionDelta>, id: RowId)
    requires forall d :: d in body ==> BodyRow(d, tid, spanId) && d.op != SnapshotBegin
    requires forall d :: d in q ==> Outside(d, spanId)
    ensures Replay(q + SpanOf(tid, region, spanId, body), tid, id)
         == Apply(body, id, if Owns(region, id.table) then None else Replay(q, tid, id))
  {
    var span := SpanOf(tid, region, spanId, body);
    var all := q + span;
    SpanFresh(q, tid, region, spanId, body);
    PrefixStable(q, span, |q|, tid, id);
    SpanComplete(q, tid, region, spanId, body);
    SpanPurges(tid, region, spanId, body, id, Replay(q, tid, id));
    assert all[|q|] == span[0];
    forall i | |q| + 1 <= i < |all|
      ensures all[i].tournamentId == tid && all[i].op != SnapshotBegin && (all[i].snapshotId.Some? || all[i].op == SnapshotEnd)
    {
      if i < |all| - 1 {
        assert all[i] == body[i - |q| - 1];
      }
    }
    TaggedSuffix(all, |q| + 1, |all|, tid, id);
  }
}
