/** The Postgres writer of `projection_queue` and of the two request tables. */
module OutboxStorage {
  import opened Options
  import opened ReadModel
  import opened OutboxTables
  import opened Postgres

  const MAX_DELTAS_PER_STATEMENT := 5_000
  const PARAMS_PER_DELTA := 7

  datatype Param = Text(text: string) | OpName(op: DeltaOp) | KeyJson(key: Key) | RowJson(row: Payload) | Null

  /** `$n` placeholders grouped per row, and the values they index from 1. */
  datatype Statement = Statement(valueGroups: seq<seq<nat>>, params: seq<Param>)

  function OptionalText(value: Option<string>): Param {
    if value.Some? then Text(value.value) else Null
  }

  /** A delta's own seven values, in column order. */
  function Values(d: ProjectionDelta): seq<Param> {
    [Text(d.tournamentId), OpName(d.op), Text(d.table), KeyJson(d.key),
     if d.row.Some? then RowJson(d.row.value) else Null, OptionalText(d.topic), OptionalText(d.snapshotId)]
  }

  predicate InRange(st: Statement, g: nat)
    requires g < |st.valueGroups|
  {
    forall k :: 0 <= k < |st.valueGroups[g]| ==> 1 <= st.valueGroups[g][k] <= |st.params|
  }

  /** The values the placeholders of row `g` select. */
  function Bound(st: Statement, g: nat): seq<Param>
    requires g < |st.valueGroups| && InRange(st, g)
  {
    seq(|st.valueGroups[g]|, k requires 0 <= k < |st.valueGroups[g]| => st.params[st.valueGroups[g][k] - 1])
  }

  /** The queue row seven bound values make, when they have the columns' types. */
  function RowOf(v: seq<Param>): Option<ProjectionDelta> {
    if |v| == PARAMS_PER_DELTA && v[0].Text? && v[1].OpName? && v[2].Text? && v[3].KeyJson?
       && (v[4].RowJson? || v[4].Null?) && (v[5].Text? || v[5].Null?) && (v[6].Text? || v[6].Null?)
    then Some(ProjectionDelta(v[0].text, v[1].op, v[2].text, v[3].key,
                              if v[4].RowJson? then Some(v[4].row) else None,
                              if v[5].Text? then Some(v[5].text) else None,
                              if v[6].Text? then Some(v[6].text) else None))
    else None
  }

  /** The statement inserts exactly these rows, in this order. */
  predicate Inserts(st: Statement, rows: seq<ProjectionDelta>) {
    && |st.valueGroups| == |rows|
    && forall g :: 0 <= g < |rows| ==> InRange(st, g) && RowOf(Bound(st, g)) == Some(rows[g])
  }

  lemma OwnValues(st: Statement, g: nat, d: ProjectionDelta)
    requires g < |st.valueGroups| && PARAMS_PER_DELTA * (g + 1) <= |st.params|
    requires st.valueGroups[g] == seq(PARAMS_PER_DELTA, k => PARAMS_PER_DELTA * g + 1 + k)
    requires st.params[PARAMS_PER_DELTA * g..PARAMS_PER_DELTA * (g + 1)] == Values(d)
    ensures InRange(st, g) && RowOf(Bound(st, g)) == Some(d)
  {
    assert Bound(st, g) == Values(d);
  }

  /** Each row's placeholders select that row's own values, so the statement inserts the chunk and nothing else. */
  method BuildInsert(chunk: seq<ProjectionDelta>) returns (st: Statement)
    ensures |st.params| == PARAMS_PER_DELTA * |chunk|
    ensures Inserts(st, chunk)
  {
    var valueGroups: seq<seq<nat>> := [];
    var params: seq<Param> := [];
    for i := 0 to |chunk|
      invariant |valueGroups| == i && |params| == PARAMS_PER_DELTA * i
      invariant forall g :: 0 <= g < i ==> valueGroups[g] == seq(PARAMS_PER_DELTA, k => PARAMS_PER_DELTA * g + 1 + k)
      invariant forall g :: 0 <= g < i ==> params[PARAMS_PER_DELTA * g..PARAMS_PER_DELTA * (g + 1)] == Values(chunk[g])
    {
      var base := |params|;
      valueGroups := valueGroups + [[base + 1, base + 2, base + 3, base + 4, base + 5, base + 6, base + 7]];
      ghost var before := params;
      params := params + Values(chunk[i]);
      forall g | 0 <= g < i
        ensures params[PARAMS_PER_DELTA * g..PARAMS_PER_DELTA * (g + 1)] == Values(chunk[g])
      {
        assert params[PARAMS_PER_DELTA * g..PARAMS_PER_DELTA * (g + 1)]
            == before[PARAMS_PER_DELTA * g..PARAMS_PER_DELTA * (g + 1)];
      }
    }
    st := Statement(valueGroups, params);
    forall g | 0 <= g < |chunk| ensures InRange(st, g) && RowOf(Bound(st, g)) == Some(chunk[g]) {
      OwnValues(st, g, chunk[g]);
    }
  }

  /** The rows a run of statements inserts, in order. */
  ghost predicate InsertAll(statements: seq<Statement>, rows: seq<ProjectionDelta>) {
    if |statements| == 0 then rows == []
    else
      var last := statements[|statements| - 1];
      var n := |last.valueGroups|;
      && n <= |rows|
      && InsertAll(statements[..|statements| - 1], rows[..|rows| - n])
      && Inserts(last, rows[|rows| - n..])
  }

  lemma InsertAllLast(sent: seq<Statement>, rows: seq<ProjectionDelta>, start: nat)
    requires |sent| > 0 && start <= |rows|
    requires InsertAll(sent[..|sent| - 1], rows[..start]) && Inserts(sent[|sent| - 1], rows[start..])
    ensures InsertAll(sent, rows)
  {
  }

  predicate WithinLimit(statements: seq<Statement>) {
    forall i :: 0 <= i < |statements| ==> |statements[i].params| <= 35_000 < MAX_BIND_PARAMS
  }

  lemma AppendNothing(t: Tables, deltas: seq<ProjectionDelta>)
    requires deltas == []
    ensures Appended(t, deltas) == t
  {
    assert t.queue + deltas == t.queue;
  }

  lemma AppendTwice(t: Tables, a: seq<ProjectionDelta>, b: seq<ProjectionDelta>)
    ensures Appended(Appended(t, a), b) == Appended(t, a + b)
  {
    assert t.queue + a + b == t.queue + (a + b);
  }

  /** How many statements a span of `n` deltas takes. */
  function StatementsFor(n: nat): nat {
    (n + MAX_DELTAS_PER_STATEMENT - 1) / MAX_DELTAS_PER_STATEMENT
  }

  function EndOf(start: nat, n: nat): nat {
    if start + MAX_DELTAS_PER_STATEMENT < n then start + MAX_DELTAS_PER_STATEMENT else n
  }

  /** None of the statements the span takes is refused. */
  predicate AllInserted(deltas: seq<ProjectionDelta>, fails: set<nat>) {
    forall k :: k in fails ==> k >= StatementsFor(|deltas|)
  }

  /**
   The span in as many statements as it needs. `fails` names the statements the database refuses; the first of them
   ends the call, and the caller's transaction decides what survives.
   */
  method InsertChunks(client: Session<Tables>, deltas: seq<ProjectionDelta>, fails: set<nat>)
    returns (ok: bool, sent: seq<Statement>)
    requires client.Open()
    modifies client
    ensures client.committed == old(client.committed) && client.savepoints == old(client.savepoints)
    ensures client.work.Some? && client.aborted == !ok
    ensures ok ==> client.work == Some(Appended(old(client.work.value), deltas))
    ensures ok ==> InsertAll(sent, deltas)
    ensures ok == AllInserted(deltas, fails)
    ensures WithinLimit(sent)
  {
    ok, sent := true, [];
    var start := 0;
    ghost var first := client.work.value;
    AppendNothing(first, deltas[..0]);
    while start < |deltas|
      invariant client.Open() && client.committed == old(client.committed) && client.savepoints == old(client.savepoints)
      invariant ok && Counted(start, |deltas|, |sent|) && NoneRefused(fails, |sent|)
      invariant client.work.value == Appended(first, deltas[..start])
      invariant SentChunks(sent, deltas) && WithinLimit(sent)
      decreases |deltas| - start
    {
      var end := EndOf(start, |deltas|);
      OneMoreStatement(start, |deltas|, |sent|);
      var chunk := deltas[start..end];
      var st := BuildInsert(chunk);
      ok := client.Execute(Appended(client.work.value, chunk), |sent| in fails);
      if !ok {
        return;
      }
      OneMoreAppended(first, deltas, start, end);
      assert chunk == ChunkAt(deltas, |sent|);
      OneMoreAt(sent, st, Chunk(deltas));
      OneMoreWithin(sent, st);
      sent := sent + [st];
      start := end;
    }
    assert deltas[..start] == deltas;
    ChunksInsertAll(sent, deltas);
  }

  /** So many statements have taken the first `start` of `n` deltas. */
  predicate Counted(start: nat, n: nat, sent: nat) {
    start <= n && sent == StatementsFor(start) && (start < n ==> start == MAX_DELTAS_PER_STATEMENT * sent)
  }

  predicate NoneRefused(fails: set<nat>, sent: nat) {
    forall k :: k in fails ==> k >= sent
  }

  lemma OneMoreStatement(start: nat, n: nat, sent: nat)
    requires start < n && Counted(start, n, sent)
    ensures sent < StatementsFor(n) && Counted(EndOf(start, n), n, sent + 1)
    ensures start < EndOf(start, n) && EndOf(start, n) - start <= MAX_DELTAS_PER_STATEMENT
  {
  }

  lemma OneMoreAppended(first: Tables, deltas: seq<ProjectionDelta>, start: nat, end: nat)
    requires start <= end <= |deltas|
    ensures Appended(Appended(first, deltas[..start]), deltas[start..end]) == Appended(first, deltas[..end])
  {
    AppendTwice(first, deltas[..start], deltas[start..end]);
    assert deltas[..end] == deltas[..start] + deltas[start..end];
  }

  lemma OneMoreWithin(sent: seq<Statement>, st: Statement)
    requires WithinLimit(sent) && |st.params| <= 35_000
    ensures WithinLimit(sent + [st])
  {
  }

  /** The deltas of the `i`th statement. */
  function ChunkAt(deltas: seq<ProjectionDelta>, i: nat): seq<ProjectionDelta> {
    var start := MAX_DELTAS_PER_STATEMENT * i;
    if start < |deltas| then deltas[start..EndOf(start, |deltas|)] else []
  }

  function Chunk(deltas: seq<ProjectionDelta>): (Statement, nat) -> bool {
    (st: Statement, i: nat) => Inserts(st, ChunkAt(deltas, i))
  }

  predicate EachAt<T>(s: seq<T>, p: (T, nat) -> bool) {
    forall i :: 0 <= i < |s| ==> p(s[i], i)
  }

  /** The `i`th statement inserts the `i`th chunk. */
  predicate SentChunks(sent: seq<Statement>, deltas: seq<ProjectionDelta>) {
    EachAt(sent, Chunk(deltas))
  }

  lemma OneMoreAt<T>(s: seq<T>, x: T, p: (T, nat) -> bool)
    requires EachAt(s, p) && p(x, |s|)
    ensures EachAt(s + [x], p)
  {
  }

  /** One after the other, the chunks are the deltas. */
  lemma {:induction false} ChunksInsertAll(sent: seq<Statement>, deltas: seq<ProjectionDelta>)
    requires |sent| <= StatementsFor(|deltas|) && SentChunks(sent, deltas)
    ensures InsertAll(sent, deltas[..TakenBy(|sent|, |deltas|)])
    decreases |sent|
  {
    var n := |sent|;
    if n > 0 {
      var start, rows := TakenBy(n - 1, |deltas|), deltas[..TakenBy(n, |deltas|)];
      ButLast(sent, Chunk(deltas));
      ChunksInsertAll(sent[..n - 1], deltas);
      ChunkIs(deltas, n);
      assert Chunk(deltas)(sent[n - 1], n - 1);
      assert rows[..start] == deltas[..start] && rows[start..] == ChunkAt(deltas, n - 1);
      InsertAllLast(sent, rows, start);
    }
  }

  lemma ButLast<T>(s: seq<T>, p: (T, nat) -> bool)
    requires |s| > 0 && EachAt(s, p)
    ensures EachAt(s[..|s| - 1], p)
  {
  }

  lemma ChunkIs(deltas: seq<ProjectionDelta>, n: nat)
    requires 0 < n <= StatementsFor(|deltas|)
    ensures var start, end := TakenBy(n - 1, |deltas|), TakenBy(n, |deltas|);
            start <= end <= |deltas| && ChunkAt(deltas, n - 1) == deltas[start..end]
  {
    ChunkEnds(n, |deltas|);
  }

  function TakenBy(n: nat, count: nat): (taken: nat)
    ensures taken <= count
  {
    if MAX_DELTAS_PER_STATEMENT * n < count then MAX_DELTAS_PER_STATEMENT * n else count
  }

  lemma ChunkEnds(n: nat, count: nat)
    requires 0 < n <= StatementsFor(count)
    ensures TakenBy(n - 1, count) == MAX_DELTAS_PER_STATEMENT * (n - 1) < count
    ensures TakenBy(n, count) == EndOf(TakenBy(n - 1, count), count)
    ensures TakenBy(StatementsFor(count), count) == count
  {
  }

  /** Where an enqueue runs: on a caller's transaction, inside a durable command, or in a transaction of its own. */
  datatype Context = Given | Borrowed | Own

  method Enqueue(client: Session<Tables>, context: Context, deltas: seq<ProjectionDelta>, fails: set<nat>, fate: CommitFate)
    returns (ok: bool)
    requires if context.Own? then client.Idle() else client.Open()
    modifies client
    // in its own transaction: the whole span or nothing, whatever statement fails
    ensures ok == (|deltas| == 0 || (AllInserted(deltas, fails) && (context.Own? ==> fate.Lands?)))
    ensures context.Own? ==> client.Idle()
    ensures context.Own? ==>
              client.committed == if AllInserted(deltas, fails) && !fate.Fails? then Appended(old(client.committed), deltas) else old(client.committed)
    // inside a command: the whole span or nothing, and the command's earlier writes and its transaction survive
    ensures context.Borrowed? ==> client.Open() && client.committed == old(client.committed)
    ensures context.Borrowed? ==> client.work == if ok then Some(Appended(old(client.work.value), deltas)) else old(client.work)
    ensures context.Given? ==> client.committed == old(client.committed)
    ensures context.Given? && ok ==> client.Open() && client.work == Some(Appended(old(client.work.value), deltas))
    ensures context.Given? && !ok ==> client.aborted
    ensures fails == {} && (context.Own? ==> fate.Lands?) ==>
              ok && client.Visible().queue == old(client.Visible().queue) + deltas
  {
    if |deltas| == 0 {
      AppendNothing(client.Visible(), deltas);
      return true;
    }
    var sent;
    if context.Given? {
      ok, sent := InsertChunks(client, deltas, fails);
    } else if context.Borrowed? {
      var defined := client.Savepoint();
      ok, sent := InsertChunks(client, deltas, fails);
      if ok {
        client.ReleaseSavepoint();
      } else {
        client.RollbackToSavepoint();
      }
    } else {
      client.Begin();
      ok, sent := InsertChunks(client, deltas, fails);
      if ok {
        ok := client.Commit(fate);
      } else {
        client.Rollback();
      }
    }
  }

  /** Record that these tournaments need a span, on the save's own connection or in a statement of its own. */
  method Request(
    client: Session<Tables>, context: Context, region: Region, tournamentIds: seq<string>, source: string, fails: bool)
    returns (ok: bool)
    requires if context.Own? then client.Idle() else client.Open()
    modifies client
    ensures ok == (RequestedIds(tournamentIds) == {} || !fails)
    ensures context.Own? ==> client.Idle()
    ensures context.Own? ==>
              client.committed == if ok then Requested(old(client.committed), region, tournamentIds, source) else old(client.committed)
    ensures context.Borrowed? ==> client.Open() && client.committed == old(client.committed)
    ensures context.Borrowed? ==>
              client.work == if ok then Some(Requested(old(client.work.value), region, tournamentIds, source)) else old(client.work)
    ensures context.Given? && ok ==> client.Open() && client.work == Some(Requested(old(client.work.value), region, tournamentIds, source))
  {
    if RequestedIds(tournamentIds) == {} {
      return true;
    }
    if context.Borrowed? {
      var defined := client.Savepoint();
      ok := client.Execute(Requested(client.Visible(), region, tournamentIds, source), fails);
      if ok {
        client.ReleaseSavepoint();
      } else {
        client.RollbackToSavepoint();
      }
    } else {
      ok := client.Execute(Requested(client.Visible(), region, tournamentIds, source), fails);
    }
  }

  /** No statement of a fenced insert is refused. */
  predicate FenceRuns(
    t: Tables, tournamentId: string, updatedAt: Option<nat>, deltas: seq<ProjectionDelta>, fenceFails: bool, fails: set<nat>)
  {
    !fenceFails && (Fence(t, tournamentId, updatedAt).Enqueued? ==> AllInserted(deltas, fails))
  }

  /**
   The fence: `SELECT … FOR SHARE`, then the span only if the record is the one read. The share lock makes a save of
   this tournament wait for the calling transaction, so nothing comes between the comparison and the rows.
   */
  method FencedInsertRows(
    client: Session<Tables>, tournamentId: string, updatedAt: Option<nat>, deltas: seq<ProjectionDelta>,
    fenceFails: bool, fails: set<nat>)
    returns (ok: bool, outcome: FencedEnqueueResult)
    requires client.Open()
    modifies client
    ensures client.committed == old(client.committed) && client.work.Some? && client.aborted == !ok
    ensures ok == FenceRuns(old(client.work.value), tournamentId, updatedAt, deltas, fenceFails, fails)
    ensures ok ==> outcome == Fence(old(client.work.value), tournamentId, updatedAt)
    ensures ok ==> client.work == Some(FencedInsert(old(client.work.value), tournamentId, updatedAt, deltas))
  {
    outcome := Fence(client.work.value, tournamentId, updatedAt);
    ok := client.Execute(client.work.value, fenceFails);
    if ok && outcome.Enqueued? {
      var sent;
      ok, sent := InsertChunks(client, deltas, fails);
    }
  }

  /** `enqueueIfUnchanged`: the fence and the deltas in one transaction. */
  method EnqueueIfUnchanged(
    client: Session<Tables>, tournamentId: string, updatedAt: Option<nat>, deltas: seq<ProjectionDelta>,
    fenceFails: bool, fails: set<nat>, fate: CommitFate)
    returns (ok: bool, outcome: FencedEnqueueResult)
    requires client.Idle()
    modifies client
    ensures client.Idle()
    ensures ok == (FenceRuns(old(client.committed), tournamentId, updatedAt, deltas, fenceFails, fails) && fate.Lands?)
    ensures ok ==> outcome == Fence(old(client.committed), tournamentId, updatedAt)
    ensures client.committed
         == if FenceRuns(old(client.committed), tournamentId, updatedAt, deltas, fenceFails, fails) && !fate.Fails?
            then FencedInsert(old(client.committed), tournamentId, updatedAt, deltas)
            else old(client.committed)
    ensures !fenceFails && fails == {} && fate.Lands? ==>
              && ok
              && (outcome.Enqueued? <==>
                    tournamentId in old(client.committed.tournaments)
                    && Some(old(client.committed.tournaments)[tournamentId].updatedAt) == updatedAt)
              && client.committed == old(client.committed).(
                   queue := if outcome.Enqueued? then old(client.committed.queue) + deltas else old(client.committed.queue))
  {
    FenceTells(client.committed, tournamentId, updatedAt, deltas);
    client.Begin();
    ok, outcome := FencedInsertRows(client, tournamentId, updatedAt, deltas, fenceFails, fails);
    if ok {
      ok := client.Commit(fate);
    } else {
      client.Rollback();
    }
  }

  predicate CompletionRuns(
    t: Tables, tournamentId: string, updatedAt: Option<nat>, deltas: seq<ProjectionDelta>, fenceFails: bool, fails: set<nat>,
    deleteFails: bool)
  {
    && FenceRuns(t, tournamentId, updatedAt, deltas, fenceFails, fails)
    && (Fence(t, tournamentId, updatedAt).Changed? || !deleteFails)
  }

  /** The producer's commit: the fence, the span, and the deletion of the request it served, all or nothing. */
  method Complete(
    client: Session<Tables>, region: Region, tournamentId: string, requestedAt: nat, updatedAt: Option<nat>,
    deltas: seq<ProjectionDelta>, fenceFails: bool, fails: set<nat>, deleteFails: bool, fate: CommitFate)
    returns (ok: bool, outcome: FencedEnqueueResult)
    requires client.Idle()
    modifies client
    ensures client.Idle()
    ensures ok ==> outcome == Fence(old(client.committed), tournamentId, updatedAt)
    ensures ok == (CompletionRuns(old(client.committed), tournamentId, updatedAt, deltas, fenceFails, fails, deleteFails) && fate.Lands?)
    ensures client.committed
         == if CompletionRuns(old(client.committed), tournamentId, updatedAt, deltas, fenceFails, fails, deleteFails) && !fate.Fails?
            then Completed(old(client.committed), region, tournamentId, requestedAt, updatedAt, deltas)
            else old(client.committed)
    ensures !fenceFails && fails == {} && !deleteFails && fate.Lands? ==>
              ok && Served(old(client.committed), client.committed, region, tournamentId, requestedAt, updatedAt, deltas)
  {
    CompletionServes(client.committed, region, tournamentId, requestedAt, updatedAt, deltas);
    client.Begin();
    ok, outcome := FencedInsertRows(client, tournamentId, updatedAt, deltas, fenceFails, fails);
    if ok && !outcome.Changed? {
      ok := client.Execute(RequestServed(client.work.value, region, tournamentId, requestedAt), deleteFails);
    }
    if ok {
      ok := client.Commit(fate);
    } else {
      client.Rollback();
    }
  }

  method RecordFailure(client: Session<Tables>, region: Region, tournamentId: string, error: string, fails: bool)
    returns (ok: bool)
    requires client.Idle()
    modifies client
    ensures client.Idle() && ok == !fails
    ensures client.committed == if ok then FailureRecorded(old(client.committed), region, tournamentId, error) else old(client.committed)
  {
    ok := client.Execute(FailureRecorded(client.committed, region, tournamentId, error), fails);
  }
}
