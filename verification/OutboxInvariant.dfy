/** What every step of the outbox protocol keeps. */
module OutboxInvariant {
  import opened Options
  import opened ReadModel
  import opened OutboxTables
  import opened OutboxProtocol

  /** A span of the region is pending, or the lock holder has still to request or write one. */
  predicate Due(w: World, region: Region, tid: string) {
    || tid in w.t.Requests(region)
    || (tid in w.duties &&
        match w.duties[tid]
        case OwesDeltas(_, _, documents) => region.Documents? && documents
        case OwesDocuments => region.Documents?
        case OwesDocumentsAndSnapshot(_, _) => true
        case OwesSnapshot(_, _) => region.Snapshot?)
  }

  /** The read row is the stored record's, or the one before it while the deltas between the two are still owed. */
  predicate Tracks(w: World, tid: string, id: RowId) {
    var row := Replay(w.t.queue, tid, id);
    || row == Target(w.t, tid, id)
    || (tid in w.duties && w.duties[tid].OwesDeltas? && row == ImageRow(w.duties[tid].before, id))
  }

  /** Reasons the read model may differ: a failed write, a raced or unfinished delete, a span still due. */
  predicate Excused(w: World, region: Region, tid: string) {
    || (region, tid) in w.lost
    || (region.Snapshot? && (tid in w.raced || tid in w.deleting))
    || (region.Documents? && tid !in w.t.tournaments)
    || (tid in w.t.tournaments && Due(w, region, tid))
  }

  ghost predicate RegionOk(w: World, region: Region, tid: string) {
    Excused(w, region, tid) || forall id: RowId :: Owns(region, id.table) ==> Tracks(w, tid, id)
  }

  /** While the lock is held the record is the one just saved, unless a delete took it. */
  ghost predicate DutyOk(w: World, tid: string) {
    tid in w.duties ==>
      && tid != ""
      && (tid !in w.raced ==> tid in w.t.tournaments)
      && match w.duties[tid]
         case OwesDeltas(before, deltas, documents) =>
           && DeltaRows(deltas, tid)
           && (tid in w.t.tournaments ==> DeltasTurn(before, w.t.tournaments[tid].image, deltas))
           && (tid in w.t.tournaments && !documents ==> SameDocuments(before, w.t.tournaments[tid].image))
         case OwesDocuments => true
         case OwesDocumentsAndSnapshot(mode, savedAt) => OwedModeOk(w, tid, mode, savedAt)
         case OwesSnapshot(mode, savedAt) => OwedModeOk(w, tid, mode, savedAt)
  }

  ghost predicate OwedModeOk(w: World, tid: string, mode: SnapshotMode, savedAt: nat) {
    && (mode.Inline? ==> SpanRows(Snapshot, mode.body, tid, mode.spanId))
    && (tid in w.t.tournaments ==> ModeOk(mode, w.t.tournaments[tid].image, tid) && w.t.tournaments[tid].updatedAt == savedAt)
  }

  /** No demand for a span is dropped: unless one is due, the last span is at least as new as the last demand. */
  predicate DemandOk(w: World, region: Region, tid: string) {
    && ((region, tid) in w.covered ==> tid in w.t.tournaments && w.covered[(region, tid)] <= w.t.tournaments[tid].updatedAt)
    && ((region, tid) in w.demanded ==>
          && tid in w.t.tournaments
          && w.demanded[(region, tid)] <= w.t.tournaments[tid].updatedAt
          && ((region, tid) !in w.lost && !Due(w, region, tid) ==>
                (region, tid) in w.covered && w.covered[(region, tid)] >= w.demanded[(region, tid)]))
  }

  ghost predicate InvAt(w: World, tid: string) {
    && DutyOk(w, tid)
    && RegionOk(w, Snapshot, tid) && RegionOk(w, Documents, tid)
    && DemandOk(w, Snapshot, tid) && DemandOk(w, Documents, tid)
    && (tid in w.t.tournaments ==> w.t.tournaments[tid].updatedAt <= w.t.clock)
    && (tid in w.deleting && tid !in w.raced ==> tid !in w.t.tournaments)
  }

  /** A build in flight still describes the record of its version: stamps are fresh, so no other record has it. */
  ghost predicate BuildsOk(w: World) {
    forall b :: b in w.builds ==>
      && b.tid != "" && BuildOk(b)
      && (b.updatedAt.Some? ==> b.updatedAt.value <= w.t.clock)
      && (b.updatedAt.Some? && b.tid in w.t.tournaments && w.t.tournaments[b.tid].updatedAt == b.updatedAt.value ==>
            w.t.tournaments[b.tid].image == b.image)
  }

  ghost predicate Inv(w: World) {
    BuildsOk(w) && forall tid :: InvAt(w, tid)
  }

  // ---------------------------------------------------------------- tournaments a step does not name

  predicate SameRegion(w: World, v: World, region: Region, tid: string) {
    && (tid in w.t.Requests(region) <==> tid in v.t.Requests(region))
    && ((region, tid) in w.lost <==> (region, tid) in v.lost)
    && ((region, tid) in w.demanded <==> (region, tid) in v.demanded)
    && ((region, tid) in w.demanded ==> v.demanded[(region, tid)] == w.demanded[(region, tid)])
    && ((region, tid) in w.covered <==> (region, tid) in v.covered)
    && ((region, tid) in w.covered ==> v.covered[(region, tid)] == w.covered[(region, tid)])
  }

  predicate SameHolder(w: World, v: World, tid: string) {
    && w.t.clock <= v.t.clock
    && (tid in w.t.tournaments <==> tid in v.t.tournaments)
    && (tid in w.t.tournaments ==> v.t.tournaments[tid] == w.t.tournaments[tid])
    && (tid in w.duties <==> tid in v.duties) && (tid in w.duties ==> v.duties[tid] == w.duties[tid])
    && (tid in w.raced <==> tid in v.raced) && (tid in w.deleting <==> tid in v.deleting)
  }

  ghost predicate SameReplay(w: World, v: World, tid: string) {
    forall id: RowId :: Replay(w.t.queue, tid, id) == Replay(v.t.queue, tid, id)
  }

  /** Everything the invariant says about `tid` reads the same in both worlds. */
  ghost predicate SameFor(w: World, v: World, tid: string) {
    && SameHolder(w, v, tid) && SameReplay(w, v, tid)
    && SameRegion(w, v, Snapshot, tid) && SameRegion(w, v, Documents, tid)
  }

  lemma SameKeepsInvariant(w: World, v: World, tid: string)
    requires SameFor(w, v, tid) && InvAt(w, tid)
    ensures InvAt(v, tid)
  {
  }

  lemma DeltasFresh(q: seq<ProjectionDelta>, deltas: seq<ProjectionDelta>, tid: string)
    requires forall d :: d in deltas ==> Incremental(d, tid)
    ensures FreshFor(q, deltas)
  {
    forall i, j | 0 <= i < |q| && 0 <= j < |deltas| && q[i].key.Span? ensures Outside(deltas[j], q[i].key.spanId) {
      assert deltas[j] in deltas;
    }
  }

  /** Rows appended for `tid` are nobody else's. */
  lemma AppendedElsewhere(w: World, deltas: seq<ProjectionDelta>, other: string)
    requires FreshFor(w.t.queue, deltas)
    requires forall d :: d in deltas ==> d.tournamentId != other
    ensures forall id: RowId :: Replay(w.t.queue + deltas, other, id) == Replay(w.t.queue, other, id)
  {
    forall id: RowId ensures Replay(w.t.queue + deltas, other, id) == Replay(w.t.queue, other, id) {
      ReplayForeign(w.t.queue, deltas, other, id);
    }
  }

  lemma FlushElsewhere(w: World, tid: string, deltas: seq<ProjectionDelta>, ok: bool, other: string)
    requires other != tid && forall d :: d in deltas ==> Incremental(d, tid)
    ensures SameFor(w, FlushDeltas(w, tid, deltas, ok), other)
  {
    if ok {
      DeltasFresh(w.t.queue, deltas, tid);
      AppendedElsewhere(w, deltas, other);
    }
  }

  lemma SpanElsewhere(w: World, region: Region, tid: string, spanId: string, body: seq<ProjectionDelta>, other: string)
    requires other != tid && SpanRows(region, body, tid, spanId) && NewSpan(w, spanId)
    ensures forall id: RowId ::
              Replay(w.t.queue + SpanOf(tid, region, spanId, body), other, id) == Replay(w.t.queue, other, id)
  {
    SpanFresh(w.t.queue, tid, region, spanId, body);
    AppendedElsewhere(w, SpanOf(tid, region, spanId, body), other);
  }

  lemma AppendedSame(w: World, deltas: seq<ProjectionDelta>, other: string)
    requires forall id: RowId :: Replay(w.t.queue + deltas, other, id) == Replay(w.t.queue, other, id)
    ensures SameFor(w, w.(t := Appended(w.t, deltas)), other)
  {
  }

  lemma CoverElsewhere(w: World, region: Region, tid: string, builtFrom: nat, other: string)
    requires other != tid
    ensures SameFor(w, Cover(w, region, tid, builtFrom), other) && SameFor(w, Repair(Cover(w, region, tid, builtFrom), tid), other)
    ensures SameFor(w, Lose(w, region, tid), other)
  {
    var covered := Cover(w, region, tid, builtFrom);
    assert SameFor(w, covered, other);
    ForgivenElsewhere(covered, tid, covered.lost, other);
    SameForTrans(w, covered, covered.(raced := covered.raced - {tid}), other);
  }

  lemma InlineElsewhere(w: World, tid: string, mode: SnapshotMode, savedAt: nat, other: string)
    requires other != tid && mode.Inline? && SpanRows(Snapshot, mode.body, tid, mode.spanId) && NewSpan(w, mode.spanId)
    ensures SameFor(w, ProduceSnapshot(w, tid, mode, savedAt, true), other)
  {
    var span := SpanOf(tid, Snapshot, mode.spanId, mode.body);
    var appended := w.(t := Appended(w.t, span));
    SpanElsewhere(w, Snapshot, tid, mode.spanId, mode.body, other);
    AppendedSame(w, span, other);
    CoverElsewhere(appended, Snapshot, tid, savedAt, other);
    SameForTrans(w, appended, Repair(Cover(appended, Snapshot, tid, savedAt), tid), other);
  }

  lemma ProduceElsewhere(w: World, tid: string, mode: SnapshotMode, savedAt: nat, ok: bool, other: string)
    requires other != tid
    requires mode.Inline? ==> SpanRows(Snapshot, mode.body, tid, mode.spanId) && NewSpan(w, mode.spanId)
    ensures SameFor(w, ProduceSnapshot(w, tid, mode, savedAt, ok), other)
  {
    if mode.Deferred? {
      RequestElsewhere(w, Snapshot, tid, ok, other);
    } else if ok {
      InlineElsewhere(w, tid, mode, savedAt, other);
    } else {
      CoverElsewhere(w, Snapshot, tid, savedAt, other);
    }
  }

  lemma CompletedElsewhere(w: World, b: Build, other: string)
    requires b.SpanBuild? && other != b.tid && BuildOk(b) && NewSpan(w, b.spanId)
    ensures SameFor(w, w.(t := Completed(w.t, b.region, b.tid, b.requestedAt, b.updatedAt, Deltas(b))), other)
  {
    if !Fence(w.t, b.tid, b.updatedAt).Changed? {
      var fenced := w.(t := FencedInsert(w.t, b.tid, b.updatedAt, Deltas(b)));
      if Fence(w.t, b.tid, b.updatedAt).Enqueued? {
        SpanElsewhere(w, b.region, b.tid, b.spanId, b.body, other);
        AppendedSame(w, Deltas(b), other);
      }
      assert SameFor(w, fenced, other);
      SameForTrans(w, fenced, fenced.(t := RequestServed(fenced.t, b.region, b.tid, b.requestedAt)), other);
    }
  }

  lemma CommitSpanElsewhere(w: World, b: Build, other: string)
    requires b.SpanBuild? && other != b.tid && BuildOk(b) && NewSpan(w, b.spanId)
    ensures SameFor(w, Committed(w, b), other)
  {
    var done := w.(t := Completed(w.t, b.region, b.tid, b.requestedAt, b.updatedAt, Deltas(b)));
    CompletedElsewhere(w, b, other);
    if Fence(w.t, b.tid, b.updatedAt).Enqueued? {
      var ended := done.(builds := w.builds - {b});
      SameForTrans(w, done, ended, other);
      CoverElsewhere(ended, b.region, b.tid, b.updatedAt.value, other);
      SameForTrans(w, ended, Committed(w, b), other);
    } else {
      SameForTrans(w, done, Committed(w, b), other);
    }
  }

  lemma CommitElsewhere(w: World, b: Build, other: string)
    requires other != b.tid && BuildOk(b) && (b.SpanBuild? ==> NewSpan(w, b.spanId))
    ensures SameFor(w, Committed(w, b), other)
  {
    if b.SpanBuild? {
      CommitSpanElsewhere(w, b, other);
    } else {
      DeltasFresh(w.t.queue, b.deltas, b.tid);
      AppendedElsewhere(w, b.deltas, other);
    }
  }

  function TidOf(s: Step): string {
    match s
    case StartBuild(b) => b.tid
    case CommitBuild(b) => b.tid
    case FailBuild(b, _) => b.tid
    case _ => s.tid
  }

  lemma DutyElsewhere(w: World, tid: string, duty: Duty, other: string)
    requires other != tid
    ensures SameFor(w, SetDuty(w, tid, duty), other) && SameFor(w, Unlock(w, tid), other)
  {
  }

  lemma RequestElsewhere(w: World, region: Region, tid: string, ok: bool, other: string)
    requires other != tid
    ensures SameFor(w, RequestSpan(w, region, tid, ok), other)
  {
    var v := RequestSpan(w, region, tid, ok);
    assert RequestedIds([tid]) <= {tid};
    assert v.t.queue == w.t.queue;
  }

  lemma SavedElsewhere(w: World, tid: string, image: Image, other: string)
    requires other != tid
    ensures SameFor(w, RecordSaved(w, tid, image), other) && SameFor(w, MutationSaved(w, tid, image), other)
  {
  }

  lemma DemandElsewhere(w: World, region: Region, tid: string, other: string)
    requires other != tid
    ensures SameFor(w, Demand(w, region, tid), other)
  {
  }

  lemma SameForTrans(u: World, v: World, w: World, tid: string)
    requires SameFor(u, v, tid) && SameFor(v, w, tid)
    ensures SameFor(u, w, tid)
  {
    assert forall id: RowId :: Replay(v.t.queue, tid, id) == Replay(w.t.queue, tid, id);
  }

  lemma ProceedElsewhere(w: World, tid: string, ok: bool, other: string)
    requires Enabled(w, Proceed(tid, ok)) && DutyOk(w, tid) && other != tid
    ensures SameFor(w, Proceeded(w, tid, ok), other)
  {
    var v: World;
    match w.duties[tid] {
      case OwesDeltas(_, deltas, _) =>
        v := FlushDeltas(w, tid, deltas, ok);
        FlushElsewhere(w, tid, deltas, ok, other);
      case OwesDocuments =>
        v := RequestSpan(w, Documents, tid, ok);
        RequestElsewhere(w, Documents, tid, ok, other);
      case OwesDocumentsAndSnapshot(_, _) =>
        v := RequestSpan(w, Documents, tid, ok);
        RequestElsewhere(w, Documents, tid, ok, other);
      case OwesSnapshot(mode, savedAt) =>
        v := Unlock(w, tid);
        DutyElsewhere(w, tid, OwesDocuments, other);
        ProduceElsewhere(v, tid, mode, savedAt, ok, other);
        SameForTrans(w, v, Proceeded(w, tid, ok), other);
    }
  }

  lemma MutationElsewhere(w: World, s: Step, other: string)
    requires Enabled(w, s) && (s.DurableMutation? || s.MutationSave?) && other != s.tid
    ensures SameFor(w, Next(w, s), other)
  {
    var saved := MutationSaved(w, s.tid, s.image);
    SavedElsewhere(w, s.tid, s.image, other);
    var v := saved;
    if s.DurableMutation? {
      FlushElsewhere(saved, s.tid, s.deltas, s.flushed, other);
      v := FlushDeltas(saved, s.tid, s.deltas, s.flushed);
    } else {
      v := SetDuty(saved, s.tid, OwesDeltas(s.before, s.deltas, s.documents));
      DutyElsewhere(saved, s.tid, OwesDeltas(s.before, s.deltas, s.documents), other);
    }
    SameForTrans(w, saved, v, other);
    if s.documents {
      var asked := Demand(v, Documents, s.tid);
      DemandElsewhere(v, Documents, s.tid, other);
      SameForTrans(w, v, asked, other);
      if s.DurableMutation? {
        RequestElsewhere(asked, Documents, s.tid, s.requested, other);
        SameForTrans(w, asked, Next(w, s), other);
      }
    }
  }

  lemma WholesaleElsewhere(w: World, s: Step, other: string)
    requires Enabled(w, s) && (s.WholesaleSave? || s.DurableWholesale?) && other != s.tid
    ensures SameFor(w, Next(w, s), other)
  {
    var saved := Replaced(w, s.tid, s.image);
    if s.WholesaleSave? {
      DutyElsewhere(saved, s.tid, OwesDocumentsAndSnapshot(s.mode, Version(saved, s.tid)), other);
      SameForTrans(w, saved, Next(w, s), other);
    } else {
      var asked := RequestSpan(saved, Documents, s.tid, s.requested);
      RequestElsewhere(saved, Documents, s.tid, s.requested, other);
      SameForTrans(w, saved, asked, other);
      ProduceElsewhere(asked, s.tid, s.mode, Version(asked, s.tid), s.projected, other);
      SameForTrans(w, asked, Next(w, s), other);
    }
  }

  lemma RemoveElsewhere(w: World, s: Step, other: string)
    requires Enabled(w, s) && (s.Remove? || s.FlushDelete?) && other != s.tid
    ensures SameFor(w, Next(w, s), other)
  {
    if s.FlushDelete? {
      DeleteElsewhere(w, s.tid, s.ok, other);
    }
  }

  lemma DeleteElsewhere(w: World, tid: string, ok: bool, other: string)
    requires other != tid
    ensures SameFor(w, DeleteFlushed(w, tid, ok), other)
  {
    var ended := w.(deleting := w.deleting - multiset{tid});
    var flushed := FlushDeltas(ended, tid, [DeleteDelta(tid)], ok);
    assert SameFor(w, ended, other);
    FlushElsewhere(ended, tid, [DeleteDelta(tid)], ok, other);
    SameForTrans(w, ended, flushed, other);
    ForgivenElsewhere(flushed, tid, flushed.lost - {(Snapshot, tid)}, other);
    SameForTrans(w, flushed, flushed.(raced := flushed.raced - {tid}, lost := flushed.lost - {(Snapshot, tid)}), other);
  }

  lemma ForgivenElsewhere(w: World, tid: string, lost: set<(Region, string)>, other: string)
    requires other != tid && (lost == w.lost || lost == w.lost - {(Snapshot, tid)})
    ensures SameFor(w, w.(raced := w.raced - {tid}, lost := lost), other)
  {
  }

  lemma FailureElsewhere(w: World, region: Region, tid: string, error: string, other: string)
    requires other != tid
    ensures SameFor(w, w.(t := FailureRecorded(w.t, region, tid, error)), other)
  {
  }

  lemma BuildsElsewhere(w: World, builds: set<Build>, other: string)
    ensures SameFor(w, w.(builds := builds), other)
  {
  }

  lemma BuildElsewhere(w: World, s: Step, other: string)
    requires Enabled(w, s) && (s.StartBuild? || s.FailBuild?) && other != TidOf(s)
    ensures SameFor(w, Next(w, s), other)
  {
    if s.FailBuild? && s.build.SpanBuild? {
      var failed := w.(t := FailureRecorded(w.t, s.build.region, s.build.tid, s.error));
      FailureElsewhere(w, s.build.region, s.build.tid, s.error, other);
      BuildsElsewhere(failed, Next(w, s).builds, other);
      SameForTrans(w, failed, Next(w, s), other);
    } else {
      BuildsElsewhere(w, Next(w, s).builds, other);
    }
  }

  lemma SaveElsewhere(w: World, s: Step, other: string)
    requires s.MutationSave? || s.DurableMutation? || s.WholesaleSave? || s.DurableWholesale?
    requires Enabled(w, s) && other != s.tid
    ensures SameFor(w, Next(w, s), other)
  {
    if s.MutationSave? || s.DurableMutation? {
      MutationElsewhere(w, s, other);
    } else {
      WholesaleElsewhere(w, s, other);
    }
  }

  lemma OthersKeep(w: World, s: Step, other: string)
    requires Inv(w) && Enabled(w, s) && other != TidOf(s)
    ensures SameFor(w, Next(w, s), other)
  {
    match s
    case Proceed(tid, ok) =>
      assert InvAt(w, tid);
      ProceedElsewhere(w, tid, ok, other);
    case Remove(_) => RemoveElsewhere(w, s, other);
    case FlushDelete(_, _) => RemoveElsewhere(w, s, other);
    case StartBuild(_) => BuildElsewhere(w, s, other);
    case CommitBuild(b) => CommitElsewhere(w, b, other);
    case FailBuild(_, _) => BuildElsewhere(w, s, other);
    case _ => SaveElsewhere(w, s, other);
  }
}
