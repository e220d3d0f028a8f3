/** Each step of the outbox protocol keeps the invariant for the tournament it names. */
module OutboxSteps {
  import opened Options
  import opened ReadModel
  import opened OutboxTables
  import opened OutboxProtocol
  import opened OutboxInvariant

  // ---------------------------------------------------------------- what a write does to this tournament's rows

  /** Rows of the other region's tables leave a read row alone. */
  lemma {:induction false} OtherTables(ds: seq<ProjectionDelta>, id: RowId, v: Option<Columns>)
    requires forall d :: d in ds ==> d.key.Filter? && Writes(d)
    requires forall d :: d in ds ==> (d.table == TABLE_PUBLIC_PARTICIPANTS <==> id.table != TABLE_PUBLIC_PARTICIPANTS)
    ensures Apply(ds, id, v) == v
  {
    if |ds| > 0 {
      OtherTables(ds[..|ds| - 1], id, v);
      assert ds[|ds| - 1] in ds;
    }
  }

  lemma FlushedRow(w: World, tid: string, deltas: seq<ProjectionDelta>, id: RowId)
    requires DeltaRows(deltas, tid)
    ensures Replay(w.t.queue + deltas, tid, id) == Apply(deltas, id, Replay(w.t.queue, tid, id))
    ensures Owns(Documents, id.table) ==> Replay(w.t.queue + deltas, tid, id) == Replay(w.t.queue, tid, id)
  {
    ReplayIncremental(w.t.queue, deltas, tid, id);
    if Owns(Documents, id.table) {
      OtherTables(deltas, id, Replay(w.t.queue, tid, id));
    }
  }

  /** A span of a version gives its region's rows that version's values and touches nothing else of ours. */
  lemma SpanRow(w: World, region: Region, tid: string, spanId: string, body: seq<ProjectionDelta>, image: Image, id: RowId)
    requires SpanRows(region, body, tid, spanId) && BuildsExactly(region, body, image) && NewSpan(w, spanId)
    ensures Owns(region, id.table) ==>
              Replay(w.t.queue + SpanOf(tid, region, spanId, body), tid, id) == ImageRow(image, id)
    ensures !Owns(region, id.table) && (Owns(Snapshot, id.table) || Owns(Documents, id.table)) ==>
              Replay(w.t.queue + SpanOf(tid, region, spanId, body), tid, id) == Replay(w.t.queue, tid, id)
  {
    ReplaySpan(w.t.queue, tid, region, spanId, body, id);
    if !Owns(region, id.table) && (Owns(Snapshot, id.table) || Owns(Documents, id.table)) {
      OtherTables(body, id, Replay(w.t.queue, tid, id));
    }
  }

  // ---------------------------------------------------------------- saves

  lemma MutationSaveKeeps(w: World, s: Step)
    requires s.MutationSave? && InvAt(w, s.tid) && Enabled(w, s)
    ensures InvAt(Next(w, s), s.tid)
  {
    var tid, v := s.tid, Next(w, s);
    assert InvAt(w, tid);
    assert RegionOk(v, Snapshot, tid) by {
      if !Excused(v, Snapshot, tid) {
        assert !Excused(w, Snapshot, tid);
        forall id: RowId | Owns(Snapshot, id.table) ensures Tracks(v, tid, id) {
          assert Tracks(w, tid, id);
        }
      }
    }
    assert RegionOk(v, Documents, tid) by {
      if !Excused(v, Documents, tid) {
        assert !Excused(w, Documents, tid);
        forall id: RowId | Owns(Documents, id.table) ensures Tracks(v, tid, id) {
          assert Tracks(w, tid, id);
        }
      }
    }
  }

  lemma FlushKeepsSnapshot(w: World, tid: string, deltas: seq<ProjectionDelta>, before: Image, ok: bool)
    requires DeltaRows(deltas, tid) && tid !in w.duties
    requires tid in w.t.tournaments ==> DeltasTurn(before, w.t.tournaments[tid].image, deltas)
    requires tid !in w.raced ==> tid in w.t.tournaments
    requires Excused(w, Snapshot, tid)
          || forall id: RowId :: Owns(Snapshot, id.table) ==>
               Replay(w.t.queue, tid, id) == Target(w.t, tid, id) || Replay(w.t.queue, tid, id) == ImageRow(before, id)
    ensures RegionOk(FlushDeltas(w, tid, deltas, ok), Snapshot, tid)
  {
    var v := FlushDeltas(w, tid, deltas, ok);
    if !Excused(v, Snapshot, tid) {
      assert !Excused(w, Snapshot, tid);
      forall id: RowId | Owns(Snapshot, id.table) ensures Tracks(v, tid, id) {
        FlushedRow(w, tid, deltas, id);
      }
    }
  }

  /** The world of a durable mutation once its record and its deltas are written. */
  function Flushed(w: World, s: Step): World
    requires s.DurableMutation?
  {
    FlushDeltas(MutationSaved(w, s.tid, s.image), s.tid, s.deltas, s.flushed)
  }

  lemma FlushedSnapshot(w: World, s: Step)
    requires s.DurableMutation? && InvAt(w, s.tid) && Enabled(w, s)
    ensures RegionOk(Flushed(w, s), Snapshot, s.tid)
  {
    var tid, saved := s.tid, MutationSaved(w, s.tid, s.image);
    forall id: RowId | !Excused(saved, Snapshot, tid) && Owns(Snapshot, id.table)
      ensures Replay(w.t.queue, tid, id) == ImageRow(s.before, id)
    {
      assert !Excused(w, Snapshot, tid);
      assert Tracks(w, tid, id);
    }
    FlushKeepsSnapshot(saved, tid, s.deltas, s.before, s.flushed);
  }

  lemma DurableMutationDocuments(w: World, s: Step)
    requires s.DurableMutation? && InvAt(w, s.tid) && Enabled(w, s) && !s.documents
    ensures RegionOk(Flushed(w, s), Documents, s.tid)
  {
    var tid, v := s.tid, Flushed(w, s);
    var saved := MutationSaved(w, tid, s.image);
    if !Excused(v, Documents, tid) {
      assert tid in w.t.tournaments && !Excused(w, Documents, tid);
      forall id: RowId | Owns(Documents, id.table) ensures Tracks(v, tid, id) {
        assert Tracks(w, tid, id);
        FlushedRow(saved, tid, s.deltas, id);
      }
    }
  }

  lemma RequestExcuses(w: World, tid: string, ok: bool)
    requires tid != "" && tid in w.t.tournaments && tid !in w.duties && DemandOk(w, Documents, tid)
    ensures Excused(RequestSpan(Demand(w, Documents, tid), Documents, tid, ok), Documents, tid)
    ensures DemandOk(RequestSpan(Demand(w, Documents, tid), Documents, tid, ok), Documents, tid)
    ensures DemandOk(w, Snapshot, tid) ==> DemandOk(RequestSpan(Demand(w, Documents, tid), Documents, tid, ok), Snapshot, tid)
  {
    assert tid in RequestedIds([tid]);
  }

  lemma RequestedRegions(w: World, tid: string, ok: bool)
    requires tid != "" && tid in w.t.tournaments && tid !in w.duties
    requires RegionOk(w, Snapshot, tid) && DemandOk(w, Snapshot, tid) && DemandOk(w, Documents, tid)
    ensures var v := RequestSpan(Demand(w, Documents, tid), Documents, tid, ok);
            && RegionOk(v, Snapshot, tid) && RegionOk(v, Documents, tid) && DemandOk(v, Snapshot, tid) && DemandOk(v, Documents, tid)
  {
    var v := RequestSpan(Demand(w, Documents, tid), Documents, tid, ok);
    RequestExcuses(w, tid, ok);
    assert v.t.queue == w.t.queue && v.t.tournaments == w.t.tournaments;
    if !Excused(v, Snapshot, tid) {
      assert !Excused(w, Snapshot, tid);
      forall id: RowId | Owns(Snapshot, id.table) ensures Tracks(v, tid, id) {
        assert Tracks(w, tid, id);
      }
    }
  }

  lemma FlushedDemands(w: World, s: Step)
    requires s.DurableMutation? && InvAt(w, s.tid) && Enabled(w, s)
    ensures DemandOk(Flushed(w, s), Snapshot, s.tid) && DemandOk(Flushed(w, s), Documents, s.tid)
  {
    assert DemandOk(w, Snapshot, s.tid) && DemandOk(w, Documents, s.tid);
    FlushedDemand(w, s, Snapshot);
    FlushedDemand(w, s, Documents);
  }

  lemma FlushedDemand(w: World, s: Step, region: Region)
    requires s.DurableMutation? && s.tid !in w.duties && DemandOk(w, region, s.tid)
    requires s.tid in w.t.tournaments ==> w.t.tournaments[s.tid].updatedAt <= w.t.clock
    ensures DemandOk(Flushed(w, s), region, s.tid)
  {
    var v := Flushed(w, s);
    assert v.demanded == w.demanded && v.covered == w.covered && v.duties == w.duties;
    assert v.t.tournaments[s.tid].updatedAt == w.t.clock + 1;
    assert Due(v, region, s.tid) == Due(w, region, s.tid);
  }

  lemma RequestStands(w: World, tid: string, ok: bool)
    requires tid !in w.duties && tid in w.t.tournaments && w.t.tournaments[tid].updatedAt <= w.t.clock
    requires tid in w.deleting ==> tid in w.raced
    ensures var v := RequestSpan(Demand(w, Documents, tid), Documents, tid, ok);
            && tid !in v.duties && tid in v.t.tournaments && v.t.tournaments[tid].updatedAt <= v.t.clock
            && (tid in v.deleting ==> tid in v.raced)
  {
    RequestSavesNothing(Demand(w, Documents, tid), Documents, tid, ok);
  }

  lemma DurableMutationRegions(w: World, s: Step)
    requires s.DurableMutation? && InvAt(w, s.tid) && Enabled(w, s)
    ensures RegionOk(Next(w, s), Snapshot, s.tid) && RegionOk(Next(w, s), Documents, s.tid)
    ensures DemandOk(Next(w, s), Snapshot, s.tid) && DemandOk(Next(w, s), Documents, s.tid)
  {
    FlushedSnapshot(w, s);
    FlushedDemands(w, s);
    if s.documents {
      RequestedRegions(Flushed(w, s), s.tid, s.requested);
    } else {
      DurableMutationDocuments(w, s);
    }
  }

  lemma DurableMutationKeeps(w: World, s: Step)
    requires s.DurableMutation? && InvAt(w, s.tid) && Enabled(w, s)
    ensures InvAt(Next(w, s), s.tid)
  {
    RequestStands(Flushed(w, s), s.tid, s.requested);
    DurableMutationRegions(w, s);
  }

  lemma WholesaleSaveKeeps(w: World, s: Step)
    requires s.WholesaleSave? && InvAt(w, s.tid) && Enabled(w, s)
    ensures InvAt(Next(w, s), s.tid)
  {
    assert InvAt(w, s.tid);
  }

  /** What a wholesale save's span step leaves, in either mode. */
  lemma ProduceKeeps(w: World, tid: string, mode: SnapshotMode, savedAt: nat, ok: bool)
    requires tid != "" && tid !in w.duties && OwedModeOk(w, tid, mode, savedAt)
    requires mode.Inline? ==> NewSpan(w, mode.spanId)
    requires tid !in w.t.tournaments ==> tid in w.raced
    requires RegionOk(w, Documents, tid) && DemandOk(w, Documents, tid)
    requires (Snapshot, tid) in w.demanded ==> tid in w.t.tournaments && w.demanded[(Snapshot, tid)] <= w.t.tournaments[tid].updatedAt
    requires (Snapshot, tid) in w.covered ==> tid in w.t.tournaments && w.covered[(Snapshot, tid)] <= w.t.tournaments[tid].updatedAt
    ensures RegionOk(ProduceSnapshot(w, tid, mode, savedAt, ok), Snapshot, tid)
    ensures RegionOk(ProduceSnapshot(w, tid, mode, savedAt, ok), Documents, tid)
    ensures DemandOk(ProduceSnapshot(w, tid, mode, savedAt, ok), Snapshot, tid)
    ensures DemandOk(ProduceSnapshot(w, tid, mode, savedAt, ok), Documents, tid)
  {
    var v := ProduceSnapshot(w, tid, mode, savedAt, ok);
    if mode.Inline? && ok && tid in w.t.tournaments {
      var image := w.t.tournaments[tid].image;
      forall id: RowId | Owns(Snapshot, id.table) ensures Tracks(v, tid, id) {
        SpanRow(w, Snapshot, tid, mode.spanId, mode.body, image, id);
      }
      DocumentsUntouched(w, v, tid, mode.spanId, mode.body, savedAt, image);
    } else {
      assert tid in RequestedIds([tid]);
      assert Excused(v, Snapshot, tid);
      assert RegionOk(v, Documents, tid) by {
        if !Excused(v, Documents, tid) {
          assert !Excused(w, Documents, tid);
          forall id: RowId | Owns(Documents, id.table) ensures Tracks(v, tid, id) {
            assert Tracks(w, tid, id);
          }
        }
      }
    }
  }

  lemma DocumentsUntouched(w: World, v: World, tid: string, spanId: string, body: seq<ProjectionDelta>, savedAt: nat, image: Image)
    requires SpanRows(Snapshot, body, tid, spanId) && BuildsExactly(Snapshot, body, image) && NewSpan(w, spanId)
    requires v == Repair(Cover(w.(t := Appended(w.t, SpanOf(tid, Snapshot, spanId, body))), Snapshot, tid, savedAt), tid)
    requires RegionOk(w, Documents, tid)
    ensures RegionOk(v, Documents, tid)
  {
    if !Excused(v, Documents, tid) {
      assert !Excused(w, Documents, tid);
      forall id: RowId | Owns(Documents, id.table) ensures Tracks(v, tid, id) {
        assert Tracks(w, tid, id);
        SpanRow(w, Snapshot, tid, spanId, body, image, id);
      }
    }
  }

  lemma DurableWholesaleKeeps(w: World, s: Step)
    requires s.DurableWholesale? && InvAt(w, s.tid) && Enabled(w, s)
    ensures InvAt(Next(w, s), s.tid)
  {
    assert InvAt(w, s.tid);
    var asked := RequestSpan(Replaced(w, s.tid, s.image), Documents, s.tid, s.requested);
    assert s.tid in RequestedIds([s.tid]);
    assert Excused(asked, Documents, s.tid);
    assert asked.t.queue == w.t.queue;
    ProduceKeeps(asked, s.tid, s.mode, Version(asked, s.tid), s.projected);
  }

  // ---------------------------------------------------------------- the lock holder's next step

  lemma ProceedDeltasKeeps(w: World, tid: string, ok: bool)
    requires InvAt(w, tid) && Enabled(w, Proceed(tid, ok)) && w.duties[tid].OwesDeltas?
    ensures InvAt(Proceeded(w, tid, ok), tid)
  {
    assert InvAt(w, tid);
    var v := Proceeded(w, tid, ok);
    var duty := w.duties[tid];
    var free := Unlock(w, tid);
    forall id: RowId | !Excused(free, Snapshot, tid) && Owns(Snapshot, id.table)
      ensures Replay(w.t.queue, tid, id) == Target(w.t, tid, id) || Replay(w.t.queue, tid, id) == ImageRow(duty.before, id)
    {
      assert !Excused(w, Snapshot, tid);
      assert Tracks(w, tid, id);
    }
    FlushKeepsSnapshot(free, tid, duty.deltas, duty.before, ok);
    var flushed := FlushDeltas(free, tid, duty.deltas, ok);
    assert RegionOk(v, Snapshot, tid) by {
      if !Excused(v, Snapshot, tid) {
        assert !Excused(flushed, Snapshot, tid);
        forall id: RowId | Owns(Snapshot, id.table) ensures Tracks(v, tid, id) {
          assert Tracks(flushed, tid, id);
        }
      }
    }
    assert RegionOk(v, Documents, tid) by {
      if !Excused(v, Documents, tid) {
        assert !Excused(w, Documents, tid);
        forall id: RowId | Owns(Documents, id.table) ensures Tracks(v, tid, id) {
          assert Tracks(w, tid, id);
          FlushedRow(w, tid, duty.deltas, id);
        }
      }
    }
  }

  /** A request recorded, or counted as lost, excuses its region; the other region is as it was. */
  lemma RequestKeeps(w: World, v: World, region: Region, other: Region, tid: string, ok: bool)
    requires tid != "" && region != other
    requires v.t == RequestSpan(w, region, tid, ok).t && v.lost == RequestSpan(w, region, tid, ok).lost
    requires v.raced == w.raced && v.deleting == w.deleting && v.demanded == w.demanded && v.covered == w.covered
    requires tid !in w.t.tournaments ==> tid in w.raced
    requires DemandOk(w, region, tid) && DemandOk(w, other, tid) && RegionOk(w, other, tid)
    requires Due(v, other, tid) == Due(w, other, tid)
    requires tid in w.duties && !w.duties[tid].OwesDeltas?
    ensures RegionOk(v, region, tid) && RegionOk(v, other, tid)
    ensures DemandOk(v, region, tid) && DemandOk(v, other, tid)
  {
    assert tid in RequestedIds([tid]);
    assert v.t.queue == w.t.queue && v.t.tournaments == w.t.tournaments;
    assert Excused(v, region, tid);
    if !Excused(v, other, tid) {
      assert !Excused(w, other, tid);
      forall id: RowId | Owns(other, id.table) ensures Tracks(v, tid, id) {
        assert Tracks(w, tid, id);
      }
    }
  }

  lemma ProceedRequestKeeps(w: World, tid: string, ok: bool)
    requires InvAt(w, tid) && Enabled(w, Proceed(tid, ok)) && (w.duties[tid].OwesDocuments? || w.duties[tid].OwesDocumentsAndSnapshot?)
    ensures InvAt(Proceeded(w, tid, ok), tid)
  {
    assert InvAt(w, tid);
    var v := Proceeded(w, tid, ok);
    RequestKeeps(w, v, Documents, Snapshot, tid, ok);
  }

  lemma ProceedSnapshotKeeps(w: World, tid: string, ok: bool)
    requires InvAt(w, tid) && Enabled(w, Proceed(tid, ok)) && w.duties[tid].OwesSnapshot?
    ensures InvAt(Proceeded(w, tid, ok), tid)
  {
    assert InvAt(w, tid);
    var free := Unlock(w, tid);
    var mode := w.duties[tid].mode;
    assert Due(free, Documents, tid) == Due(w, Documents, tid);
    assert RegionOk(free, Documents, tid) by {
      if !Excused(free, Documents, tid) {
        forall id: RowId | Owns(Documents, id.table) ensures Tracks(free, tid, id) {
          assert Tracks(w, tid, id);
        }
      }
    }
    ProduceKeeps(free, tid, mode, w.duties[tid].savedAt, ok);
  }

  // ---------------------------------------------------------------- deletes

  lemma RemoveKeeps(w: World, s: Step)
    requires s.Remove? && InvAt(w, s.tid) && Enabled(w, s)
    ensures InvAt(Next(w, s), s.tid)
  {
    assert InvAt(w, s.tid);
  }

  lemma DeletedReplay(w: World, tid: string, id: RowId)
    ensures Replay(w.t.queue + [DeleteDelta(tid)], tid, id) == Effect(DeleteDelta(tid), id, Replay(w.t.queue, tid, id))
  {
    var deltas := [DeleteDelta(tid)];
    FlushedRow(w, tid, deltas, id);
    assert Apply(deltas, id, Replay(w.t.queue, tid, id)) == Effect(DeleteDelta(tid), id, Apply(deltas[..0], id, Replay(w.t.queue, tid, id)));
  }

  lemma FlushDeleteRegion(w: World, s: Step, region: Region)
    requires s.FlushDelete? && InvAt(w, s.tid) && Enabled(w, s)
    ensures RegionOk(Next(w, s), region, s.tid)
  {
    var tid, v := s.tid, Next(w, s);
    assert RegionOk(w, region, tid) by { if region.Snapshot? { } }
    if !Excused(v, region, tid) {
      assert region.Documents? ==> !Excused(w, region, tid);
      forall id: RowId | Owns(region, id.table) ensures Tracks(v, tid, id) {
        assert region.Documents? ==> Tracks(w, tid, id);
        DeletedReplay(w, tid, id);
      }
    }
  }

  /** The delete's row changes no record, no lock, no request and no demand. */
  lemma FlushDeleteLeaves(w: World, tid: string, ok: bool)
    ensures var v := DeleteFlushed(w, tid, ok);
            && v.t.tournaments == w.t.tournaments && v.t.clock == w.t.clock && v.duties == w.duties
            && v.t.snapshotRequests == w.t.snapshotRequests && v.t.documentRequests == w.t.documentRequests
            && v.demanded == w.demanded && v.covered == w.covered && v.deleting == w.deleting - multiset{tid}
            && (tid in w.t.tournaments || tid in w.duties ==> v.raced == w.raced && w.lost <= v.lost)
  {
  }

  lemma FlushDeleteDemand(w: World, tid: string, ok: bool, region: Region)
    requires DemandOk(w, region, tid)
    ensures DemandOk(DeleteFlushed(w, tid, ok), region, tid)
  {
    FlushDeleteLeaves(w, tid, ok);
  }

  lemma FlushDeleteKeeps(w: World, s: Step)
    requires s.FlushDelete? && InvAt(w, s.tid) && Enabled(w, s)
    ensures InvAt(Next(w, s), s.tid)
  {
    FlushDeleteLeaves(w, s.tid, s.ok);
    FlushDeleteRegion(w, s, Snapshot);
    FlushDeleteRegion(w, s, Documents);
    FlushDeleteDemand(w, s.tid, s.ok, Snapshot);
    FlushDeleteDemand(w, s.tid, s.ok, Documents);
  }

  // ---------------------------------------------------------------- producers

  /** Bookkeeping of builds and attempts touches no record, no queue row and no request's existence. */
  lemma BookkeepingKeeps(w: World, v: World, tid: string)
    requires InvAt(w, tid)
    requires v.t.tournaments == w.t.tournaments && v.t.queue == w.t.queue && v.t.clock == w.t.clock
    requires v == w.(t := v.t, builds := v.builds)
    requires v.t.snapshotRequests.Keys == w.t.snapshotRequests.Keys && v.t.documentRequests.Keys == w.t.documentRequests.Keys
    ensures InvAt(v, tid)
  {
    assert SameFor(w, v, tid);
    SameKeepsInvariant(w, v, tid);
  }

  lemma FailureKeepsRequests(t: Tables, region: Region, tid: string, error: string)
    ensures FailureRecorded(t, region, tid, error).snapshotRequests.Keys == t.snapshotRequests.Keys
    ensures FailureRecorded(t, region, tid, error).documentRequests.Keys == t.documentRequests.Keys
  {
  }

  lemma BuildStepKeeps(w: World, s: Step)
    requires InvAt(w, TidOf(s)) && Enabled(w, s) && (s.StartBuild? || s.FailBuild?)
    ensures InvAt(Next(w, s), TidOf(s))
  {
    assert InvAt(w, TidOf(s));
    if s.FailBuild? && s.build.SpanBuild? {
      FailureKeepsRequests(w.t, s.build.region, s.build.tid, s.error);
    }
    BookkeepingKeeps(w, Next(w, s), TidOf(s));
  }

  lemma CommitRebuildKeeps(w: World, b: Build)
    requires Inv(w) && Enabled(w, CommitBuild(b)) && b.Rebuild?
    ensures InvAt(Committed(w, b), b.tid)
  {
    var tid, v := b.tid, Committed(w, b);
    assert InvAt(w, tid);
    assert forall region :: Due(v, region, tid) == Due(w, region, tid);
    if Fence(w.t, tid, b.updatedAt).Enqueued? {
      assert b.image == w.t.tournaments[tid].image;
    }
    assert RegionOk(v, Snapshot, tid) by {
      if !Excused(v, Snapshot, tid) {
        assert !Excused(w, Snapshot, tid);
        forall id: RowId | Owns(Snapshot, id.table) ensures Tracks(v, tid, id) {
          assert Tracks(w, tid, id);
          FlushedRow(w, tid, b.deltas, id);
        }
      }
    }
    assert RegionOk(v, Documents, tid) by {
      if !Excused(v, Documents, tid) {
        assert !Excused(w, Documents, tid);
        forall id: RowId | Owns(Documents, id.table) ensures Tracks(v, tid, id) {
          assert Tracks(w, tid, id);
          FlushedRow(w, tid, b.deltas, id);
        }
      }
    }
  }

  function OtherRegion(region: Region): Region {
    if region.Snapshot? then Documents else Snapshot
  }

  lemma SpanRegionKeeps(w: World, b: Build)
    requires Inv(w) && Enabled(w, CommitBuild(b)) && b.SpanBuild? && Fence(w.t, b.tid, b.updatedAt).Enqueued?
    ensures RegionOk(Committed(w, b), b.region, b.tid) && DemandOk(Committed(w, b), b.region, b.tid)
  {
    var tid, v := b.tid, Committed(w, b);
    assert InvAt(w, tid);
    assert b.image == w.t.tournaments[tid].image;
    forall id: RowId | Owns(b.region, id.table) ensures Tracks(v, tid, id) {
      SpanRow(w, b.region, tid, b.spanId, b.body, b.image, id);
    }
    assert DemandOk(w, b.region, tid) by { if b.region.Snapshot? { } }
  }

  lemma SpanOtherRegionKeeps(w: World, b: Build)
    requires Inv(w) && Enabled(w, CommitBuild(b)) && b.SpanBuild? && Fence(w.t, b.tid, b.updatedAt).Enqueued?
    ensures RegionOk(Committed(w, b), OtherRegion(b.region), b.tid) && DemandOk(Committed(w, b), OtherRegion(b.region), b.tid)
  {
    var tid, v, other := b.tid, Committed(w, b), OtherRegion(b.region);
    assert InvAt(w, tid);
    assert RegionOk(w, other, tid) && DemandOk(w, other, tid) by { if other.Snapshot? { } }
    assert Due(v, other, tid) == Due(w, other, tid);
    if !Excused(v, other, tid) {
      assert !Excused(w, other, tid);
      forall id: RowId | Owns(other, id.table) ensures Tracks(v, tid, id) {
        assert Tracks(w, tid, id);
        SpanRow(w, b.region, tid, b.spanId, b.body, b.image, id);
      }
    }
  }

  /** A span refused by the fence, or of a tournament that is gone, changes no read row. */
  lemma SpanRefusedKeeps(w: World, b: Build, region: Region)
    requires Inv(w) && Enabled(w, CommitBuild(b)) && b.SpanBuild? && !Fence(w.t, b.tid, b.updatedAt).Enqueued?
    ensures RegionOk(Committed(w, b), region, b.tid) && DemandOk(Committed(w, b), region, b.tid)
  {
    var tid, v := b.tid, Committed(w, b);
    assert InvAt(w, tid);
    assert RegionOk(w, region, tid) && DemandOk(w, region, tid) by { if region.Snapshot? { } }
    assert v.t.queue == w.t.queue && v.t.tournaments == w.t.tournaments;
    assert tid in w.t.tournaments ==> v.t == w.t;
    if !Excused(v, region, tid) {
      forall id: RowId | Owns(region, id.table) ensures Tracks(v, tid, id) {
        assert Tracks(w, tid, id);
      }
    }
  }

  lemma CommitSpanRegions(w: World, b: Build)
    requires Inv(w) && Enabled(w, CommitBuild(b)) && b.SpanBuild?
    ensures RegionOk(Committed(w, b), Snapshot, b.tid) && RegionOk(Committed(w, b), Documents, b.tid)
    ensures DemandOk(Committed(w, b), Snapshot, b.tid) && DemandOk(Committed(w, b), Documents, b.tid)
  {
    if Fence(w.t, b.tid, b.updatedAt).Enqueued? {
      SpanRegionKeeps(w, b);
      SpanOtherRegionKeeps(w, b);
    } else {
      SpanRefusedKeeps(w, b, Snapshot);
      SpanRefusedKeeps(w, b, Documents);
    }
  }

  /** A build that commits changes no record and no lock, and repairs only a tournament at rest. */
  lemma CommitLeaves(w: World, b: Build)
    ensures var v := Committed(w, b);
            && v.t.tournaments == w.t.tournaments && v.t.clock == w.t.clock && v.duties == w.duties && v.deleting == w.deleting
            && v.raced <= w.raced && (b.tid in w.raced && (b.tid in w.duties || b.tid in w.deleting) ==> b.tid in v.raced)
  {
  }

  lemma CommitSpanKeeps(w: World, b: Build)
    requires Inv(w) && Enabled(w, CommitBuild(b)) && b.SpanBuild?
    ensures InvAt(Committed(w, b), b.tid)
  {
    assert InvAt(w, b.tid);
    CommitSpanRegions(w, b);
    CommitLeaves(w, b);
  }

  lemma NamedKeeps(w: World, s: Step)
    requires Inv(w) && Enabled(w, s)
    ensures InvAt(Next(w, s), TidOf(s))
  {
    match s
    case MutationSave(_, _, _, _, _) => MutationSaveKeeps(w, s);
    case DurableMutation(_, _, _, _, _, _, _) => DurableMutationKeeps(w, s);
    case WholesaleSave(_, _, _) => WholesaleSaveKeeps(w, s);
    case DurableWholesale(_, _, _, _, _) => DurableWholesaleKeeps(w, s);
    case Proceed(tid, ok) =>
      match w.duties[tid] {
        case OwesDeltas(_, _, _) => ProceedDeltasKeeps(w, tid, ok);
        case OwesDocuments => ProceedRequestKeeps(w, tid, ok);
        case OwesDocumentsAndSnapshot(_, _) => ProceedRequestKeeps(w, tid, ok);
        case OwesSnapshot(_, _) => ProceedSnapshotKeeps(w, tid, ok);
      }
    case Remove(_) => RemoveKeeps(w, s);
    case FlushDelete(_, _) => FlushDeleteKeeps(w, s);
    case StartBuild(_) => BuildStepKeeps(w, s);
    case CommitBuild(b) => if b.SpanBuild? { CommitSpanKeeps(w, b); } else { CommitRebuildKeeps(w, b); }
    case FailBuild(_, _) => BuildStepKeeps(w, s);
  }

  predicate RecordsStand(w: World, v: World) {
    && w.t.clock <= v.t.clock
    && forall tid :: tid in v.t.tournaments ==>
         (tid in w.t.tournaments && v.t.tournaments[tid] == w.t.tournaments[tid]) || v.t.tournaments[tid].updatedAt > w.t.clock
  }

  /** Nothing is written to the tournaments table, and no build starts. */
  predicate NothingSaved(w: World, v: World) {
    v.t.tournaments == w.t.tournaments && v.builds <= w.builds && w.t.clock <= v.t.clock
  }

  lemma ProceedSavesNothing(w: World, tid: string, ok: bool)
    requires tid in w.duties
    ensures NothingSaved(w, Proceeded(w, tid, ok)) && Proceeded(w, tid, ok).builds == w.builds
  {
    match w.duties[tid]
    case OwesDeltas(_, _, _) =>
    case OwesDocuments => RequestSavesNothing(w, Documents, tid, ok);
    case OwesDocumentsAndSnapshot(_, _) => RequestSavesNothing(w, Documents, tid, ok);
    case OwesSnapshot(mode, savedAt) => ProduceSavesNothing(Unlock(w, tid), tid, mode, savedAt, ok);
  }

  lemma ProceedStands(w: World, tid: string, ok: bool)
    requires tid in w.duties
    ensures RecordsStand(w, Proceeded(w, tid, ok)) && Proceeded(w, tid, ok).builds == w.builds
  {
    ProceedSavesNothing(w, tid, ok);
  }

  lemma CommitStands(w: World, b: Build)
    ensures RecordsStand(w, Committed(w, b)) && Committed(w, b).builds <= w.builds
  {
  }

  /** A save writes one record, under a stamp nobody has seen; what follows it writes none. */
  predicate SavedOnly(w: World, v: World, tid: string) {
    && w.t.clock < v.t.clock && v.builds == w.builds
    && tid in v.t.tournaments && v.t.tournaments[tid].updatedAt > w.t.clock
    && v.t.tournaments == w.t.tournaments[tid := v.t.tournaments[tid]]
  }

  lemma ProduceSavesNothing(w: World, tid: string, mode: SnapshotMode, savedAt: nat, ok: bool)
    ensures var v := ProduceSnapshot(w, tid, mode, savedAt, ok);
            v.t.tournaments == w.t.tournaments && v.builds == w.builds && w.t.clock <= v.t.clock
  {
  }

  lemma RequestSavesNothing(w: World, region: Region, tid: string, ok: bool)
    ensures RequestSpan(w, region, tid, ok).t.tournaments == w.t.tournaments
    ensures RequestSpan(w, region, tid, ok).builds == w.builds && w.t.clock <= RequestSpan(w, region, tid, ok).t.clock
  {
  }

  lemma WholesaleStands(w: World, s: Step)
    requires Enabled(w, s) && (s.WholesaleSave? || s.DurableWholesale?)
    ensures SavedOnly(w, Next(w, s), s.tid)
  {
    var saved := Replaced(w, s.tid, s.image);
    assert SavedOnly(w, saved, s.tid);
    if s.DurableWholesale? {
      RequestSavesNothing(saved, Documents, s.tid, s.requested);
      var asked := RequestSpan(saved, Documents, s.tid, s.requested);
      ProduceSavesNothing(asked, s.tid, s.mode, Version(asked, s.tid), s.projected);
    }
  }

  lemma MutationStands(w: World, s: Step)
    requires Enabled(w, s) && (s.MutationSave? || s.DurableMutation?)
    ensures SavedOnly(w, Next(w, s), s.tid)
  {
    var saved := MutationSaved(w, s.tid, s.image);
    assert SavedOnly(w, saved, s.tid);
    if s.DurableMutation? {
      var flushed := FlushDeltas(saved, s.tid, s.deltas, s.flushed);
      RequestSavesNothing(Demand(flushed, Documents, s.tid), Documents, s.tid, s.requested);
    }
  }

  lemma SaveStands(w: World, s: Step)
    requires Enabled(w, s) && (s.MutationSave? || s.DurableMutation? || s.WholesaleSave? || s.DurableWholesale?)
    ensures RecordsStand(w, Next(w, s)) && Next(w, s).builds == w.builds
  {
    if s.WholesaleSave? || s.DurableWholesale? {
      WholesaleStands(w, s);
    } else {
      MutationStands(w, s);
    }
  }

  lemma StepStands(w: World, s: Step)
    requires Enabled(w, s)
    ensures RecordsStand(w, Next(w, s))
    ensures Next(w, s).builds <= w.builds + (if s.StartBuild? then {s.build} else {})
  {
    match s
    case Proceed(tid, ok) => ProceedStands(w, tid, ok);
    case CommitBuild(b) => CommitStands(w, b);
    case Remove(_) =>
    case FlushDelete(_, _) =>
    case StartBuild(_) =>
    case FailBuild(_, _) =>
    case _ => SaveStands(w, s);
  }

  lemma BuildsKeep(w: World, s: Step)
    requires Inv(w) && Enabled(w, s)
    ensures BuildsOk(Next(w, s))
  {
    StepStands(w, s);
    if s.StartBuild? {
      assert InvAt(w, s.build.tid);
    }
  }

  /** Every step keeps the invariant for every tournament. */
  lemma StepKeeps(w: World, s: Step)
    requires Inv(w) && Enabled(w, s)
    ensures Inv(Next(w, s))
  {
    BuildsKeep(w, s);
    forall tid ensures InvAt(Next(w, s), tid) {
      assert InvAt(w, tid);
      if tid == TidOf(s) {
        NamedKeeps(w, s);
      } else {
        OthersKeep(w, s, tid);
        SameKeepsInvariant(w, Next(w, s), tid);
      }
    }
  }
}
