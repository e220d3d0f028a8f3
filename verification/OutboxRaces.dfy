/**
 A delete takes no tournament lock: it removes the record, and writes its queue row in a later transaction. Both can fall
 anywhere among the steps of a save. What the read model then shows, and exactly when it agrees with the stored record.
 */
module OutboxRaces {
  import opened Options
  import opened ReadModel
  import opened OutboxTables
  import opened OutboxProtocol
  import opened OutboxInvariant
  import opened OutboxSteps
  import opened OutboxConvergence

  /** Does the read model agree with the stored record on every row a snapshot owns? */
  ghost predicate Agrees(w: World, tid: string) {
    forall id: RowId :: Owns(Snapshot, id.table) ==> Replay(w.t.queue, tid, id) == Target(w.t, tid, id)
  }

  // ---------------------------------------------------------------- what each step shows

  /** A span replaces the row; a request for one leaves it. */
  function ModeShows(mode: SnapshotMode, ok: bool, id: RowId, v: Option<Columns>): Option<Columns> {
    if ok && mode.Inline? then Apply(mode.body, id, None) else v
  }

  function DutyShows(duty: Duty, ok: bool, id: RowId, v: Option<Columns>): Option<Columns> {
    match duty
    case OwesDeltas(_, deltas, _) => if ok then Apply(deltas, id, v) else v
    case OwesSnapshot(mode, _) => ModeShows(mode, ok, id, v)
    case _ => v
  }

  function BuildShows(w: World, b: Build, id: RowId, v: Option<Columns>): Option<Columns> {
    if !Fence(w.t, b.tid, b.updatedAt).Enqueued? then v
    else if b.Rebuild? then Apply(b.deltas, id, v)
    else if b.region.Snapshot? then Apply(b.body, id, None)
    else v
  }

  /** The read row of a drained queue after a step, given the one before it. */
  ghost function Shows(w: World, s: Step, tid: string, id: RowId, v: Option<Columns>): Option<Columns>
    requires Enabled(w, s)
  {
    if TidOf(s) != tid then v
    else
      match s
      case DurableMutation(_, _, _, deltas, _, flushed, _) => if flushed then Apply(deltas, id, v) else v
      case DurableWholesale(_, _, mode, _, projected) => ModeShows(mode, projected, id, v)
      case Proceed(_, ok) => DutyShows(w.duties[tid], ok, id, v)
      case FlushDelete(_, ok) => if ok then None else v
      case CommitBuild(b) => BuildShows(w, b, id, v)
      case _ => v
  }

  lemma SpanShows(w: World, region: Region, tid: string, spanId: string, body: seq<ProjectionDelta>, id: RowId)
    requires SpanRows(region, body, tid, spanId) && NewSpan(w, spanId) && Owns(Snapshot, id.table)
    ensures Replay(w.t.queue + SpanOf(tid, region, spanId, body), tid, id)
         == if region.Snapshot? then Apply(body, id, None) else Replay(w.t.queue, tid, id)
  {
    ReplaySpan(w.t.queue, tid, region, spanId, body, id);
    if region.Documents? {
      OtherTables(body, id, Replay(w.t.queue, tid, id));
    }
  }

  lemma ProduceShows(w: World, tid: string, mode: SnapshotMode, savedAt: nat, ok: bool, id: RowId)
    requires mode.Inline? ==> SpanRows(Snapshot, mode.body, tid, mode.spanId) && NewSpan(w, mode.spanId)
    requires Owns(Snapshot, id.table)
    ensures Replay(ProduceSnapshot(w, tid, mode, savedAt, ok).t.queue, tid, id) == ModeShows(mode, ok, id, Replay(w.t.queue, tid, id))
  {
    var v := ProduceSnapshot(w, tid, mode, savedAt, ok);
    if ok && mode.Inline? {
      assert v.t.queue == w.t.queue + SpanOf(tid, Snapshot, mode.spanId, mode.body);
      SpanShows(w, Snapshot, tid, mode.spanId, mode.body, id);
    } else {
      assert v.t.queue == w.t.queue;
    }
  }

  lemma FlushShows(w: World, v: World, tid: string, deltas: seq<ProjectionDelta>, ok: bool, id: RowId)
    requires DeltaRows(deltas, tid) && v.t.queue == if ok then w.t.queue + deltas else w.t.queue
    ensures Replay(v.t.queue, tid, id) == if ok then Apply(deltas, id, Replay(w.t.queue, tid, id)) else Replay(w.t.queue, tid, id)
  {
    FlushedRow(w, tid, deltas, id);
  }

  lemma SaveShows(w: World, s: Step, id: RowId)
    requires Enabled(w, s) && (s.DurableMutation? || s.DurableWholesale? || s.MutationSave? || s.WholesaleSave?)
    requires Owns(Snapshot, id.table)
    ensures Replay(Next(w, s).t.queue, s.tid, id) == Shows(w, s, s.tid, id, Replay(w.t.queue, s.tid, id))
  {
    match s
    case DurableMutation(tid, _, _, deltas, _, flushed, _) =>
      MutationQueue(w, s);
      FlushShows(w, Next(w, s), tid, deltas, flushed, id);
    case DurableWholesale(_, _, _, _, _) => WholesaleShows(w, s, id);
    case _ => PlainSaveQueue(w, s);
  }

  lemma MutationQueue(w: World, s: Step)
    requires Enabled(w, s) && s.DurableMutation?
    ensures Next(w, s).t.queue == if s.flushed then w.t.queue + s.deltas else w.t.queue
  {
    var flushed := Flushed(w, s);
    assert flushed.t.queue == if s.flushed then w.t.queue + s.deltas else w.t.queue;
    assert RequestSpan(Demand(flushed, Documents, s.tid), Documents, s.tid, s.requested).t.queue == flushed.t.queue;
  }

  lemma PlainSaveQueue(w: World, s: Step)
    requires Enabled(w, s) && (s.MutationSave? || s.WholesaleSave?)
    ensures Next(w, s).t.queue == w.t.queue
  {
  }

  lemma WholesaleShows(w: World, s: Step, id: RowId)
    requires Enabled(w, s) && s.DurableWholesale? && Owns(Snapshot, id.table)
    ensures Replay(Next(w, s).t.queue, s.tid, id) == ModeShows(s.mode, s.projected, id, Replay(w.t.queue, s.tid, id))
  {
    var asked := RequestSpan(Replaced(w, s.tid, s.image), Documents, s.tid, s.requested);
    assert asked.t.queue == w.t.queue;
    ProduceShows(asked, s.tid, s.mode, Version(asked, s.tid), s.projected, id);
  }

  lemma ProceedShows(w: World, tid: string, ok: bool, id: RowId)
    requires DutyOk(w, tid) && Enabled(w, Proceed(tid, ok)) && Owns(Snapshot, id.table)
    ensures Replay(Proceeded(w, tid, ok).t.queue, tid, id) == DutyShows(w.duties[tid], ok, id, Replay(w.t.queue, tid, id))
  {
    match w.duties[tid]
    case OwesDeltas(_, deltas, _) => FlushShows(w, Proceeded(w, tid, ok), tid, deltas, ok, id);
    case OwesSnapshot(mode, savedAt) => ProduceShows(Unlock(w, tid), tid, mode, savedAt, ok, id);
    case _ => assert Proceeded(w, tid, ok).t.queue == w.t.queue;
  }

  lemma CommitShows(w: World, b: Build, id: RowId)
    requires BuildOk(b) && Enabled(w, CommitBuild(b)) && Owns(Snapshot, id.table)
    ensures Replay(Committed(w, b).t.queue, b.tid, id) == BuildShows(w, b, id, Replay(w.t.queue, b.tid, id))
  {
    if Fence(w.t, b.tid, b.updatedAt).Enqueued? {
      assert Committed(w, b).t.queue == w.t.queue + Deltas(b);
      if b.SpanBuild? {
        SpanShows(w, b.region, b.tid, b.spanId, b.body, id);
      } else {
        FlushedRow(w, b.tid, b.deltas, id);
      }
    } else {
      assert Committed(w, b).t.queue == w.t.queue;
    }
  }

  lemma DeleteShows(w: World, tid: string, ok: bool, id: RowId)
    requires Owns(Snapshot, id.table)
    ensures Replay(DeleteFlushed(w, tid, ok).t.queue, tid, id) == if ok then None else Replay(w.t.queue, tid, id)
  {
    if ok {
      assert DeleteFlushed(w, tid, ok).t.queue == w.t.queue + [DeleteDelta(tid)];
      DeletedReplay(w, tid, id);
    }
  }

  /** Every step changes a read row as `Shows` says. */
  lemma StepShows(w: World, s: Step, tid: string, id: RowId)
    requires Inv(w) && Enabled(w, s) && Owns(Snapshot, id.table)
    ensures Replay(Next(w, s).t.queue, tid, id) == Shows(w, s, tid, id, Replay(w.t.queue, tid, id))
  {
    assert InvAt(w, tid);
    if TidOf(s) != tid {
      OthersKeep(w, s, tid);
    } else {
      match s
      case Proceed(_, ok) => ProceedShows(w, tid, ok, id);
      case FlushDelete(_, ok) => DeleteShows(w, tid, ok, id);
      case CommitBuild(b) => CommitShows(w, b, id);
      case Remove(_) =>
      case StartBuild(_) =>
      case FailBuild(b, error) => assert Next(w, s).t.queue == w.t.queue;
      case _ => SaveShows(w, s, id);
    }
  }

  ghost function RunShows(w: World, steps: seq<Step>, tid: string, id: RowId, v: Option<Columns>): Option<Columns>
    requires ValidRun(w, steps)
    decreases |steps|
  {
    if |steps| == 0 then v else RunShows(Next(w, steps[0]), steps[1..], tid, id, Shows(w, steps[0], tid, id, v))
  }

  lemma {:induction false} RunShown(w: World, steps: seq<Step>, tid: string, id: RowId)
    requires Inv(w) && ValidRun(w, steps) && Owns(Snapshot, id.table)
    ensures Replay(Run(w, steps).t.queue, tid, id) == RunShows(w, steps, tid, id, Replay(w.t.queue, tid, id))
    decreases |steps|
  {
    if |steps| > 0 {
      StepShows(w, steps[0], tid, id);
      StepKeeps(w, steps[0]);
      RunShown(Next(w, steps[0]), steps[1..], tid, id);
    }
  }

  /**
   Any number of deletes and saves, overlapping in any way: once a delete's row has landed, the two agree exactly when
   the writes that land after it build the stored record's projection out of nothing.
   */
  lemma AgreesIffBuiltSinceDelete(w: World, tid: string, after: seq<Step>)
    requires Inv(w) && Enabled(w, FlushDelete(tid, true)) && ValidRun(Next(w, FlushDelete(tid, true)), after)
    ensures var emptied := Next(w, FlushDelete(tid, true));
            (Agrees(Run(emptied, after), tid) <==>
             forall id: RowId :: Owns(Snapshot, id.table) ==>
               RunShows(emptied, after, tid, id, None) == Target(Run(emptied, after).t, tid, id))
  {
    var emptied := Next(w, FlushDelete(tid, true));
    StepKeeps(w, FlushDelete(tid, true));
    forall id: RowId | Owns(Snapshot, id.table)
      ensures Replay(Run(emptied, after).t.queue, tid, id) == RunShows(emptied, after, tid, id, None)
    {
      StepShows(w, FlushDelete(tid, true), tid, id);
      RunShown(emptied, after, tid, id);
    }
  }

  // ---------------------------------------------------------------- one delete and one save

  predicate IsSave(s: Step) {
    s.MutationSave? || s.DurableMutation? || s.WholesaleSave? || s.DurableWholesale?
  }

  predicate IsMutation(s: Step) {
    s.MutationSave? || s.DurableMutation?
  }

  /** The queue rows a save has to write: its deltas, its span's rows, or none when it leaves the span to the producer. */
  function RowsOf(save: Step): seq<ProjectionDelta>
    requires IsSave(save)
  {
    if IsMutation(save) then save.deltas else if save.mode.Inline? then save.mode.body else []
  }

  /**
   How far a delete and a save of one tournament have come: record removed, delete's row written; record saved, its rows
   written or given up. `recordLast`: the save's record came after the removal. `rowsLast`: its rows landed, after the
   delete's.
   */
  datatype Progress = Progress(removed: bool, emptied: bool, saved: bool, wrote: bool, recordLast: bool, rowsLast: bool)

  const NotStarted := Progress(false, false, false, false, false, false)

  /** Steps that are neither the delete's nor the save's, and write none of the rows a snapshot owns of this tournament. */
  predicate Bystander(s: Step, tid: string) {
    TidOf(s) != tid || s.StartBuild? || s.FailBuild? || (s.CommitBuild? && s.build.SpanBuild? && s.build.region.Documents?)
  }

  predicate Plays(p: Progress, s: Step, save: Step)
    requires IsSave(save)
  {
    || Bystander(s, save.tid)
    || (s == save && !p.saved)
    || (s.Proceed? && s.tid == save.tid)
    || (s == Remove(save.tid) && !p.removed)
    || (s == FlushDelete(save.tid, true) && !p.emptied)
  }

  function Wrote(p: Progress, landed: bool): Progress {
    p.(wrote := true, rowsLast := landed && p.emptied)
  }

  function Advance(p: Progress, w: World, s: Step, save: Step): Progress
    requires IsSave(save)
  {
    if Bystander(s, save.tid) then p
    else
      match s
      case Remove(_) => p.(removed := true)
      case FlushDelete(_, _) => p.(emptied := true)
      case Proceed(tid, ok) =>
        if tid !in w.duties then p
        else if w.duties[tid].OwesDeltas? then Wrote(p, ok)
        else if w.duties[tid].OwesSnapshot? then Wrote(p, ok && w.duties[tid].mode.Inline?)
        else p
      case DurableMutation(_, _, _, _, _, flushed, _) => Wrote(p.(saved := true, recordLast := p.removed), flushed)
      case DurableWholesale(_, _, mode, _, projected) => Wrote(p.(saved := true, recordLast := p.removed), projected && mode.Inline?)
      case _ => p.(saved := true, recordLast := p.removed)
  }

  /** The run interleaves the delete's two steps and the save's with steps of bystanders, in any order. */
  ghost predicate Interleaves(p: Progress, w: World, steps: seq<Step>, save: Step)
    requires IsSave(save) && ValidRun(w, steps)
    decreases |steps|
  {
    |steps| == 0 || (Plays(p, steps[0], save) && Interleaves(Advance(p, w, steps[0], save), Next(w, steps[0]), steps[1..], save))
  }

  ghost function Outcome(p: Progress, w: World, steps: seq<Step>, save: Step): Progress
    requires IsSave(save) && ValidRun(w, steps)
    decreases |steps|
  {
    if |steps| == 0 then p else Outcome(Advance(p, w, steps[0], save), Next(w, steps[0]), steps[1..], save)
  }

  // ---------------------------------------------------------------- what the interleaving keeps

  predicate OwesRowsOf(duty: Duty, save: Step)
    requires IsSave(save)
  {
    match duty
    case OwesDeltas(_, deltas, _) => IsMutation(save) && deltas == save.deltas
    case OwesDocumentsAndSnapshot(mode, _) => !IsMutation(save) && mode == save.mode
    case OwesSnapshot(mode, _) => !IsMutation(save) && mode == save.mode
    case OwesDocuments => false
  }

  predicate HolderOk(p: Progress, w: World, save: Step)
    requires IsSave(save)
  {
    && (!p.saved ==> !p.wrote && save.tid !in w.duties)
    && (p.saved && !p.wrote ==> save.tid in w.duties && OwesRowsOf(w.duties[save.tid], save))
    && (p.wrote && save.tid in w.duties ==> w.duties[save.tid].OwesDocuments?)
  }

  predicate RecordOk(p: Progress, w: World, save: Step)
    requires IsSave(save)
  {
    && (!p.removed ==> save.tid !in w.deleting && !p.emptied && !p.recordLast)
    && (!p.saved ==> !p.recordLast)
    && (p.removed || p.saved ==> (save.tid in w.t.tournaments <==> p.recordLast || !p.removed))
    && (p.saved && save.tid in w.t.tournaments ==> w.t.tournaments[save.tid].image == save.image)
  }

  ghost predicate SaveOk(p: Progress, save: Step)
    requires IsSave(save)
  {
    && (p.saved && !IsMutation(save) ==> ModeOk(save.mode, save.image, save.tid))
    && (p.rowsLast ==> p.wrote && p.emptied && (!IsMutation(save) ==> save.mode.Inline?))
  }

  ghost predicate RowsOk(p: Progress, w: World, save: Step)
    requires IsSave(save)
  {
    p.emptied ==> forall id: RowId :: Owns(Snapshot, id.table) ==>
      Replay(w.t.queue, save.tid, id) == if p.rowsLast then Apply(RowsOf(save), id, None) else None
  }

  lemma BystanderKeeps(p: Progress, w: World, s: Step, save: Step)
    requires IsSave(save) && Inv(w) && Enabled(w, s) && Bystander(s, save.tid)
    requires HolderOk(p, w, save) && RecordOk(p, w, save)
    ensures HolderOk(p, Next(w, s), save) && RecordOk(p, Next(w, s), save)
  {
    if TidOf(s) != save.tid {
      OthersKeep(w, s, save.tid);
    } else {
      BuildTouchesNothing(w, s);
    }
  }

  lemma BuildTouchesNothing(w: World, s: Step)
    requires Enabled(w, s) && (s.StartBuild? || s.FailBuild? || s.CommitBuild?)
    ensures Next(w, s).duties == w.duties && Next(w, s).deleting == w.deleting && Next(w, s).t.tournaments == w.t.tournaments
  {
  }

  /** The record is there after a save, and nothing is being deleted that was not. */
  predicate Stores(w: World, v: World, s: Step)
    requires IsSave(s)
  {
    s.tid in v.t.tournaments && v.t.tournaments[s.tid].image == s.image && v.deleting == w.deleting
  }

  lemma DurableMutationStores(w: World, s: Step)
    requires Enabled(w, s) && s.DurableMutation?
    ensures Stores(w, Next(w, s), s)
  {
    var flushed := Flushed(w, s);
    assert Stores(w, flushed, s);
    RequestSavesNothing(Demand(flushed, Documents, s.tid), Documents, s.tid, s.requested);
  }

  lemma DurableWholesaleStores(w: World, s: Step)
    requires Enabled(w, s) && s.DurableWholesale?
    ensures Stores(w, Next(w, s), s)
  {
    var asked := RequestSpan(Replaced(w, s.tid, s.image), Documents, s.tid, s.requested);
    assert Stores(w, asked, s);
    ProduceSavesNothing(asked, s.tid, s.mode, Version(asked, s.tid), s.projected);
  }

  lemma SaveStores(w: World, s: Step)
    requires Enabled(w, s) && IsSave(s)
    ensures Stores(w, Next(w, s), s)
  {
    if s.DurableMutation? {
      DurableMutationStores(w, s);
    } else if s.DurableWholesale? {
      DurableWholesaleStores(w, s);
    }
  }

  lemma SaveTakesLock(w: World, s: Step)
    requires Enabled(w, s) && IsSave(s)
    ensures s.DurableMutation? || s.DurableWholesale? ==> s.tid !in Next(w, s).duties
    ensures s.MutationSave? || s.WholesaleSave? ==> s.tid in Next(w, s).duties && OwesRowsOf(Next(w, s).duties[s.tid], s)
  {
    if s.DurableWholesale? {
      var asked := RequestSpan(Replaced(w, s.tid, s.image), Documents, s.tid, s.requested);
      assert asked.duties == w.duties;
    }
  }

  lemma ProceedAdvances(p: Progress, w: World, s: Step, save: Step)
    requires IsSave(save) && s.Proceed? && s.tid == save.tid && Enabled(w, s)
    requires HolderOk(p, w, save) && RecordOk(p, w, save)
    ensures HolderOk(Advance(p, w, s, save), Next(w, s), save) && RecordOk(Advance(p, w, s, save), Next(w, s), save)
  {
    ProceedSavesNothing(w, s.tid, s.ok);
    ProceedHolds(w, s.tid, s.ok);
  }

  /** What the holder owes next. */
  lemma ProceedHolds(w: World, tid: string, ok: bool)
    requires tid in w.duties
    ensures var v := Proceeded(w, tid, ok);
            && v.deleting == w.deleting
            && match w.duties[tid] {
                 case OwesDeltas(_, _, _) => tid in v.duties ==> v.duties[tid].OwesDocuments?
                 case OwesDocumentsAndSnapshot(mode, savedAt) => tid in v.duties && v.duties[tid] == OwesSnapshot(mode, savedAt)
                 case _ => tid !in v.duties
               }
  {
  }

  lemma PlayKeeps(p: Progress, w: World, s: Step, save: Step)
    requires IsSave(save) && Inv(w) && Enabled(w, s) && Plays(p, s, save) && !Bystander(s, save.tid)
    requires HolderOk(p, w, save) && RecordOk(p, w, save)
    ensures HolderOk(Advance(p, w, s, save), Next(w, s), save) && RecordOk(Advance(p, w, s, save), Next(w, s), save)
  {
    match s
    case Proceed(_, _) => ProceedAdvances(p, w, s, save);
    case Remove(_) =>
    case FlushDelete(tid, ok) => FlushDeleteLeaves(w, tid, ok);
    case _ =>
      SaveStores(w, s);
      SaveTakesLock(w, s);
  }

  lemma AdvanceRowsOk(p: Progress, w: World, s: Step, save: Step)
    requires IsSave(save) && Inv(w) && Enabled(w, s) && Plays(p, s, save)
    requires HolderOk(p, w, save) && RecordOk(p, w, save) && SaveOk(p, save) && RowsOk(p, w, save)
    ensures SaveOk(Advance(p, w, s, save), save) && RowsOk(Advance(p, w, s, save), Next(w, s), save)
  {
    var q := Advance(p, w, s, save);
    forall id: RowId | q.emptied && Owns(Snapshot, id.table)
      ensures Replay(Next(w, s).t.queue, save.tid, id) == if q.rowsLast then Apply(RowsOf(save), id, None) else None
    {
      StepShows(w, s, save.tid, id);
      AdvanceShows(p, w, s, save, id, Replay(w.t.queue, save.tid, id));
    }
  }

  lemma AdvanceShows(p: Progress, w: World, s: Step, save: Step, id: RowId, v: Option<Columns>)
    requires IsSave(save) && Enabled(w, s) && Plays(p, s, save) && HolderOk(p, w, save) && SaveOk(p, save)
    requires p.emptied ==> v == if p.rowsLast then Apply(RowsOf(save), id, None) else None
    ensures var q := Advance(p, w, s, save);
            q.emptied ==> Shows(w, s, save.tid, id, v) == if q.rowsLast then Apply(RowsOf(save), id, None) else None
  {
  }

  ghost predicate RaceOk(p: Progress, w: World, save: Step)
    requires IsSave(save)
  {
    Inv(w) && HolderOk(p, w, save) && RecordOk(p, w, save) && SaveOk(p, save) && RowsOk(p, w, save)
  }

  lemma {:induction false} InterleavingKeeps(p: Progress, w: World, steps: seq<Step>, save: Step)
    requires IsSave(save) && ValidRun(w, steps) && Interleaves(p, w, steps, save) && RaceOk(p, w, save)
    ensures RaceOk(Outcome(p, w, steps, save), Run(w, steps), save)
    decreases |steps|
  {
    if |steps| > 0 {
      var s := steps[0];
      if Bystander(s, save.tid) {
        BystanderKeeps(p, w, s, save);
      } else {
        PlayKeeps(p, w, s, save);
      }
      AdvanceRowsOk(p, w, s, save);
      StepKeeps(w, s);
      InterleavingKeeps(Advance(p, w, s, save), Next(w, s), steps[1..], save);
    }
  }

  ghost predicate Bare(image: Image) {
    forall id: RowId :: Owns(Snapshot, id.table) ==> id !in image
  }

  ghost predicate BuildsNothing(deltas: seq<ProjectionDelta>) {
    forall id: RowId :: Owns(Snapshot, id.table) ==> Apply(deltas, id, None) == None
  }

  /**
   Every interleaving of a delete with a save, of any kind, among steps of anybody else. Rows of the save that landed
   after the delete's row are all the read model has; otherwise it is empty. The record is there if it was saved after the
   removal. So the two agree exactly: always when the delete had the last word on both, or a whole span had; when only the
   record came last, if it projects to nothing; when only the rows did, if they create nothing; when a mutation's record
   and deltas both did, if those deltas build the projection out of nothing.
   */
  lemma DeleteOverlapsSave(w: World, steps: seq<Step>, save: Step)
    requires Inv(w) && IsSave(save) && save.tid !in w.duties && save.tid !in w.deleting
    requires ValidRun(w, steps) && Interleaves(NotStarted, w, steps, save)
    requires Outcome(NotStarted, w, steps, save).emptied && Outcome(NotStarted, w, steps, save).wrote
    ensures var p, end := Outcome(NotStarted, w, steps, save), Run(w, steps);
            && (save.tid in end.t.tournaments <==> p.recordLast)
            && (!p.recordLast && !p.rowsLast ==> Agrees(end, save.tid))
            && (p.recordLast && !p.rowsLast ==> (Agrees(end, save.tid) <==> Bare(save.image)))
            && (!p.recordLast && p.rowsLast ==>
                  (Agrees(end, save.tid) <==> if IsMutation(save) then BuildsNothing(save.deltas) else Bare(save.image)))
            && (p.recordLast && p.rowsLast && !IsMutation(save) ==> Agrees(end, save.tid))
            && (p.recordLast && p.rowsLast && IsMutation(save) ==>
                  (Agrees(end, save.tid) <==> BuildsExactly(Snapshot, save.deltas, save.image)))
  {
    InterleavingKeeps(NotStarted, w, steps, save);
    Verdict(Outcome(NotStarted, w, steps, save), Run(w, steps), save);
  }

  lemma Verdict(p: Progress, w: World, save: Step)
    requires IsSave(save) && RaceOk(p, w, save) && p.emptied && p.wrote
    ensures save.tid in w.t.tournaments <==> p.recordLast
    ensures !p.recordLast && !p.rowsLast ==> Agrees(w, save.tid)
    ensures p.recordLast && !p.rowsLast ==> (Agrees(w, save.tid) <==> Bare(save.image))
    ensures !p.recordLast && p.rowsLast ==>
              (Agrees(w, save.tid) <==> if IsMutation(save) then BuildsNothing(save.deltas) else Bare(save.image))
    ensures p.recordLast && p.rowsLast ==>
              (Agrees(w, save.tid) <==> !IsMutation(save) || BuildsExactly(Snapshot, save.deltas, save.image))
  {
    forall id: RowId | Owns(Snapshot, id.table)
      ensures Replay(w.t.queue, save.tid, id) == if p.rowsLast then Apply(RowsOf(save), id, None) else None
      ensures Target(w.t, save.tid, id) == if p.recordLast then ImageRow(save.image, id) else None
      ensures p.rowsLast && !IsMutation(save) ==> Apply(RowsOf(save), id, None) == ImageRow(save.image, id)
    {
    }
  }

  // ---------------------------------------------------------------- two runs

  lemma RunCons(w: World, s: Step, rest: seq<Step>)
    requires Enabled(w, s) && ValidRun(Next(w, s), rest)
    ensures ValidRun(w, [s] + rest) && Run(w, [s] + rest) == Run(Next(w, s), rest)
  {
    assert ([s] + rest)[1..] == rest;
  }

  lemma RunTwo(w: World, a: Step, b: Step, rest: seq<Step>)
    requires Enabled(w, a) && Enabled(Next(w, a), b) && ValidRun(Next(Next(w, a), b), rest)
    ensures ValidRun(w, [a, b] + rest) && Run(w, [a, b] + rest) == Run(Next(Next(w, a), b), rest)
  {
    RunCons(Next(w, a), b, rest);
    RunCons(w, a, [b] + rest);
    assert [a, b] + rest == [a] + ([b] + rest);
  }

  const EventId := RowId("events", map["event_id" := "e1"])
  const OneEvent: Image := map[EventId := map["event_name" := "Singles"]]

  function OneEventBody(spanId: string): seq<ProjectionDelta> {
    [ProjectionDelta("t1", Upsert, "events", Filter(EventId.key), Some(Row(OneEvent[EventId])), None, Some(spanId))]
  }

  /** The tournament is saved whole, its span built in the request. */
  function SavedWhole(spanId: string): Step {
    DurableWholesale("t1", OneEvent, Inline(spanId, OneEventBody(spanId)), true, true)
  }

  lemma OneEventBuilds(spanId: string)
    ensures ModeOk(Inline(spanId, OneEventBody(spanId)), OneEvent, "t1")
  {
    var body := OneEventBody(spanId);
    forall id: RowId ensures Apply(body, id, None) == ImageRow(OneEvent, id) {
      assert Apply(body[..0], id, None) == None;
      assert map[] + OneEvent[EventId] == OneEvent[EventId];
      assert Apply(body, id, None) == Effect(body[0], id, None);
    }
  }

  /** A tournament with one event, at rest, its queue holding one span. */
  predicate Created(w: World) {
    && "t1" in w.t.tournaments && w.t.tournaments["t1"].image == OneEvent && "t1" !in w.duties && "t1" !in w.deleting
    && w.t.queue == SpanOf("t1", Snapshot, "s1", OneEventBody("s1"))
  }

  lemma Creates(w: World)
    requires Initial(w)
    ensures Inv(w) && Enabled(w, SavedWhole("s1")) && Created(Next(w, SavedWhole("s1"))) && Inv(Next(w, SavedWhole("s1")))
  {
    InitialHolds(w);
    OneEventBuilds("s1");
    StepKeeps(w, SavedWhole("s1"));
    SaveStores(w, SavedWhole("s1"));
    SaveTakesLock(w, SavedWhole("s1"));
  }

  lemma Disagrees(w: World)
    requires "t1" in w.t.tournaments && w.t.tournaments["t1"].image == OneEvent && Replay(w.t.queue, "t1", EventId) == None
    ensures !Agrees(w, "t1")
  {
    assert Owns(Snapshot, EventId.table) && EventId in OneEvent;
  }

  /** A save between the delete's removal and its queue row: the row comes last and empties the read model. */
  lemma SavedWithinDelete(w: World, save: Step, id: RowId)
    requires IsSave(save) && Enabled(Next(w, Remove(save.tid)), save) && Owns(Snapshot, id.table)
    ensures var steps := [Remove(save.tid), save] + [FlushDelete(save.tid, true)];
            && ValidRun(w, steps) && save.tid in Run(w, steps).t.tournaments
            && Run(w, steps).t.tournaments[save.tid].image == save.image && Replay(Run(w, steps).t.queue, save.tid, id) == None
  {
    var removed := Next(w, Remove(save.tid));
    SaveStores(removed, save);
    EmptiedLast(Next(removed, save), save.tid, id);
    RunTwo(w, Remove(save.tid), save, [FlushDelete(save.tid, true)]);
  }

  lemma EmptiedLast(w: World, tid: string, id: RowId)
    requires tid in w.deleting && Owns(Snapshot, id.table)
    ensures ValidRun(w, [FlushDelete(tid, true)])
    ensures var end := Run(w, [FlushDelete(tid, true)]); end.t.tournaments == w.t.tournaments && Replay(end.t.queue, tid, id) == None
  {
    RunCons(w, FlushDelete(tid, true), []);
    assert [FlushDelete(tid, true)] + [] == [FlushDelete(tid, true)];
    FlushDeleteLeaves(w, tid, true);
    DeleteShows(w, tid, true, id);
  }

  /** A mutation that had read the record saves it after the whole delete: deltas of no change bring no row back. */
  lemma MutatedAfterDelete(w: World, tid: string, image: Image, id: RowId)
    requires tid != "" && tid !in w.duties && Owns(Snapshot, id.table)
    ensures var steps := [Remove(tid), FlushDelete(tid, true)] + [MutationSave(tid, image, image, [], false), Proceed(tid, true)];
            && ValidRun(w, steps) && tid in Run(w, steps).t.tournaments
            && Run(w, steps).t.tournaments[tid].image == image && Replay(Run(w, steps).t.queue, tid, id) == None
  {
    var save := MutationSave(tid, image, image, [], false);
    var removed := Next(w, Remove(tid));
    var emptied := Next(removed, FlushDelete(tid, true));
    FlushDeleteLeaves(removed, tid, true);
    DeleteShows(removed, tid, true, id);
    MutatesUnchanged(emptied, save);
    RunTwo(emptied, save, Proceed(tid, true), []);
    assert [save, Proceed(tid, true)] + [] == [save, Proceed(tid, true)];
    RunTwo(w, Remove(tid), FlushDelete(tid, true), [save, Proceed(tid, true)]);
  }

  lemma MutatesUnchanged(w: World, save: Step)
    requires save.MutationSave? && save.before == save.image && save.deltas == [] && !save.documents
    requires save.tid != "" && save.tid !in w.duties && save.tid !in w.t.tournaments
    ensures Enabled(w, save) && Enabled(Next(w, save), Proceed(save.tid, true))
    ensures var end := Next(Next(w, save), Proceed(save.tid, true));
            && end.t.queue == w.t.queue && save.tid in end.t.tournaments && end.t.tournaments[save.tid].image == save.image
  {
    assert Enabled(w, save);
    SaveStores(w, save);
    SaveTakesLock(w, save);
    ProceedSavesNothing(Next(w, save), save.tid, true);
  }

  lemma SavesWhole(w: World)
    requires Created(w)
    ensures Enabled(Next(w, Remove("t1")), SavedWhole("s2"))
  {
    OneEventBuilds("s2");
    assert NewSpan(w, "s2");
  }

  /** From an empty server, two runs after which the read model lacks a stored tournament's event. */
  lemma DeleteRaceExamples(w: World)
    requires Initial(w)
    ensures var within := [SavedWhole("s1")] + ([Remove("t1"), SavedWhole("s2")] + [FlushDelete("t1", true)]);
            ValidRun(w, within) && !Agrees(Run(w, within), "t1")
    ensures var after := [SavedWhole("s1")] + ([Remove("t1"), FlushDelete("t1", true)]
                           + [MutationSave("t1", OneEvent, OneEvent, [], false), Proceed("t1", true)]);
            ValidRun(w, after) && !Agrees(Run(w, after), "t1")
  {
    Creates(w);
    var v := Next(w, SavedWhole("s1"));
    SavesWhole(v);
    SavedWithinDelete(v, SavedWhole("s2"), EventId);
    Disagrees(Run(v, [Remove("t1"), SavedWhole("s2")] + [FlushDelete("t1", true)]));
    MutatedAfterDelete(v, "t1", OneEvent, EventId);
    Disagrees(Run(v, [Remove("t1"), FlushDelete("t1", true)] + [MutationSave("t1", OneEvent, OneEvent, [], false), Proceed("t1", true)]));
    RunCons(w, SavedWhole("s1"), [Remove("t1"), SavedWhole("s2")] + [FlushDelete("t1", true)]);
    RunCons(w, SavedWhole("s1"), [Remove("t1"), FlushDelete("t1", true)]
                                 + [MutationSave("t1", OneEvent, OneEvent, [], false), Proceed("t1", true)]);
  }
}
