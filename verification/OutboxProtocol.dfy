/**
 The projection outbox as a protocol between saves, deletes and the span producers, over any number of tournaments.

 One step is one transaction. Between the transactions of a save its tournament lock is held, and everybody else may
 step; a delete holds no lock.
 */
module OutboxProtocol {
  import opened Options
  import opened ReadModel
  import opened OutboxTables

  // ---------------------------------------------------------------- what the delta and span builders promise

  predicate Writes(d: ProjectionDelta) {
    d.op == Upsert || d.op == Delete || d.op == Update
  }

  predicate SameColumns(a: Option<Columns>, b: Option<Columns>) {
    a.Some? && b.Some? ==> a.value.Keys == b.value.Keys
  }

  /** Incremental rows of one tournament; documents are written by their own spans only. */
  predicate DeltaRows(deltas: seq<ProjectionDelta>, tid: string) {
    forall d :: d in deltas ==> Incremental(d, tid) && Writes(d) && d.table != TABLE_PUBLIC_PARTICIPANTS
  }

  /** The deltas of a save turn the read rows of the version before into those of the new one, and fix the latter. */
  ghost predicate DeltasTurn(before: Image, after: Image, deltas: seq<ProjectionDelta>) {
    forall id: RowId :: Owns(Snapshot, id.table) ==>
      && Apply(deltas, id, ImageRow(before, id)) == ImageRow(after, id)
      && Apply(deltas, id, ImageRow(after, id)) == ImageRow(after, id)
      && SameColumns(ImageRow(before, id), ImageRow(after, id))
  }

  /** A rebuild of a version leaves a row alone or gives it its value in that version. */
  ghost predicate Settles(deltas: seq<ProjectionDelta>, image: Image) {
    forall id: RowId, v: Option<Columns> :: Owns(Snapshot, id.table) && SameColumns(v, ImageRow(image, id)) ==>
      Apply(deltas, id, v) == v || Apply(deltas, id, v) == ImageRow(image, id)
  }

  predicate SpanRows(region: Region, body: seq<ProjectionDelta>, tid: string, spanId: string) {
    forall d :: d in body ==>
      BodyRow(d, tid, spanId) && Writes(d) && (d.table == TABLE_PUBLIC_PARTICIPANTS <==> region.Documents?)
  }

  /** Applied to emptied tables, a span's body builds exactly the read rows of its version. */
  ghost predicate BuildsExactly(region: Region, body: seq<ProjectionDelta>, image: Image) {
    forall id: RowId :: Owns(region, id.table) ==> Apply(body, id, None) == ImageRow(image, id)
  }

  ghost predicate SameDocuments(before: Image, after: Image) {
    forall id: RowId :: Owns(Documents, id.table) ==> ImageRow(before, id) == ImageRow(after, id)
  }

  // ---------------------------------------------------------------- the state

  /** How a wholesale save's span is produced: built in the request, or requested for the producer process. */
  datatype SnapshotMode = Inline(spanId: string, body: seq<ProjectionDelta>) | Deferred

  /** What the holder of a tournament's lock has still to do, its record being committed. */
  datatype Duty =
    | OwesDeltas(before: Image, deltas: seq<ProjectionDelta>, documents: bool)
    | OwesDocuments
    | OwesDocumentsAndSnapshot(mode: SnapshotMode, savedAt: nat)
    | OwesSnapshot(mode: SnapshotMode, savedAt: nat)

  /** A span or rebuild in flight, with the record version it was built from; `None` when the record was absent. */
  datatype Build =
    | SpanBuild(region: Region, tid: string, requestedAt: nat, updatedAt: Option<nat>, image: Image, spanId: string,
                body: seq<ProjectionDelta>)
    | Rebuild(tid: string, updatedAt: Option<nat>, image: Image, deltas: seq<ProjectionDelta>)

  /** `demanded` and `covered` are history: the version a request speaks for, the version the last span was built from. */
  datatype World = World(
    t: Tables,
    duties: map<string, Duty>,
    deleting: multiset<string>,
    builds: set<Build>,
    lost: set<(Region, string)>,
    raced: set<string>,
    demanded: map<(Region, string), nat>,
    covered: map<(Region, string), nat>)

  predicate Initial(w: World) {
    && w.t.tournaments == map[] && w.t.snapshotRequests == map[] && w.t.documentRequests == map[] && w.t.queue == []
    && w.duties == map[] && w.deleting == multiset{} && w.builds == {} && w.lost == {} && w.raced == {}
    && w.demanded == map[] && w.covered == map[]
  }

  datatype Step =
    | MutationSave(tid: string, before: Image, image: Image, deltas: seq<ProjectionDelta>, documents: bool)
    | DurableMutation(tid: string, before: Image, image: Image, deltas: seq<ProjectionDelta>, documents: bool, flushed: bool,
                      requested: bool)
    | WholesaleSave(tid: string, image: Image, mode: SnapshotMode)
    | DurableWholesale(tid: string, image: Image, mode: SnapshotMode, requested: bool, projected: bool)
    | Proceed(tid: string, ok: bool)
    | Remove(tid: string)
    | FlushDelete(tid: string, ok: bool)
    | StartBuild(build: Build)
    | CommitBuild(build: Build)
    | FailBuild(build: Build, error: string)

  // ---------------------------------------------------------------- transitions

  function DeleteDelta(tid: string): ProjectionDelta {
    ProjectionDelta(tid, Delete, TABLE_TOURNAMENTS, Filter(map["tournament_id" := tid]), None, Some("deleteTournament"), None)
  }

  function Version(w: World, tid: string): nat {
    if tid in w.t.tournaments then w.t.tournaments[tid].updatedAt else 0
  }

  /** The record commits; a save that finds a delete under way, which holds no lock, has raced it. */
  function RecordSaved(w: World, tid: string, image: Image): World {
    w.(t := Saved(w.t, tid, image), raced := if tid in w.deleting then w.raced + {tid} else w.raced)
  }

  /** A mutation read its record under the lock; one that finds it removed since writes it back. */
  function MutationSaved(w: World, tid: string, image: Image): World {
    var saved := RecordSaved(w, tid, image);
    if tid in w.t.tournaments then saved
    else saved.(raced := saved.raced + {tid}, lost := saved.lost + {(Documents, tid)})
  }

  function Demand(w: World, region: Region, tid: string): World {
    w.(demanded := w.demanded[(region, tid) := Version(w, tid)])
  }

  /** A span built from the record's version `builtFrom` lands; it supersedes what was lost. */
  function Cover(w: World, region: Region, tid: string, builtFrom: nat): World {
    w.(covered := w.covered[(region, tid) := builtFrom], lost := w.lost - {(region, tid)})
  }

  /** A tournament at rest whose whole read model was just written is repaired. */
  function Repair(w: World, tid: string): World {
    if tid in w.duties || tid in w.deleting then w else w.(raced := w.raced - {tid})
  }

  function Lose(w: World, region: Region, tid: string): World {
    w.(lost := w.lost + {(region, tid)})
  }

  function FlushDeltas(w: World, tid: string, deltas: seq<ProjectionDelta>, ok: bool): World {
    if ok then w.(t := Appended(w.t, deltas)) else Lose(w, Snapshot, tid)
  }

  function RequestSpan(w: World, region: Region, tid: string, ok: bool): World {
    if ok then w.(t := Requested(w.t, region, [tid], "save")) else Lose(w, region, tid)
  }

  /** An inline span is built from the record just saved, which was written at `savedAt`. */
  function ProduceSnapshot(w: World, tid: string, mode: SnapshotMode, savedAt: nat, ok: bool): World {
    match mode
    case Deferred => RequestSpan(w, Snapshot, tid, ok)
    case Inline(spanId, body) =>
      if !ok then Lose(w, Snapshot, tid)
      else
        var appended := w.(t := Appended(w.t, SpanOf(tid, Snapshot, spanId, body)));
        if tid in w.t.tournaments then Repair(Cover(appended, Snapshot, tid, savedAt), tid) else appended
  }

  /** A wholesale save before its span: the record and both demands. */
  function Replaced(w: World, tid: string, image: Image): World {
    Demand(Demand(RecordSaved(w, tid, image), Documents, tid), Snapshot, tid)
  }

  function SetDuty(w: World, tid: string, duty: Duty): World {
    w.(duties := w.duties[tid := duty])
  }

  function Unlock(w: World, tid: string): World {
    w.(duties := w.duties - {tid})
  }

  function Proceeded(w: World, tid: string, ok: bool): World
    requires tid in w.duties
  {
    match w.duties[tid]
    case OwesDeltas(_, deltas, documents) =>
      var flushed := FlushDeltas(w, tid, deltas, ok);
      if documents then SetDuty(flushed, tid, OwesDocuments) else Unlock(flushed, tid)
    case OwesDocuments => Unlock(RequestSpan(w, Documents, tid, ok), tid)
    case OwesDocumentsAndSnapshot(mode, savedAt) => SetDuty(RequestSpan(w, Documents, tid, ok), tid, OwesSnapshot(mode, savedAt))
    case OwesSnapshot(mode, savedAt) => ProduceSnapshot(Unlock(w, tid), tid, mode, savedAt, ok)
  }

  /** The delete's queue row; with the record gone and nobody writing it back, the read model is empty as it should be. */
  function DeleteFlushed(w: World, tid: string, ok: bool): World {
    var v := FlushDeltas(w.(deleting := w.deleting - multiset{tid}), tid, [DeleteDelta(tid)], ok);
    if !ok || tid in w.t.tournaments || tid in w.duties then v
    else v.(raced := v.raced - {tid}, lost := v.lost - {(Snapshot, tid)})
  }

  function Deltas(b: Build): seq<ProjectionDelta> {
    match b
    case SpanBuild(region, tid, _, updatedAt, _, spanId, body) => if updatedAt.None? then [] else SpanOf(tid, region, spanId, body)
    case Rebuild(_, _, _, deltas) => deltas
  }

  function Committed(w: World, b: Build): World {
    match b
    case SpanBuild(region, tid, requestedAt, updatedAt, _, _, _) =>
      var w' := w.(t := Completed(w.t, region, tid, requestedAt, updatedAt, Deltas(b)), builds := w.builds - {b});
      if !Fence(w.t, tid, updatedAt).Enqueued? then w'
      else if region.Documents? then Cover(w', region, tid, updatedAt.value)
      else Repair(Cover(w', region, tid, updatedAt.value), tid)
    case Rebuild(tid, updatedAt, _, deltas) =>
      w.(t := FencedInsert(w.t, tid, updatedAt, deltas), builds := w.builds - {b})
  }

  function Next(w: World, s: Step): World
    requires Enabled(w, s)
  {
    match s
    case MutationSave(tid, before, image, deltas, documents) =>
      var saved := SetDuty(MutationSaved(w, tid, image), tid, OwesDeltas(before, deltas, documents));
      if documents then Demand(saved, Documents, tid) else saved
    case DurableMutation(tid, before, image, deltas, documents, flushed, requested) =>
      var saved := FlushDeltas(MutationSaved(w, tid, image), tid, deltas, flushed);
      if documents then RequestSpan(Demand(saved, Documents, tid), Documents, tid, requested) else saved
    case WholesaleSave(tid, image, mode) =>
      var saved := Replaced(w, tid, image);
      SetDuty(saved, tid, OwesDocumentsAndSnapshot(mode, Version(saved, tid)))
    case DurableWholesale(tid, image, mode, requested, projected) =>
      var asked := RequestSpan(Replaced(w, tid, image), Documents, tid, requested);
      ProduceSnapshot(asked, tid, mode, Version(asked, tid), projected)
    case Proceed(tid, ok) => Proceeded(w, tid, ok)
    case Remove(tid) =>
      w.(t := Removed(w.t, tid), deleting := w.deleting + multiset{tid},
         raced := if tid in w.duties then w.raced + {tid} else w.raced,
         demanded := w.demanded - {(Snapshot, tid), (Documents, tid)},
         covered := w.covered - {(Snapshot, tid), (Documents, tid)})
    case FlushDelete(tid, ok) => DeleteFlushed(w, tid, ok)
    case StartBuild(b) => w.(builds := w.builds + {b})
    case CommitBuild(b) => Committed(w, b)
    case FailBuild(b, error) =>
      if b.SpanBuild? then w.(t := FailureRecorded(w.t, b.region, b.tid, error), builds := w.builds - {b})
      else w.(builds := w.builds - {b})
  }

  predicate NewSpan(w: World, spanId: string) {
    forall d :: d in w.t.queue ==> Outside(d, spanId)
  }

  ghost predicate ModeOk(mode: SnapshotMode, image: Image, tid: string) {
    mode.Inline? ==> SpanRows(Snapshot, mode.body, tid, mode.spanId) && BuildsExactly(Snapshot, mode.body, image)
  }

  ghost predicate MutationOk(w: World, tid: string, before: Image, image: Image, deltas: seq<ProjectionDelta>, documents: bool) {
    && tid != "" && tid !in w.duties
    && (tid in w.t.tournaments ==> before == w.t.tournaments[tid].image)
    && DeltaRows(deltas, tid) && DeltasTurn(before, image, deltas)
    && (documents || SameDocuments(before, image))
  }

  /** What a build is made of, given that it read `image` at its version. */
  ghost predicate BuildOk(b: Build) {
    match b
    case SpanBuild(region, tid, _, updatedAt, image, spanId, body) =>
      SpanRows(region, body, tid, spanId) && (updatedAt.Some? ==> BuildsExactly(region, body, image))
    case Rebuild(tid, _, image, deltas) => DeltaRows(deltas, tid) && Settles(deltas, image)
  }

  /** A build starts by reading the stored record, or finding none. */
  predicate ReadsStored(t: Tables, b: Build) {
    match b.updatedAt
    case None => b.tid !in t.tournaments
    case Some(v) => b.tid in t.tournaments && t.tournaments[b.tid] == StoredRecord(v, b.image)
  }

  /**
   A save takes the lock, so it waits while another holds it; a delete does not. It read its record earlier, and another
   delete may have removed it since: its own removal then finds no row, and it goes on to its queue row all the same.
   */
  ghost predicate Enabled(w: World, s: Step) {
    match s
    case MutationSave(tid, before, image, deltas, documents) => MutationOk(w, tid, before, image, deltas, documents)
    case DurableMutation(tid, before, image, deltas, documents, _, _) => MutationOk(w, tid, before, image, deltas, documents)
    case WholesaleSave(tid, image, mode) => tid != "" && tid !in w.duties && ModeOk(mode, image, tid)
    case DurableWholesale(tid, image, mode, _, _) =>
      tid != "" && tid !in w.duties && ModeOk(mode, image, tid) && (mode.Inline? ==> NewSpan(w, mode.spanId))
    case Proceed(tid, _) =>
      tid in w.duties && (w.duties[tid].OwesSnapshot? && w.duties[tid].mode.Inline? ==> NewSpan(w, w.duties[tid].mode.spanId))
    case Remove(_) => true
    case FlushDelete(tid, _) => tid in w.deleting
    case StartBuild(b) => b.tid != "" && BuildOk(b) && ReadsStored(w.t, b) && b !in w.builds
    case CommitBuild(b) => b in w.builds && (b.SpanBuild? ==> NewSpan(w, b.spanId))
    case FailBuild(b, _) => b in w.builds
  }

  ghost predicate ValidRun(w: World, steps: seq<Step>)
    decreases |steps|
  {
    |steps| == 0 || (Enabled(w, steps[0]) && ValidRun(Next(w, steps[0]), steps[1..]))
  }

  ghost function Run(w: World, steps: seq<Step>): World
    requires ValidRun(w, steps)
    decreases |steps|
  {
    if |steps| == 0 then w else Run(Next(w, steps[0]), steps[1..])
  }
}
