/**
 What the outbox is for: drained, the queue yields the projection of the stored record, and no demand for a span is
 dropped. A delete takes no lock; what an overlap with a save leaves behind, until a later span or delete repairs it, is
 the subject of `OutboxRaces`.
 */
module OutboxConvergence {
  import opened Options
  import opened ReadModel
  import opened OutboxTables
  import opened OutboxProtocol
  import opened OutboxInvariant
  import opened OutboxSteps

  lemma InitialHolds(w: World)
    requires Initial(w)
    ensures Inv(w)
  {
    forall tid ensures InvAt(w, tid) {
      forall region ensures RegionOk(w, region, tid) {
        forall id: RowId | Owns(region, id.table) ensures Tracks(w, tid, id) {
        }
      }
    }
  }

  lemma {:induction false} RunKeeps(w: World, steps: seq<Step>)
    requires Inv(w) && ValidRun(w, steps)
    ensures Inv(Run(w, steps))
    decreases |steps|
  {
    if |steps| > 0 {
      StepKeeps(w, steps[0]);
      RunKeeps(Next(w, steps[0]), steps[1..]);
    }
  }

  /** Nothing of the region is owed, pending or known to have failed for this tournament. */
  predicate AtRest(w: World, region: Region, tid: string) {
    && tid !in w.duties && tid !in w.t.Requests(region) && (region, tid) !in w.lost
    && (region.Snapshot? ==> tid !in w.raced && tid !in w.deleting)
    && (region.Documents? ==> tid in w.t.tournaments)
  }

  /** Over every run: at rest, replaying the whole queue gives exactly the stored record's projection. */
  lemma Convergence(w: World, steps: seq<Step>, region: Region, tid: string, id: RowId)
    requires Initial(w) && ValidRun(w, steps) && AtRest(Run(w, steps), region, tid) && Owns(region, id.table)
    ensures Replay(Run(w, steps).t.queue, tid, id) == Target(Run(w, steps).t, tid, id)
  {
    InitialHolds(w);
    RunKeeps(w, steps);
    var v := Run(w, steps);
    assert InvAt(v, tid);
    assert RegionOk(v, region, tid) by { if region.Snapshot? { } }
    assert !Excused(v, region, tid);
    assert Tracks(v, tid, id);
  }

  /**
   Over every run: once a demand for a span is recorded, the request is still pending or the last span was built from
   that version or a later one of the record; from the very version stored when nothing was written since the demand.
   */
  lemma NoLostSnapshot(w: World, steps: seq<Step>, region: Region, tid: string)
    requires Initial(w) && ValidRun(w, steps)
    requires var v := Run(w, steps); tid !in v.duties && (region, tid) !in v.lost && (region, tid) in v.demanded
    ensures var v := Run(w, steps);
            && tid in v.t.tournaments
            && (tid in v.t.Requests(region)
                || ((region, tid) in v.covered && v.demanded[(region, tid)] <= v.covered[(region, tid)] <= Version(v, tid)))
            && (tid !in v.t.Requests(region) && v.demanded[(region, tid)] == Version(v, tid) ==>
                  v.covered[(region, tid)] == Version(v, tid))
  {
    InitialHolds(w);
    RunKeeps(w, steps);
    var v := Run(w, steps);
    assert InvAt(v, tid);
    assert DemandOk(v, region, tid) by { if region.Snapshot? { } }
  }

  // ---------------------------------------------------------------- a request is served

  predicate EndsBuild(s: Step, b: Build) {
    (s.CommitBuild? || s.FailBuild?) && s.build == b
  }

  /** A build is in flight until it commits or fails. */
  lemma BuildStays(w: World, s: Step, b: Build)
    requires Enabled(w, s) && b in w.builds && !EndsBuild(s, b)
    ensures b in Next(w, s).builds
  {
    match s
    case Proceed(tid, ok) => ProceedSavesNothing(w, tid, ok);
    case CommitBuild(_) =>
    case FailBuild(_, _) =>
    case StartBuild(_) =>
    case Remove(_) =>
    case FlushDelete(_, _) =>
    case _ => SaveStands(w, s);
  }

  lemma {:induction false} BuildInFlight(w: World, steps: seq<Step>, b: Build)
    requires ValidRun(w, steps) && b in w.builds && forall i :: 0 <= i < |steps| ==> !EndsBuild(steps[i], b)
    ensures b in Run(w, steps).builds
    decreases |steps|
  {
    if |steps| > 0 {
      BuildStays(w, steps[0], b);
      BuildInFlight(Next(w, steps[0]), steps[1..], b);
    }
  }

  /** What the commit of a span leaves when the record is still the one it was built from. */
  lemma CommitServes(w: World, b: Build)
    requires Inv(w) && Enabled(w, CommitBuild(b)) && b.SpanBuild?
    requires b.tid in w.t.tournaments && Some(w.t.tournaments[b.tid].updatedAt) == b.updatedAt
    ensures var end := Next(w, CommitBuild(b));
            && (if b.tid in w.t.Requests(b.region) && w.t.Requests(b.region)[b.tid].requestedAt == b.requestedAt
                then b.tid !in end.t.Requests(b.region) else SameRequest(w.t, end.t, b.region, b.tid))
            && (b.region, b.tid) in end.covered && end.covered[(b.region, b.tid)] == w.t.tournaments[b.tid].updatedAt
            && (b.region, b.tid) !in end.lost && end.t.tournaments == w.t.tournaments && b !in end.builds
  {
    CompletionServes(w.t, b.region, b.tid, b.requestedAt, b.updatedAt, Deltas(b));
  }

  lemma SpanLands(w: World, b: Build, id: RowId)
    requires Inv(w) && Enabled(w, CommitBuild(b)) && b.SpanBuild? && Owns(b.region, id.table)
    requires b.tid in w.t.tournaments && Some(w.t.tournaments[b.tid].updatedAt) == b.updatedAt
    ensures Replay(Next(w, CommitBuild(b)).t.queue, b.tid, id) == Target(w.t, b.tid, id)
  {
    CompletionServes(w.t, b.region, b.tid, b.requestedAt, b.updatedAt, Deltas(b));
    SpanRow(w, b.region, b.tid, b.spanId, b.body, b.image, id);
  }

  /**
   Over every run, whoever else steps meanwhile: a build started from the stored record can commit as long as it has not
   ended, and when the record is then still that version it leaves no request unless one was made again since, a span
   built from the version now stored, and a read model that agrees with it, whatever was lost before.
   */
  lemma BuildServesRequest(w: World, b: Build, steps: seq<Step>)
    requires Inv(w) && b.SpanBuild? && b.updatedAt.Some? && Enabled(w, StartBuild(b)) && ValidRun(Next(w, StartBuild(b)), steps)
    requires forall i :: 0 <= i < |steps| ==> !EndsBuild(steps[i], b)
    requires var v := Run(Next(w, StartBuild(b)), steps);
             NewSpan(v, b.spanId) && b.tid in v.t.tournaments && Some(v.t.tournaments[b.tid].updatedAt) == b.updatedAt
    ensures var v := Run(Next(w, StartBuild(b)), steps);
            && Enabled(v, CommitBuild(b))
            && var end := Next(v, CommitBuild(b));
               && (b.tid in v.t.Requests(b.region) && v.t.Requests(b.region)[b.tid].requestedAt == b.requestedAt ==>
                     b.tid !in end.t.Requests(b.region))
               && (b.tid in v.t.Requests(b.region) && v.t.Requests(b.region)[b.tid].requestedAt != b.requestedAt ==>
                     b.tid in end.t.Requests(b.region) && end.t.Requests(b.region)[b.tid] == v.t.Requests(b.region)[b.tid])
               && (b.region, b.tid) in end.covered && end.covered[(b.region, b.tid)] == Version(end, b.tid)
               && (b.region, b.tid) !in end.lost
               && (forall id: RowId :: Owns(b.region, id.table) ==> Replay(end.t.queue, b.tid, id) == Target(end.t, b.tid, id))
  {
    StepKeeps(w, StartBuild(b));
    var started := Next(w, StartBuild(b));
    RunKeeps(started, steps);
    BuildInFlight(started, steps, b);
    var v := Run(started, steps);
    CommitServes(v, b);
    forall id: RowId | Owns(b.region, id.table) ensures Replay(Next(v, CommitBuild(b)).t.queue, b.tid, id) == Target(v.t, b.tid, id) {
      SpanLands(v, b, id);
    }
  }

  /** A build that fails is over, and leaves its request pending under the same stamp, one attempt older, to be built again. */
  lemma FailureKeepsRequest(w: World, b: Build, error: string)
    requires Enabled(w, FailBuild(b, error)) && b.SpanBuild?
    ensures var v := Next(w, FailBuild(b, error));
            && v.builds == w.builds - {b} && v.t.tournaments == w.t.tournaments && v.t.queue == w.t.queue
            && (b.tid in v.t.Requests(b.region) <==> b.tid in w.t.Requests(b.region))
            && (b.tid in w.t.Requests(b.region) ==>
                  && v.t.Requests(b.region)[b.tid].requestedAt == w.t.Requests(b.region)[b.tid].requestedAt
                  && v.t.Requests(b.region)[b.tid].attempts == w.t.Requests(b.region)[b.tid].attempts + 1)
  {
    FailureCounted(w.t, b.region, b.tid, error, b.tid);
  }

  // ---------------------------------------------------------------- runs without faults

  /** Every outbox write of the step succeeds, and it does not overlap a delete of its tournament. */
  ghost predicate Clean(w: World, s: Step) {
    match s
    case MutationSave(tid, _, _, _, _) => tid in w.t.tournaments && tid !in w.deleting
    case DurableMutation(tid, _, _, _, _, flushed, requested) => tid in w.t.tournaments && tid !in w.deleting && flushed && requested
    case WholesaleSave(tid, _, _) => tid !in w.deleting
    case DurableWholesale(tid, _, _, requested, projected) => tid !in w.deleting && requested && projected
    case Proceed(_, ok) => ok
    case Remove(tid) => tid !in w.duties
    case FlushDelete(_, ok) => ok
    case StartBuild(_) => true
    case CommitBuild(_) => true
    case FailBuild(_, _) => true
  }

  ghost predicate CleanRun(w: World, steps: seq<Step>)
    requires ValidRun(w, steps)
    decreases |steps|
  {
    |steps| == 0 || (Clean(w, steps[0]) && CleanRun(Next(w, steps[0]), steps[1..]))
  }

  lemma CleanStep(w: World, s: Step)
    requires Enabled(w, s) && Clean(w, s) && w.lost == {} && w.raced == {}
    ensures Next(w, s).lost == {} && Next(w, s).raced == {}
  {
    match s
    case DurableMutation(tid, _, image, deltas, documents, _, _) =>
      assert MutationSaved(w, tid, image).lost == {} && MutationSaved(w, tid, image).raced == {};
    case Proceed(tid, _) =>
      match w.duties[tid] {
        case OwesDeltas(_, _, _) =>
        case OwesDocuments =>
        case OwesDocumentsAndSnapshot(_, _) =>
        case OwesSnapshot(mode, savedAt) => assert ProduceSnapshot(Unlock(w, tid), tid, mode, savedAt, true).lost == {};
      }
    case DurableWholesale(tid, image, mode, _, _) =>
      var asked := RequestSpan(Replaced(w, tid, image), Documents, tid, true);
      assert asked.lost == {} && asked.raced == {};
      assert ProduceSnapshot(asked, tid, mode, Version(asked, tid), true).lost == {};
    case _ =>
  }

  lemma {:induction false} CleanRunLosesNothing(w: World, steps: seq<Step>)
    requires ValidRun(w, steps) && CleanRun(w, steps) && w.lost == {} && w.raced == {}
    ensures Run(w, steps).lost == {} && Run(w, steps).raced == {}
    decreases |steps|
  {
    if |steps| > 0 {
      CleanStep(w, steps[0]);
      CleanRunLosesNothing(Next(w, steps[0]), steps[1..]);
    }
  }

  /** No fault and no delete overlapping a save: whenever the lock is free and nothing is pending, the two agree. */
  lemma CleanConvergence(w: World, steps: seq<Step>, tid: string, id: RowId)
    requires Initial(w) && ValidRun(w, steps) && CleanRun(w, steps) && Owns(Snapshot, id.table)
    requires var v := Run(w, steps); tid !in v.duties && tid !in v.t.snapshotRequests && tid !in v.deleting
    ensures Replay(Run(w, steps).t.queue, tid, id) == Target(Run(w, steps).t, tid, id)
  {
    CleanRunLosesNothing(w, steps);
    Convergence(w, steps, Snapshot, tid, id);
  }
}
