/**
 The tables the projection outbox works on, and what each of its transactions does to them.

 A stored record is represented by its projection, the read rows a from-scratch build of it yields: nothing else of a
 record matters here. Stamps (`updated_at`, `requested_at`) are fresh at every write.
 */
module OutboxTables {
  import opened Options
  import opened ReadModel

  type Image = map<RowId, Columns>

  datatype StoredRecord = StoredRecord(updatedAt: nat, image: Image)

  datatype SnapshotRequest = SnapshotRequest(requestedAt: nat, source: string, attempts: nat, lastError: Option<string>)

  datatype Tables = Tables(
    clock: nat,
    tournaments: map<string, StoredRecord>,
    snapshotRequests: map<string, SnapshotRequest>,
    documentRequests: map<string, SnapshotRequest>,
    queue: seq<ProjectionDelta>)
  {
    function Requests(region: Region): map<string, SnapshotRequest> {
      if region.Snapshot? then snapshotRequests else documentRequests
    }

    function WithRequests(region: Region, requests: map<string, SnapshotRequest>): Tables {
      if region.Snapshot? then this.(snapshotRequests := requests) else this.(documentRequests := requests)
    }
  }

  datatype FencedEnqueueResult = Enqueued | Changed | Missing

  function ImageRow(image: Image, id: RowId): Option<Columns> {
    if id in image then Some(image[id]) else None
  }

  /** The read row a stored tournament should have; an absent tournament has none. */
  function Target(t: Tables, tid: string, id: RowId): Option<Columns> {
    if tid in t.tournaments then ImageRow(t.tournaments[tid].image, id) else None
  }

  function Saved(t: Tables, tid: string, image: Image): Tables {
    t.(clock := t.clock + 1, tournaments := t.tournaments[tid := StoredRecord(t.clock + 1, image)])
  }

  function Removed(t: Tables, tid: string): Tables {
    t.(tournaments := t.tournaments - {tid})
  }

  function Appended(t: Tables, deltas: seq<ProjectionDelta>): Tables {
    t.(queue := t.queue + deltas)
  }

  /** `[...new Set(ids)].filter(Boolean)`. */
  function RequestedIds(ids: seq<string>): set<string> {
    set id | id in ids && id != ""
  }

  /** One pending request per tournament: a repeat refreshes its stamp and resets its attempts. */
  function Requested(t: Tables, region: Region, ids: seq<string>, source: string): Tables {
    var wanted := RequestedIds(ids);
    if wanted == {} then t
    else
      var recorded := map id | id in wanted :: SnapshotRequest(t.clock + 1, source, 0, None);
      t.(clock := t.clock + 1).WithRequests(region, t.Requests(region) + recorded)
  }

  /** The row-version fence: is the record still the one read? `None` is the version of an absent record. */
  function Fence(t: Tables, tid: string, updatedAt: Option<nat>): FencedEnqueueResult {
    if tid !in t.tournaments then Missing
    else if updatedAt != Some(t.tournaments[tid].updatedAt) then Changed
    else Enqueued
  }

  function FencedInsert(t: Tables, tid: string, updatedAt: Option<nat>, deltas: seq<ProjectionDelta>): Tables {
    if Fence(t, tid, updatedAt).Enqueued? then Appended(t, deltas) else t
  }

  /** Only the request the span served: one re-made meanwhile has another stamp and stays. */
  function RequestServed(t: Tables, region: Region, tid: string, requestedAt: nat): Tables {
    if tid in t.Requests(region) && t.Requests(region)[tid].requestedAt == requestedAt
    then t.WithRequests(region, t.Requests(region) - {tid}) else t
  }

  function Completed(
    t: Tables, region: Region, tid: string, requestedAt: nat, updatedAt: Option<nat>, deltas: seq<ProjectionDelta>)
    : Tables
  {
    if Fence(t, tid, updatedAt).Changed? then t
    else RequestServed(FencedInsert(t, tid, updatedAt, deltas), region, tid, requestedAt)
  }

  function FailureRecorded(t: Tables, region: Region, tid: string, error: string): Tables {
    if tid in t.Requests(region) then
      var r := t.Requests(region)[tid];
      t.WithRequests(region, t.Requests(region)[tid := r.(attempts := r.attempts + 1, lastError := Some(Clipped(error)))])
    else t
  }

  function Clipped(error: string): string {
    if |error| > 2000 then error[..2000] else error
  }

  // ---------------------------------------------------------------- what each transaction leaves

  /** The request for `id` reads the same in both. */
  predicate SameRequest(t: Tables, after: Tables, region: Region, id: string) {
    && (id in after.Requests(region) <==> id in t.Requests(region))
    && (id in t.Requests(region) ==> after.Requests(region)[id] == t.Requests(region)[id])
  }

  /** Each named id has a new request under a stamp nobody has seen; every other request is as it was. */
  lemma RequestsRecorded(t: Tables, region: Region, ids: seq<string>, source: string, id: string)
    ensures var after := Requested(t, region, ids, source);
            && after.tournaments == t.tournaments && after.queue == t.queue
            && (forall other :: other != region ==> after.Requests(other) == t.Requests(other))
            && (id in ids && id != "" ==>
                  && id in after.Requests(region) && t.clock < after.Requests(region)[id].requestedAt <= after.clock
                  && after.Requests(region)[id] == SnapshotRequest(after.Requests(region)[id].requestedAt, source, 0, None))
            && (id !in ids || id == "" ==> SameRequest(t, after, region, id))
  {
    assert id in RequestedIds(ids) <==> id in ids && id != "";
  }

  /** Written in full exactly when the record is there at the version read. */
  lemma FenceTells(t: Tables, tid: string, updatedAt: Option<nat>, deltas: seq<ProjectionDelta>)
    ensures var outcome, after := Fence(t, tid, updatedAt), FencedInsert(t, tid, updatedAt, deltas);
            && (outcome.Missing? <==> tid !in t.tournaments)
            && (outcome.Enqueued? <==> tid in t.tournaments && Some(t.tournaments[tid].updatedAt) == updatedAt)
            && after == t.(queue := if outcome.Enqueued? then t.queue + deltas else t.queue)
  {
  }

  /** A completion, by what it leaves: the span queued and exactly the request it served gone, or nothing at all. */
  ghost predicate Served(t: Tables, after: Tables, region: Region, tid: string, requestedAt: nat, updatedAt: Option<nat>,
                         deltas: seq<ProjectionDelta>)
  {
    && after.tournaments == t.tournaments && after.clock == t.clock
    && (forall other :: other != region ==> after.Requests(other) == t.Requests(other))
    && (forall id :: id != tid ==> SameRequest(t, after, region, id))
    && if tid in t.tournaments && Some(t.tournaments[tid].updatedAt) != updatedAt then
         after.queue == t.queue && SameRequest(t, after, region, tid)
       else
         && after.queue == (if tid in t.tournaments then t.queue + deltas else t.queue)
         && if tid in t.Requests(region) && t.Requests(region)[tid].requestedAt == requestedAt
            then tid !in after.Requests(region) else SameRequest(t, after, region, tid)
  }

  lemma CompletionServes(t: Tables, region: Region, tid: string, requestedAt: nat, updatedAt: Option<nat>, deltas: seq<ProjectionDelta>)
    ensures Served(t, Completed(t, region, tid, requestedAt, updatedAt, deltas), region, tid, requestedAt, updatedAt, deltas)
  {
  }

  /** One more attempt on the request, with the start of the error; the stamp stays, so the request is still served by its span. */
  lemma FailureCounted(t: Tables, region: Region, tid: string, error: string, id: string)
    ensures var after := FailureRecorded(t, region, tid, error);
            && after.tournaments == t.tournaments && after.queue == t.queue && after.clock == t.clock
            && (forall other :: other != region ==> after.Requests(other) == t.Requests(other))
            && (id != tid ==> SameRequest(t, after, region, id))
            && (tid in after.Requests(region) <==> tid in t.Requests(region))
            && (tid in t.Requests(region) ==>
                  var was, now := t.Requests(region)[tid], after.Requests(region)[tid];
                  && now.requestedAt == was.requestedAt && now.source == was.source && now.attempts == was.attempts + 1
                  && now.lastError.Some? && now.lastError.value <= error
                  && |now.lastError.value| == if |error| < 2000 then |error| else 2000)
  {
  }
}
