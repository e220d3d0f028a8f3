/** The `tournaments` table: saves fenced by the owner epoch, batches of them, and the conditional wholesale save. */
module TournamentStorage {
  import opened Options

  /** `updatedAt` in microseconds, as the column stores it. */
  datatype Row = Row(updatedAt: nat, epoch: nat, document: string)

  type Rows = map<string, Row>

  /** A record as a payload carries it: `owned` when it names a provider or has a test id. */
  datatype Record = Record(tournamentId: string, owned: bool, document: string)

  datatype Entry = Entry(key: string, record: Record)

  datatype SaveResult = Written | Fenced(tournamentId: string) | MissingProvider | InvalidRecord

  datatype Conflict = Conflict(tournamentId: string, expected: Option<nat>, current: Option<nat>)

  datatype SaveAnswer = Saved | Refused(result: SaveResult) | Conflicting(conflict: Conflict)

  datatype State = State(clock: nat, rows: Rows, rejections: map<string, nat>)

  // ---------------------------------------------------------------- one record

  /** Why a record is not written: the checks of the save, in their order. */
  function Refusal(rows: Rows, record: Record, epoch: nat): Option<SaveResult> {
    if record.tournamentId == "" then Some(InvalidRecord)
    else if !record.owned then Some(MissingProvider)
    else if record.tournamentId in rows && epoch < rows[record.tournamentId].epoch then Some(Fenced(record.tournamentId))
    else None
  }

  function Count(rejections: map<string, nat>, id: string): nat {
    if id in rejections then rejections[id] else 0
  }

  /** `INSERT … ON CONFLICT DO UPDATE … WHERE owner_epoch <= EXCLUDED.owner_epoch`, and the rejection counter. */
  function SavedOne(s: State, record: Record, epoch: nat): (State, SaveResult) {
    var id := record.tournamentId;
    match Refusal(s.rows, record, epoch)
    case Some(Fenced(_)) => (s.(rejections := s.rejections[id := Count(s.rejections, id) + 1]), Fenced(id))
    case Some(refusal) => (s, refusal)
    case None =>
      (State(s.clock + 1, s.rows[id := Row(s.clock + 1, epoch, record.document)], s.rejections - {id}), Written)
  }

  /** The table takes the record: it is complete, and no row of it belongs to a later owner. */
  predicate Takes(rows: Rows, record: Record, epoch: nat) {
    record.tournamentId != "" && record.owned
    && (record.tournamentId in rows ==> rows[record.tournamentId].epoch <= epoch)
  }

  /** What a record that is not taken is told. */
  function Told(record: Record): SaveResult {
    if record.tournamentId == "" then InvalidRecord else if !record.owned then MissingProvider else Fenced(record.tournamentId)
  }

  predicate SameRowOf(a: Rows, b: Rows, id: string) {
    (id in a <==> id in b) && (id in a ==> a[id] == b[id])
  }

  /** A save of one record, by what it leaves. */
  ghost predicate OneSaved(s: State, after: State, record: Record, epoch: nat, result: SaveResult) {
    var id := record.tournamentId;
    && (forall other :: other != id ==> SameRowOf(s.rows, after.rows, other) && Count(after.rejections, other) == Count(s.rejections, other))
    && (result.Written? <==> Takes(s.rows, record, epoch))
    && (result.Written? ==>
          && id in after.rows && after.rows[id] == Row(after.clock, epoch, record.document) && s.clock < after.clock
          && Count(after.rejections, id) == 0)
    && (!result.Written? ==>
          && result == Told(record) && after.rows == s.rows && after.clock == s.clock
          && Count(after.rejections, id) == Count(s.rejections, id) + if result.Fenced? then 1 else 0)
  }

  lemma SavedOneLeaves(s: State, record: Record, epoch: nat)
    ensures OneSaved(s, SavedOne(s, record, epoch).0, record, epoch, SavedOne(s, record, epoch).1)
  {
  }

  /** A first save is written, whoever owns the tournament, and a second one of the same owner replaces it. */
  lemma FirstSaveIsWritten(s: State, record: Record, again: Record, epoch: nat)
    requires record.tournamentId != "" && record.owned && record.tournamentId !in s.rows
    requires again.tournamentId == record.tournamentId && again.owned
    ensures var (after, result) := SavedOne(s, record, epoch);
            && result == Written && record.tournamentId in after.rows && after.rows[record.tournamentId].document == record.document
            && var (later, second) := SavedOne(after, again, epoch);
               second == Written && later.rows[record.tournamentId].document == again.document
  {
  }

  /** Records are saved one by one; the first that is refused ends the batch. */
  function SavedAll(s: State, entries: seq<Entry>, epoch: nat): (State, SaveResult)
    decreases |entries|
  {
    if |entries| == 0 then (s, Written)
    else
      var (after, result) := SavedOne(s, entries[0].record, epoch);
      if result.Written? then SavedAll(after, entries[1..], epoch) else (after, result)
  }

  // ---------------------------------------------------------------- conditional saves

  /** `toIso` keeps milliseconds; an absent row has no version. */
  function Version(rows: Rows, id: string): Option<nat> {
    if id in rows then Some(rows[id].updatedAt / 1000) else None
  }

  /** Is the named version of `id`, if the caller named one, still the stored one? */
  predicate AsExpected(rows: Rows, expected: map<string, Option<nat>>, id: string) {
    id in expected ==> Version(rows, id) == expected[id]
  }

  function FirstConflict(rows: Rows, expected: map<string, Option<nat>>, ids: seq<string>): Option<Conflict> {
    if |ids| == 0 then None
    else if AsExpected(rows, expected, ids[0]) then FirstConflict(rows, expected, ids[1..])
    else Some(Conflict(ids[0], expected[ids[0]], Version(rows, ids[0])))
  }

  function Keys(entries: seq<Entry>): (keys: seq<string>)
    ensures |keys| == |entries| && forall i :: 0 <= i < |keys| ==> keys[i] == entries[i].key
  {
    seq(|entries|, i requires 0 <= i < |entries| => entries[i].key)
  }

  /** The locked part of a wholesale save. A durable one that is refused rolls its rows back; the counters stay. */
  function WholesaleSaved(s: State, entries: seq<Entry>, expected: map<string, Option<nat>>, durable: bool)
    : (State, SaveAnswer)
  {
    match FirstConflict(s.rows, expected, Keys(entries))
    case Some(conflict) => (s, Conflicting(conflict))
    case None =>
      var (after, result) := SavedAll(s, entries, 0);
      if result.Written? then (after, Saved)
      else (if durable then after.(rows := s.rows) else after, Refused(result))
  }

  class Store {
    var clock: nat
    var rows: Rows
    var fenceRejections: map<string, nat>

    constructor ()
      ensures Contents() == State(0, map[], map[])
    {
      clock, rows, fenceRejections := 0, map[], map[];
    }

    function Contents(): State
      reads this
    {
      State(clock, rows, fenceRejections)
    }

    method RecordFenceRejection(id: string)
      modifies this`fenceRejections
      ensures fenceRejections == old(fenceRejections)[id := Count(old(fenceRejections), id) + 1]
    {
      var count := if id in fenceRejections then fenceRejections[id] else 0;
      fenceRejections := fenceRejections[id := count + 1];
    }

    method RecordFenceRecovery(id: string)
      modifies this`fenceRejections
      ensures fenceRejections == old(fenceRejections) - {id}
    {
      if id !in fenceRejections {
        return;
      }
      fenceRejections := fenceRejections - {id};
    }

    method SaveTournamentRecord(record: Record, ownerEpoch: nat) returns (result: SaveResult)
      modifies this
      ensures (Contents(), result) == SavedOne(old(Contents()), record, ownerEpoch)
      ensures OneSaved(old(Contents()), Contents(), record, ownerEpoch, result)
    {
      SavedOneLeaves(Contents(), record, ownerEpoch);
      var key := record.tournamentId;
      if key == "" {
        return InvalidRecord;
      }
      if !record.owned {
        return MissingProvider;
      }
      var rowCount := 0;
      if key !in rows || rows[key].epoch <= ownerEpoch {
        clock := clock + 1;
        rows := rows[key := Row(clock, ownerEpoch, record.document)];
        rowCount := 1;
      }
      if rowCount == 0 {
        RecordFenceRejection(key);
        return Fenced(key);
      }
      RecordFenceRecovery(key);
      return Written;
    }

    method SaveTournamentRecords(entries: seq<Entry>, ownerEpoch: nat) returns (result: SaveResult)
      modifies this
      ensures (Contents(), result) == SavedAll(old(Contents()), entries, ownerEpoch)
    {
      var i := 0;
      while i < |entries|
        invariant 0 <= i <= |entries|
        invariant SavedAll(Contents(), entries[i..], ownerEpoch) == SavedAll(old(Contents()), entries, ownerEpoch)
      {
        assert entries[i..][1..] == entries[i + 1..];
        result := SaveTournamentRecord(entries[i].record, ownerEpoch);
        if !result.Written? {
          return;
        }
        i := i + 1;
      }
      result := Written;
    }

    method UnexpectedServerUpdatedAt(expected: map<string, Option<nat>>, savedIds: seq<string>)
      returns (conflict: Option<Conflict>)
      ensures conflict == FirstConflict(rows, expected, savedIds)
    {
      for i := 0 to |savedIds|
        invariant FirstConflict(rows, expected, savedIds) == FirstConflict(rows, expected, savedIds[i..])
      {
        assert savedIds[i..][1..] == savedIds[i + 1..];
        var tid := savedIds[i];
        if tid in expected {
          var current := if tid in rows then Some(rows[tid].updatedAt / 1000) else None;
          if current != expected[tid] {
            return Some(Conflict(tid, expected[tid], current));
          }
        }
      }
      return None;
    }

    /** Runs inside the tournaments' lock. */
    method SaveWholesale(entries: seq<Entry>, expected: map<string, Option<nat>>, durable: bool)
      returns (answer: SaveAnswer)
      modifies this
      ensures (Contents(), answer) == WholesaleSaved(old(Contents()), entries, expected, durable)
    {
      var conflict := UnexpectedServerUpdatedAt(expected, Keys(entries));
      if conflict.Some? {
        return Conflicting(conflict.value);
      }
      var begun := rows;
      var result := SaveTournamentRecords(entries, 0);
      if result.Written? {
        return Saved;
      }
      if durable {
        rows := begun;
      }
      return Refused(result);
    }
  }

  // ---------------------------------------------------------------- what a batch does

  /** Every record is filed under its own id, once. */
  predicate Keyed(entries: seq<Entry>) {
    && (forall i :: 0 <= i < |entries| ==> entries[i].key == entries[i].record.tournamentId)
    && (forall i, j :: 0 <= i < j < |entries| ==> entries[i].key != entries[j].key)
  }

  /** The first record the table, as the batch finds it, refuses. */
  function FirstRefused(rows: Rows, entries: seq<Entry>, epoch: nat): (k: nat)
    ensures k <= |entries|
    ensures forall i :: 0 <= i < k ==> Takes(rows, entries[i].record, epoch)
    ensures k < |entries| ==> !Takes(rows, entries[k].record, epoch)
  {
    if |entries| == 0 || !Takes(rows, entries[0].record, epoch) then 0
    else 1 + FirstRefused(rows, entries[1..], epoch)
  }

  lemma {:induction false} BatchResult(s: State, entries: seq<Entry>, epoch: nat)
    requires Keyed(entries)
    ensures var (after, result) := SavedAll(s, entries, epoch);
            var k := FirstRefused(s.rows, entries, epoch);
            && result == (if k == |entries| then Written else Told(entries[k].record))
            && after.clock == s.clock + k
    decreases |entries|
  {
    if |entries| > 0 && Takes(s.rows, entries[0].record, epoch) {
      BatchResult(SavedOne(s, entries[0].record, epoch).0, entries[1..], epoch);
    }
  }

  lemma {:induction false} BatchLeaves(s: State, entries: seq<Entry>, epoch: nat, id: string)
    requires Keyed(entries)
    requires forall i :: 0 <= i < FirstRefused(s.rows, entries, epoch) ==> entries[i].key != id
    ensures var after := SavedAll(s, entries, epoch).0;
            (id in after.rows <==> id in s.rows) && (id in s.rows ==> after.rows[id] == s.rows[id])
    decreases |entries|
  {
    if |entries| > 0 && Takes(s.rows, entries[0].record, epoch) {
      BatchLeaves(SavedOne(s, entries[0].record, epoch).0, entries[1..], epoch, id);
    }
  }

  lemma {:induction false} BatchWrites(s: State, entries: seq<Entry>, epoch: nat, i: nat)
    requires Keyed(entries) && i < FirstRefused(s.rows, entries, epoch)
    ensures var after := SavedAll(s, entries, epoch).0;
            entries[i].key in after.rows
            && after.rows[entries[i].key] == Row(s.clock + i + 1, epoch, entries[i].record.document)
    decreases |entries|
  {
    var next := SavedOne(s, entries[0].record, epoch).0;
    if i == 0 {
      BatchLeaves(next, entries[1..], epoch, entries[0].key);
    } else {
      BatchWrites(next, entries[1..], epoch, i - 1);
    }
  }

  /**
   A batch writes exactly the records before the first refused one, each under the writer's epoch with a fresh stamp, and
   touches no other row; earlier records stay written. It reports the refusal of that first record, or success.
   */
  lemma BatchOutcome(s: State, entries: seq<Entry>, epoch: nat)
    requires Keyed(entries)
    ensures var (after, result) := SavedAll(s, entries, epoch);
            var k := FirstRefused(s.rows, entries, epoch);
            && result == (if k == |entries| then Written else Told(entries[k].record))
            && after.clock == s.clock + k
            && (forall i :: 0 <= i < k ==> entries[i].key in after.rows
                                           && after.rows[entries[i].key] == Row(s.clock + i + 1, epoch, entries[i].record.document))
            && (forall id :: (forall i :: 0 <= i < k ==> entries[i].key != id) ==>
                  (id in after.rows <==> id in s.rows) && (id in s.rows ==> after.rows[id] == s.rows[id]))
  {
    BatchResult(s, entries, epoch);
    var after := SavedAll(s, entries, epoch).0;
    var k := FirstRefused(s.rows, entries, epoch);
    forall i | 0 <= i < k
      ensures entries[i].key in after.rows
      ensures after.rows[entries[i].key] == Row(s.clock + i + 1, epoch, entries[i].record.document)
    {
      BatchWrites(s, entries, epoch, i);
    }
    forall id | forall i :: 0 <= i < k ==> entries[i].key != id
      ensures id in after.rows <==> id in s.rows
      ensures id in s.rows ==> after.rows[id] == s.rows[id]
    {
      BatchLeaves(s, entries, epoch, id);
    }
  }

  /** The check passes exactly when every named id among those saved still has the version its caller named. */
  lemma {:induction false} NoConflictIffAllAsExpected(rows: Rows, expected: map<string, Option<nat>>, ids: seq<string>)
    ensures FirstConflict(rows, expected, ids).None? <==> forall i :: 0 <= i < |ids| ==> AsExpected(rows, expected, ids[i])
    ensures FirstConflict(rows, expected, ids).Some? ==>
              var c := FirstConflict(rows, expected, ids).value;
              c.tournamentId in ids && c.tournamentId in expected && c.expected == expected[c.tournamentId]
              && c.current == Version(rows, c.tournamentId) && c.current != c.expected
  {
    if |ids| > 0 && AsExpected(rows, expected, ids[0]) {
      NoConflictIffAllAsExpected(rows, expected, ids[1..]);
      assert forall i :: 0 < i < |ids| ==> ids[i] == ids[1..][i - 1];
    }
  }

  /** A wholesale save is refused as conflicting exactly when one named id is at another version, and then changes nothing. */
  lemma ConflictChangesNothing(s: State, entries: seq<Entry>, expected: map<string, Option<nat>>, durable: bool)
    ensures var (after, answer) := WholesaleSaved(s, entries, expected, durable);
            && (answer.Conflicting? <==> exists i :: 0 <= i < |entries| && !AsExpected(s.rows, expected, entries[i].key))
            && (answer.Conflicting? ==> after == s)
  {
    var keys := Keys(entries);
    NoConflictIffAllAsExpected(s.rows, expected, keys);
    if i :| 0 <= i < |entries| && !AsExpected(s.rows, expected, entries[i].key) {
      assert !AsExpected(s.rows, expected, keys[i]);
    }
    if i :| 0 <= i < |keys| && !AsExpected(s.rows, expected, keys[i]) {
      assert !AsExpected(s.rows, expected, entries[i].key);
    }
  }

  predicate Stored(rows: Rows, entry: Entry) {
    entry.key in rows && rows[entry.key].document == entry.record.document
  }

  /**
   Past the check, only a refused record stops a wholesale save: a durable one is then undone, a plain one keeps the
   records before it.
   */
  lemma WholesaleOutcome(s: State, entries: seq<Entry>, expected: map<string, Option<nat>>, durable: bool)
    requires Keyed(entries) && FirstConflict(s.rows, expected, Keys(entries)).None?
    ensures var (after, answer) := WholesaleSaved(s, entries, expected, durable);
            var k := FirstRefused(s.rows, entries, 0);
            && answer == (if k == |entries| then Saved else Refused(Told(entries[k].record)))
            && (if answer.Refused? && durable then after.rows == s.rows else forall i :: 0 <= i < k ==> Stored(after.rows, entries[i]))
  {
    BatchOutcome(s, entries, 0);
  }
}
