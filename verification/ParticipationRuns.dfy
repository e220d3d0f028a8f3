/** The skipping index shows what an index rewritten on every save would show, over every run. */
module ParticipationRuns {
  import opened Options
  import opened Participation

  /** `landed`: whether the transaction of the replace committed. */
  datatype Step =
    | Replace(tid: string, rows: seq<Row>, landed: bool)
    | Delete(deleted: string)

  function Next(db: Db, s: Step): Db {
    match s
    case Replace(tid, rows, landed) => if landed then Replaced(db, tid, rows) else db
    case Delete(tid) => Deleted(db, tid)
  }

  function Run(db: Db, steps: seq<Step>): Db
    decreases |steps|
  {
    if |steps| == 0 then db else Run(Next(db, steps[0]), steps[1..])
  }

  /** Deleting and inserting every time, with no fingerprints at all. */
  function Rewritten(table: map<string, set<Row>>, s: Step): map<string, set<Row>> {
    match s
    case Replace(tid, rows, landed) => if landed then table[tid := SetOf(UniqueByKey(rows))] else table
    case Delete(tid) => table - {tid}
  }

  function RunRewriting(table: map<string, set<Row>>, steps: seq<Step>): map<string, set<Row>>
    decreases |steps|
  {
    if |steps| == 0 then table else RunRewriting(Rewritten(table, steps[0]), steps[1..])
  }

  predicate Lists(listed: seq<Row>, rows: set<Row>) {
    KeysDistinct(listed) && SetOf(listed) == rows
  }

  ghost predicate IsFingerprintOf(text: string, rows: set<Row>) {
    exists listed :: Lists(listed, rows) && text == Fingerprint(listed)
  }

  /** A stored fingerprint is that of the stored rows, however they are listed. */
  ghost predicate Faithful(db: Db) {
    forall tid :: tid in db.fingerprints ==> tid in db.rows && IsFingerprintOf(db.fingerprints[tid], db.rows[tid])
  }

  /** A list without repeated keys is determined, up to order, by its set. */
  lemma {:induction false} DistinctListing(a: seq<Row>, row: Row)
    requires KeysDistinct(a)
    ensures multiset(a)[row] == if row in SetOf(a) then 1 else 0
  {
    if |a| > 0 {
      var front, last := a[..|a| - 1], a[|a| - 1];
      assert a == front + [last];
      DistinctListing(front, row);
      assert last !in front;
    }
  }

  lemma SameListing(a: seq<Row>, b: seq<Row>)
    requires KeysDistinct(a) && KeysDistinct(b)
    ensures multiset(a) == multiset(b) <==> SetOf(a) == SetOf(b)
  {
    if multiset(a) == multiset(b) {
      forall row ensures row in SetOf(a) <==> row in SetOf(b) {
        DistinctListing(a, row);
        DistinctListing(b, row);
      }
    }
    if SetOf(a) == SetOf(b) {
      forall row ensures multiset(a)[row] == multiset(b)[row] {
        DistinctListing(a, row);
        DistinctListing(b, row);
      }
    }
  }

  lemma SameSetSameFingerprint(a: seq<Row>, b: seq<Row>)
    requires KeysDistinct(a) && KeysDistinct(b)
    ensures Fingerprint(a) == Fingerprint(b) <==> SetOf(a) == SetOf(b)
  {
    FingerprintIffSameRows(a, b);
    SameListing(a, b);
  }

  /** A replace whose fingerprint is the stored one finds its rows stored. */
  lemma SkippedRowsAreStored(db: Db, tid: string, rows: seq<Row>)
    requires Faithful(db) && !Claims(db, tid, rows)
    ensures tid in db.rows && db.rows[tid] == SetOf(UniqueByKey(rows))
  {
    UniqueKeepsLast(rows);
    var listed :| Lists(listed, db.rows[tid]) && db.fingerprints[tid] == Fingerprint(listed);
    SameSetSameFingerprint(listed, UniqueByKey(rows));
  }

  lemma ClaimIsFaithful(rows: seq<Row>)
    ensures IsFingerprintOf(Fingerprint(UniqueByKey(rows)), SetOf(UniqueByKey(rows)))
  {
    UniqueKeepsLast(rows);
    assert Lists(UniqueByKey(rows), SetOf(UniqueByKey(rows)));
  }

  /** Claiming keeps any relation between fingerprints and rows that the claimed pair satisfies. */
  lemma ClaimKeeps(db: Db, tid: string, rows: set<Row>, text: string, relation: (string, set<Row>) -> bool)
    requires forall t :: t in db.fingerprints ==> t in db.rows && relation(db.fingerprints[t], db.rows[t])
    requires relation(text, rows)
    ensures var v := Claimed(db, tid, rows, text);
            forall t :: t in v.fingerprints ==> t in v.rows && relation(v.fingerprints[t], v.rows[t])
  {
  }

  lemma ClaimRefines(db: Db, tid: string, rows: set<Row>, text: string)
    requires tid in db.fingerprints && db.fingerprints[tid] == text ==> tid in db.rows && db.rows[tid] == rows
    ensures Claimed(db, tid, rows, text).rows == db.rows[tid := rows]
  {
  }

  lemma ReplaceRefines(db: Db, tid: string, rows: seq<Row>)
    requires Faithful(db)
    ensures Faithful(Replaced(db, tid, rows)) && Replaced(db, tid, rows).rows == db.rows[tid := SetOf(UniqueByKey(rows))]
  {
    ClaimIsFaithful(rows);
    if !Claims(db, tid, rows) {
      SkippedRowsAreStored(db, tid, rows);
    }
    ClaimRefines(db, tid, SetOf(UniqueByKey(rows)), Fingerprint(UniqueByKey(rows)));
    ClaimKeeps(db, tid, SetOf(UniqueByKey(rows)), Fingerprint(UniqueByKey(rows)), (t, r) => IsFingerprintOf(t, r));
  }

  /** One step keeps the fingerprints faithful and leaves the rows a rewriting step leaves. */
  lemma StepRefines(db: Db, s: Step)
    requires Faithful(db)
    ensures Faithful(Next(db, s)) && Next(db, s).rows == Rewritten(db.rows, s)
  {
    if s.Replace? && s.landed {
      ReplaceRefines(db, s.tid, s.rows);
    } else if s.Delete? {
      assert forall t :: t in Deleted(db, s.deleted).fingerprints ==> t in db.fingerprints && t in db.rows;
    }
  }

  /** The fingerprint skip refines deleting and inserting every time, over every run with failures and deletions. */
  lemma {:induction false} SkipRefinesRewriting(db: Db, steps: seq<Step>)
    requires Faithful(db)
    ensures Faithful(Run(db, steps)) && Run(db, steps).rows == RunRewriting(db.rows, steps)
    decreases |steps|
  {
    if |steps| > 0 {
      StepRefines(db, steps[0]);
      SkipRefinesRewriting(Next(db, steps[0]), steps[1..]);
    }
  }

  /** The rows of the last replace of `tid` that landed, unless it was deleted since. */
  function LastReplace(steps: seq<Step>, tid: string): Option<seq<Row>> {
    if |steps| == 0 then None
    else
      match steps[|steps| - 1]
      case Replace(t, rows, landed) => if t == tid && landed then Some(rows) else LastReplace(steps[..|steps| - 1], tid)
      case Delete(t) => if t == tid then None else LastReplace(steps[..|steps| - 1], tid)
  }

  lemma {:induction false} RewritingSplits(table: map<string, set<Row>>, a: seq<Step>, s: Step)
    ensures RunRewriting(table, a + [s]) == Rewritten(RunRewriting(table, a), s)
    decreases |a|
  {
    if |a| > 0 {
      assert (a + [s])[1..] == a[1..] + [s];
      RewritingSplits(Rewritten(table, a[0]), a[1..], s);
    } else {
      assert (a + [s])[1..] == [];
    }
  }

  lemma {:induction false} RewritingShowsLast(steps: seq<Step>, tid: string)
    ensures var table := RunRewriting(map[], steps);
            match LastReplace(steps, tid)
            case Some(rows) => tid in table && table[tid] == SetOf(UniqueByKey(rows))
            case None => tid !in table
    decreases |steps|
  {
    if |steps| > 0 {
      var front, last := steps[..|steps| - 1], steps[|steps| - 1];
      assert steps == front + [last];
      RewritingSplits(map[], front, last);
      RewritingShowsLast(front, tid);
    }
  }

  /**
   From an empty index, after any run a tournament's stored rows are, of each key of its last landed replace, the last
   row, and none once it is deleted; a stored fingerprint is that of the stored rows in whatever order they are listed.
   */
  lemma StoredRowsAreTheLastReplace(steps: seq<Step>, tid: string)
    ensures var db := Run(Db(map[], map[]), steps);
            && (forall row :: row in RowsOf(db, tid) <==>
                  LastReplace(steps, tid).Some? && LastOfItsKey(LastReplace(steps, tid).value, row))
            && (tid in db.fingerprints ==> forall listed :: KeysDistinct(listed) ==>
                  (Fingerprint(listed) == db.fingerprints[tid] <==> SetOf(listed) == RowsOf(db, tid)))
            && (tid in db.fingerprints <==> LastReplace(steps, tid).Some?)
  {
    var db := Run(Db(map[], map[]), steps);
    SkipRefinesRewriting(Db(map[], map[]), steps);
    RewritingShowsLast(steps, tid);
    FingerprintsFollowRows(Db(map[], map[]), steps);
    if LastReplace(steps, tid).Some? {
      UniqueKeepsLast(LastReplace(steps, tid).value);
    }
    if tid in db.fingerprints {
      var stored :| Lists(stored, db.rows[tid]) && db.fingerprints[tid] == Fingerprint(stored);
      forall listed | KeysDistinct(listed)
        ensures Fingerprint(listed) == db.fingerprints[tid] <==> SetOf(listed) == RowsOf(db, tid)
      {
        SameSetSameFingerprint(listed, stored);
      }
    }
  }

  lemma {:induction false} FingerprintsFollowRows(db: Db, steps: seq<Step>)
    requires db.fingerprints.Keys == db.rows.Keys
    ensures Run(db, steps).fingerprints.Keys == Run(db, steps).rows.Keys
    decreases |steps|
  {
    if |steps| > 0 {
      FingerprintsFollowRows(Next(db, steps[0]), steps[1..]);
    }
  }

  /**
   After any run, a replace finds nothing to do if and only if the tournament's stored rows are already the last row of
   each key it was given, in whatever order, and a replace has landed since it was last deleted.
   */
  lemma SkipsIffNothingChanges(steps: seq<Step>, tid: string, rows: seq<Row>)
    ensures var db := Run(Db(map[], map[]), steps);
            FingerprintStored(db, tid, rows) <==>
              LastReplace(steps, tid).Some? && forall row :: row in RowsOf(db, tid) <==> LastOfItsKey(rows, row)
  {
    var db := Run(Db(map[], map[]), steps);
    StoredRowsAreTheLastReplace(steps, tid);
    UniqueKeepsLast(rows);
    if tid in db.fingerprints {
      assert Fingerprint(UniqueByKey(rows)) == db.fingerprints[tid] <==> SetOf(UniqueByKey(rows)) == RowsOf(db, tid);
    }
  }
}
