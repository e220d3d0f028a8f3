/**
 The participation index: a tournament's rows are rewritten on a save only when their fingerprint changed. A digest is
 represented by the text it is taken of.
 */
module Participation {
  import opened Options
  import opened Ordering
  import opened Rendering
  import opened Json
  import opened Postgres

  datatype Row = Row(
    subjectType: string, subjectId: string, participantId: string, organisationId: Option<string>,
    providerId: Option<string>, tournamentName: Option<string>, startDate: Option<string>, endDate: Option<string>,
    eventCount: Option<nat>)

  /** `rows` by tournament; within one, the primary key is the subject type, subject id and participant id. */
  datatype Db = Db(rows: map<string, set<Row>>, fingerprints: map<string, string>)

  function RowKey(row: Row): string {
    row.subjectType + "|" + row.subjectId + "|" + row.participantId
  }

  predicate SamePrimaryKey(a: Row, b: Row) {
    a.subjectType == b.subjectType && a.subjectId == b.subjectId && a.participantId == b.participantId
  }

  /** Setting a key of an insertion-ordered `Map`: in place when present, else at the end. */
  function Put(entries: seq<Row>, row: Row): seq<Row> {
    if |entries| == 0 then [row]
    else if RowKey(entries[0]) == RowKey(row) then [row] + entries[1..]
    else [entries[0]] + Put(entries[1..], row)
  }

  function UniqueByKey(rows: seq<Row>): seq<Row> {
    if |rows| == 0 then [] else Put(UniqueByKey(rows[..|rows| - 1]), rows[|rows| - 1])
  }

  function OrNull(s: Option<string>): Value {
    if s.Some? then String(s.value) else Null
  }

  function Canonical(row: Row): string {
    Stringify(AsArray(row))
  }

  function Fields(row: Row): seq<Value> {
    [String(row.subjectType), String(row.subjectId), String(row.participantId), OrNull(row.organisationId),
     OrNull(row.providerId), OrNull(row.tournamentName), OrNull(row.startDate), OrNull(row.endDate),
     if row.eventCount.Some? then Number(Digits(row.eventCount.value)) else Null]
  }

  function ItemsOf(values: seq<Value>): Items {
    if |values| == 0 then Nil else Cons(values[0], ItemsOf(values[1..]))
  }

  function AsArray(row: Row): Value {
    Array(ItemsOf(Fields(row)))
  }

  function Canonicals(rows: seq<Row>): (texts: seq<string>)
    ensures |texts| == |rows| && forall i :: 0 <= i < |rows| ==> texts[i] == Canonical(rows[i])
  {
    if |rows| == 0 then [] else Canonicals(rows[..|rows| - 1]) + [Canonical(rows[|rows| - 1])]
  }

  function Fingerprint(rows: seq<Row>): string {
    JoinLines(Sort(Canonicals(rows)))
  }

  function RowsOf(db: Db, tid: string): set<Row> {
    if tid in db.rows then db.rows[tid] else {}
  }

  function SetOf(rows: seq<Row>): set<Row> {
    set row | row in rows
  }

  function Claimed(db: Db, tid: string, rows: set<Row>, fingerprint: string): Db {
    if tid in db.fingerprints && db.fingerprints[tid] == fingerprint then db
    else Db(db.rows[tid := rows], db.fingerprints[tid := fingerprint])
  }

  /** What the transaction does when it commits. */
  function Replaced(db: Db, tid: string, rows: seq<Row>): Db {
    Claimed(db, tid, SetOf(UniqueByKey(rows)), Fingerprint(UniqueByKey(rows)))
  }

  function Deleted(db: Db, tid: string): Db {
    Db(db.rows - {tid}, db.fingerprints - {tid})
  }

  datatype Outcome = Success | Unchanged | Threw

  /** Which statement the database refuses, and what becomes of the COMMIT. */
  datatype Faults = Faults(begin: bool, claim: bool, delete: bool, insert: bool, commit: CommitFate)

  predicate Claims(db: Db, tid: string, rows: seq<Row>) {
    tid !in db.fingerprints || db.fingerprints[tid] != Fingerprint(UniqueByKey(rows))
  }

  /** No statement before the COMMIT is refused. */
  predicate Runs(db: Db, tid: string, rows: seq<Row>, faults: Faults) {
    !faults.begin && !faults.claim && (Claims(db, tid, rows) ==> !faults.delete && (rows != [] ==> !faults.insert))
  }

  /** No statement is refused, and a COMMIT lands. */
  predicate Undisturbed(faults: Faults) {
    !faults.begin && !faults.claim && !faults.delete && !faults.insert && faults.commit.Lands?
  }

  predicate FingerprintStored(db: Db, tid: string, rows: seq<Row>) {
    tid in db.fingerprints && db.fingerprints[tid] == Fingerprint(UniqueByKey(rows))
  }

  predicate SameElsewhere(db: Db, after: Db, tid: string) {
    after.rows - {tid} == db.rows - {tid} && after.fingerprints - {tid} == db.fingerprints - {tid}
  }

  /** A replace, by what it leaves: the de-duplicated rows and their fingerprint, or everything when that is stored already. */
  predicate Holds(db: Db, after: Db, tid: string, rows: seq<Row>) {
    && SameElsewhere(db, after, tid)
    && tid in after.fingerprints && after.fingerprints[tid] == Fingerprint(UniqueByKey(rows))
    && if FingerprintStored(db, tid, rows) then after.rows == db.rows
       else tid in after.rows && after.rows[tid] == set row | row in UniqueByKey(rows)
  }

  lemma ReplacedHolds(db: Db, tid: string, rows: seq<Row>, faults: Faults)
    ensures Holds(db, Replaced(db, tid, rows), tid, rows)
    ensures Claims(db, tid, rows) <==> !FingerprintStored(db, tid, rows)
    ensures Undisturbed(faults) ==> Runs(db, tid, rows, faults)
  {
  }

  /** A statement that is needed and refused stops the replace. */
  lemma RunsIff(db: Db, tid: string, rows: seq<Row>, faults: Faults)
    ensures Runs(db, tid, rows, faults) <==>
            !faults.begin && !faults.claim
            && (FingerprintStored(db, tid, rows) || (!faults.delete && (rows == [] || !faults.insert)))
  {
  }

  lemma {:induction false} UniqueEmptyIff(rows: seq<Row>)
    ensures UniqueByKey(rows) == [] <==> rows == []
  {
    if |rows| > 0 {
      PutNotEmpty(UniqueByKey(rows[..|rows| - 1]), rows[|rows| - 1]);
    }
  }

  lemma PutNotEmpty(entries: seq<Row>, row: Row)
    ensures Put(entries, row) != []
  {
  }

  /** The statements after the transaction or savepoint is open. */
  method WriteRows(client: Session<Db>, tid: string, rows: seq<Row>, faults: Faults) returns (outcome: Outcome)
    requires client.Open() && !faults.begin
    modifies client
    ensures client.committed == old(client.committed) && client.savepoints == old(client.savepoints)
    ensures client.work.Some? && (outcome.Threw? <==> !Runs(old(client.work.value), tid, rows, faults))
    ensures !outcome.Threw? ==> client.Open() && client.work.value == Replaced(old(client.work.value), tid, rows)
    ensures !outcome.Threw? ==> (outcome.Unchanged? <==> !Claims(old(client.work.value), tid, rows))
  {
    var unique := UniqueByKey(rows);
    UniqueEmptyIff(rows);
    var fingerprint := Fingerprint(unique);
    var before := client.Visible();
    var claims := tid !in before.fingerprints || before.fingerprints[tid] != fingerprint;
    var claimed := if claims then before.(fingerprints := before.fingerprints[tid := fingerprint]) else before;
    var ok := client.Execute(claimed, faults.claim);
    if !ok {
      return Threw;
    }
    if !claims {
      return Unchanged;
    }
    ok := client.Execute(claimed.(rows := claimed.rows[tid := {}]), faults.delete);
    if !ok {
      return Threw;
    }
    if |unique| > 0 {
      ok := client.Execute(claimed.(rows := claimed.rows[tid := SetOf(unique)]), faults.insert);
      if !ok {
        return Threw;
      }
    } else {
      assert SetOf(unique) == {};
    }
    return Success;
  }

  /** On the command's connection inside a savepoint when there is one, else in a transaction of its own. */
  method ReplaceTournamentRows(client: Session<Db>, borrowed: bool, tid: string, rows: seq<Row>, faults: Faults)
    returns (outcome: Outcome)
    requires if borrowed then client.Open() else client.Idle()
    modifies client
    // borrowed: the rows and the fingerprint together or neither, and the command goes on
    ensures borrowed ==> client.Open() && client.committed == old(client.committed)
    ensures borrowed ==>
              client.work == if outcome.Threw? then old(client.work) else Some(Replaced(old(client.work.value), tid, rows))
    ensures borrowed ==> (outcome.Threw? <==> !Runs(old(client.work.value), tid, rows, faults))
    // its own transaction: likewise, and a lost reply reports a failure although it landed
    ensures !borrowed ==> client.Idle()
    ensures !borrowed ==>
              client.committed == if Runs(old(client.committed), tid, rows, faults) && !faults.commit.Fails?
                                  then Replaced(old(client.committed), tid, rows) else old(client.committed)
    ensures !borrowed ==> (outcome.Threw? <==> !Runs(old(client.committed), tid, rows, faults) || !faults.commit.Lands?)
    // with nothing refused, the rows are replaced unless the fingerprint is the stored one
    ensures Undisturbed(faults) ==>
              && !outcome.Threw?
              && (outcome.Unchanged? <==> FingerprintStored(old(client.Visible()), tid, rows))
              && Holds(old(client.Visible()), client.Visible(), tid, rows)
  {
    ReplacedHolds(client.Visible(), tid, rows, faults);
    if faults.begin {
      return Threw;
    }
    if borrowed {
      var defined := client.Savepoint();
      outcome := WriteRows(client, tid, rows, faults);
      if outcome.Threw? {
        client.RollbackToSavepoint();
      } else {
        client.ReleaseSavepoint();
      }
    } else {
      client.Begin();
      outcome := WriteRows(client, tid, rows, faults);
      if outcome.Threw? {
        client.Rollback();
      } else {
        var ok := client.Commit(faults.commit);
        if !ok {
          client.Rollback();
          outcome := Threw;
        }
      }
    }
  }

  /** One statement for the rows and the fingerprint, always on a connection of its own. */
  method DeleteTournamentRows(client: Session<Db>, tid: string, fails: bool) returns (ok: bool)
    requires client.Idle()
    modifies client
    ensures client.Idle() && ok == !fails
    ensures client.committed == if ok then Deleted(old(client.committed), tid) else old(client.committed)
    ensures ok ==> SameElsewhere(old(client.committed), client.committed, tid)
                   && tid !in client.committed.rows && tid !in client.committed.fingerprints
  {
    ok := client.Execute(Deleted(client.Visible(), tid), fails);
  }

  // ---------------------------------------------------------------- the last row of a key wins

  predicate KeysDistinct(rows: seq<Row>) {
    forall i, j :: 0 <= i < j < |rows| ==> RowKey(rows[i]) != RowKey(rows[j])
  }

  /** `row` is the last of its key. */
  predicate LastOfItsKey(rows: seq<Row>, row: Row) {
    exists i :: 0 <= i < |rows| && rows[i] == row && forall j :: i < j < |rows| ==> RowKey(rows[j]) != RowKey(row)
  }

  lemma {:induction false} PutHolds(entries: seq<Row>, row: Row)
    requires KeysDistinct(entries)
    ensures KeysDistinct(Put(entries, row))
    ensures forall r :: r in Put(entries, row) <==> r == row || (r in entries && RowKey(r) != RowKey(row))
  {
    if |entries| > 0 {
      var head, rest := entries[0], entries[1..];
      assert entries == [head] + rest;
      HeadApart(entries);
      if RowKey(head) != RowKey(row) {
        PutHolds(rest, row);
        ApartFromHead(head, Put(rest, row));
      } else {
        ApartFromHead(row, rest);
      }
    }
  }

  lemma HeadApart(entries: seq<Row>)
    requires KeysDistinct(entries) && |entries| > 0
    ensures KeysDistinct(entries[1..]) && forall r :: r in entries[1..] ==> RowKey(r) != RowKey(entries[0])
  {
  }

  lemma ApartFromHead(head: Row, rest: seq<Row>)
    requires KeysDistinct(rest) && forall r :: r in rest ==> RowKey(r) != RowKey(head)
    ensures KeysDistinct([head] + rest)
  {
    var all := [head] + rest;
    forall i, j | 0 <= i < j < |all| ensures RowKey(all[i]) != RowKey(all[j]) {
      assert all[j] == rest[j - 1];
    }
  }

  /** De-duplication keeps, of each key, exactly its last row. */
  lemma {:induction false} UniqueKeepsLast(rows: seq<Row>)
    ensures KeysDistinct(UniqueByKey(rows))
    ensures forall row :: row in UniqueByKey(rows) <==> LastOfItsKey(rows, row)
  {
    if |rows| > 0 {
      var front, last := rows[..|rows| - 1], rows[|rows| - 1];
      UniqueKeepsLast(front);
      PutHolds(UniqueByKey(front), last);
      forall row ensures LastOfItsKey(rows, row) <==> row == last || (LastOfItsKey(front, row) && RowKey(row) != RowKey(last)) {
        LastOfExtension(front, last, row);
        assert rows == front + [last];
      }
    }
  }

  lemma LastOfExtension(front: seq<Row>, last: Row, row: Row)
    ensures LastOfItsKey(front + [last], row) <==> row == last || (LastOfItsKey(front, row) && RowKey(row) != RowKey(last))
  {
    var rows := front + [last];
    if row == last {
      assert rows[|front|] == row;
    } else if RowKey(row) != RowKey(last) && LastOfItsKey(front, row) {
      var i :| 0 <= i < |front| && front[i] == row && forall j :: i < j < |front| ==> RowKey(front[j]) != RowKey(row);
      assert rows[i] == row;
    } else {
      assert rows[|front|] == last;
      assert forall j :: 0 <= j < |front| ==> front[j] == rows[j];
    }
  }

  /** Ids without `|` keep different primary keys apart. */
  lemma RowKeyTellsApart(a: Row, b: Row)
    requires NoBar(a.subjectId) && NoBar(b.subjectId) && NoBar(a.participantId) && NoBar(b.participantId)
    ensures RowKey(a) == RowKey(b) <==> SamePrimaryKey(a, b)
  {
    if RowKey(a) == RowKey(b) {
      JoinInjective(a.subjectType + "|" + a.subjectId, a.participantId, b.subjectType + "|" + b.subjectId, b.participantId);
      JoinInjective(a.subjectType, a.subjectId, b.subjectType, b.subjectId);
    }
  }

  /** Every primary key keeps a row exactly when no two different ones are joined to the same text. */
  lemma EveryPrimaryKeyKeptIffToldApart(rows: seq<Row>)
    ensures (forall a :: a in rows ==> exists u :: u in UniqueByKey(rows) && SamePrimaryKey(a, u))
       <==> (forall a, b :: a in rows && b in rows && RowKey(a) == RowKey(b) ==> SamePrimaryKey(a, b))
  {
    UniqueKeepsLast(rows);
    if forall a, b :: a in rows && b in rows && RowKey(a) == RowKey(b) ==> SamePrimaryKey(a, b) {
      forall a | a in rows ensures exists u :: u in UniqueByKey(rows) && SamePrimaryKey(a, u) {
        var u := LastWithKey(rows, a);
        assert u in UniqueByKey(rows) && SamePrimaryKey(a, u);
      }
    }
    if forall a :: a in rows ==> exists u :: u in UniqueByKey(rows) && SamePrimaryKey(a, u) {
      forall a, b | a in rows && b in rows && RowKey(a) == RowKey(b) ensures SamePrimaryKey(a, b) {
        var u :| u in UniqueByKey(rows) && SamePrimaryKey(a, u);
        var v :| v in UniqueByKey(rows) && SamePrimaryKey(b, v);
        assert RowKey(u) == RowKey(v);
      }
    }
  }

  lemma {:induction false} LastWithKey(rows: seq<Row>, a: Row) returns (u: Row)
    requires a in rows
    ensures u in rows && LastOfItsKey(rows, u) && RowKey(u) == RowKey(a)
  {
    var front, last := rows[..|rows| - 1], rows[|rows| - 1];
    assert rows == front + [last];
    if RowKey(last) == RowKey(a) {
      u := last;
    } else {
      u := LastWithKey(front, a);
    }
    LastOfExtension(front, last, u);
  }

  // ---------------------------------------------------------------- the fingerprint identifies the rows

  lemma DigitsAreNumber(n: nat)
    ensures NumberText(Digits(n))
  {
  }

  lemma {:induction false} ItemsOfValid(values: seq<Value>)
    requires forall i :: 0 <= i < |values| ==> Valid(values[i])
    ensures ValidItems(ItemsOf(values))
  {
    if |values| > 0 {
      ItemsOfValid(values[1..]);
    }
  }

  lemma {:induction false} ItemsOfInjective(a: seq<Value>, b: seq<Value>)
    requires ItemsOf(a) == ItemsOf(b)
    ensures a == b
  {
    if |a| > 0 && |b| > 0 {
      ItemsOfInjective(a[1..], b[1..]);
      assert a == [a[0]] + a[1..] && b == [b[0]] + b[1..];
    }
  }

  lemma AsArrayValid(row: Row)
    ensures Valid(AsArray(row))
  {
    if row.eventCount.Some? {
      DigitsAreNumber(row.eventCount.value);
    }
    ItemsOfValid(Fields(row));
  }

  lemma OrNullInjective(a: Option<string>, b: Option<string>)
    requires OrNull(a) == OrNull(b)
    ensures a == b
  {
  }

  lemma CanonicalInjective(a: Row, b: Row)
    requires Canonical(a) == Canonical(b)
    ensures a == b
  {
    AsArrayValid(a);
    AsArrayValid(b);
    StringifyInjective(AsArray(a), AsArray(b));
    ItemsOfInjective(Fields(a), Fields(b));
    var f, g := Fields(a), Fields(b);
    assert f[0] == g[0] && f[1] == g[1] && f[2] == g[2];
    OrNullInjective(a.organisationId, b.organisationId);
    OrNullInjective(a.providerId, b.providerId);
    OrNullInjective(a.tournamentName, b.tournamentName);
    OrNullInjective(a.startDate, b.startDate);
    OrNullInjective(a.endDate, b.endDate);
    assert f[8] == g[8];
    if a.eventCount.Some? && b.eventCount.Some? {
      DigitsInjective(a.eventCount.value, b.eventCount.value);
    }
  }

  lemma CanonicalLine(row: Row)
    ensures OneLine(Canonical(row)) && |Canonical(row)| > 0
  {
    AsArrayValid(row);
    PrintOneLine(AsArray(row), "");
    FirstTellsKind(AsArray(row), "");
  }

  lemma CanonicalIff(a: Row, b: Row)
    ensures Canonical(a) == Canonical(b) <==> a == b
  {
    if Canonical(a) == Canonical(b) {
      CanonicalInjective(a, b);
    }
  }

  /** Two lists that hold `x` and `y` at the same places hold them equally often. */
  lemma {:induction false} SamePlacesSameCount<S, T>(a: seq<S>, b: seq<T>, x: S, y: T)
    requires |a| == |b| && forall i :: 0 <= i < |a| ==> (a[i] == x <==> b[i] == y)
    ensures multiset(a)[x] == multiset(b)[y]
  {
    if |a| > 0 {
      SamePlacesSameCount(a[..|a| - 1], b[..|b| - 1], x, y);
      assert a == a[..|a| - 1] + [a[|a| - 1]] && b == b[..|b| - 1] + [b[|b| - 1]];
    }
  }

  lemma CanonicalsCount(rows: seq<Row>, row: Row)
    ensures multiset(Canonicals(rows))[Canonical(row)] == multiset(rows)[row]
  {
    forall i | 0 <= i < |rows| ensures Canonicals(rows)[i] == Canonical(row) <==> rows[i] == row {
      CanonicalIff(rows[i], row);
    }
    SamePlacesSameCount(Canonicals(rows), rows, Canonical(row), row);
  }

  lemma {:induction false} CanonicalsAreOfRows(rows: seq<Row>, text: string)
    requires text in Canonicals(rows)
    ensures exists row :: row in rows && Canonical(row) == text
  {
    var i :| 0 <= i < |rows| && Canonicals(rows)[i] == text;
    assert rows[i] in rows && Canonical(rows[i]) == text;
  }

  lemma CountsWithin(a: seq<Row>, b: seq<Row>, text: string)
    requires multiset(a) == multiset(b)
    ensures multiset(Canonicals(a))[text] == multiset(Canonicals(b))[text]
  {
    if text in Canonicals(a) {
      CanonicalsAreOfRows(a, text);
      var row :| row in a && Canonical(row) == text;
      CanonicalsCount(a, row);
      CanonicalsCount(b, row);
    } else if text in Canonicals(b) {
      CanonicalsAreOfRows(b, text);
      var row :| row in b && Canonical(row) == text;
      CanonicalsCount(a, row);
      CanonicalsCount(b, row);
    } else {
      assert text !in multiset(Canonicals(a)) && text !in multiset(Canonicals(b));
    }
  }

  lemma LinesOf(rows: seq<Row>)
    ensures Lines(Sort(Canonicals(rows)))
  {
    var lines := Sort(Canonicals(rows));
    forall i | 0 <= i < |lines| ensures OneLine(lines[i]) && |lines[i]| > 0 {
      assert lines[i] in multiset(lines);
      assert lines[i] in Canonicals(rows);
      CanonicalsAreOfRows(rows, lines[i]);
      var row :| row in rows && Canonical(row) == lines[i];
      CanonicalLine(row);
    }
  }

  lemma SameLines(a: seq<Row>, b: seq<Row>)
    requires Fingerprint(a) == Fingerprint(b)
    ensures Sort(Canonicals(a)) == Sort(Canonicals(b))
  {
    LinesOf(a);
    LinesOf(b);
    JoinLinesInjective(Sort(Canonicals(a)), Sort(Canonicals(b)));
  }

  lemma SameFingerprint(a: seq<Row>, b: seq<Row>)
    requires multiset(Canonicals(a)) == multiset(Canonicals(b))
    ensures multiset(a) == multiset(b)
  {
    forall row ensures multiset(a)[row] == multiset(b)[row] {
      CanonicalsCount(a, row);
      CanonicalsCount(b, row);
    }
  }

  lemma SameTexts(a: seq<Row>, b: seq<Row>)
    requires multiset(a) == multiset(b)
    ensures multiset(Canonicals(a)) == multiset(Canonicals(b))
  {
    forall text ensures multiset(Canonicals(a))[text] == multiset(Canonicals(b))[text] {
      CountsWithin(a, b, text);
    }
  }

  lemma SortedAlike(a: seq<string>, b: seq<string>)
    requires multiset(a) == multiset(b)
    ensures Sort(a) == Sort(b)
  {
    SortedUnique(Sort(a), Sort(b));
  }

  lemma SameRows(a: seq<Row>, b: seq<Row>)
    requires multiset(a) == multiset(b)
    ensures Fingerprint(a) == Fingerprint(b)
  {
    SameTexts(a, b);
    SortedAlike(Canonicals(a), Canonicals(b));
  }

  /** Two lists have the same fingerprint exactly when they hold the same rows, in any order. */
  lemma FingerprintIffSameRows(a: seq<Row>, b: seq<Row>)
    ensures Fingerprint(a) == Fingerprint(b) <==> multiset(a) == multiset(b)
  {
    if Fingerprint(a) == Fingerprint(b) {
      SameLines(a, b);
      SameFingerprint(a, b);
    }
    if multiset(a) == multiset(b) {
      SameRows(a, b);
    }
  }
}
