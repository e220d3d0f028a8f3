/** What scoped, paged reads show, how a page regroups by provider, and what the calendar's updates keep. */
module CalendarReads {
  import opened Options
  import opened Ordering
  import opened Json
  import opened CalendarRow
  import opened Calendar

  // ---------------------------------------------------------------- the order

  lemma BeforeTotal(a: Row, b: Row)
    requires a.tournamentId != b.tournamentId
    ensures Before(a, b) || Before(b, a)
  {
    LessTotal(a.tournamentId, b.tournamentId);
    if a.startDate.Some? && b.startDate.Some? {
      LessTotal(a.startDate.value, b.startDate.value);
    }
  }

  lemma BeforeTransitive(a: Row, b: Row, c: Row)
    requires Before(a, b) && Before(b, c)
    ensures Before(a, c)
  {
    if a.startDate == b.startDate == c.startDate {
      LessTransitive(a.tournamentId, b.tournamentId, c.tournamentId);
    } else if a.startDate.Some? && b.startDate.Some? && c.startDate.Some? && a.startDate != b.startDate && b.startDate != c.startDate {
      LessTransitive(c.startDate.value, b.startDate.value, a.startDate.value);
      if a.startDate == c.startDate {
        LessIrreflexive(a.startDate.value);
      }
    }
  }

  /** Later tournaments first, those without a start last, the same day by id. */
  lemma BeforeMeans(a: Row, b: Row)
    requires Less(a.tournamentId, b.tournamentId)
    ensures a.startDate == b.startDate ==> Before(a, b) && !Before(b, a)
    ensures a.startDate.Some? && b.startDate.None? ==> Before(a, b) && !Before(b, a)
    ensures a.startDate.None? && b.startDate.Some? ==> Before(b, a) && !Before(a, b)
    ensures a.startDate.Some? && b.startDate.Some? && Less(a.startDate.value, b.startDate.value) ==> Before(b, a) && !Before(a, b)
  {
    if Less(b.tournamentId, a.tournamentId) {
      LessTransitive(a.tournamentId, b.tournamentId, a.tournamentId);
      LessIrreflexive(a.tournamentId);
    }
    if a.startDate.Some? && b.startDate.Some? && Less(a.startDate.value, b.startDate.value) {
      if Less(b.startDate.value, a.startDate.value) {
        LessTransitive(a.startDate.value, b.startDate.value, a.startDate.value);
      }
      LessIrreflexive(a.startDate.value);
    }
  }

  /** Who may see a published row of a target: what each grant adds, and that nothing else does. */
  lemma WhoSees(q: Query, row: Row)
    requires row.providerId in q.providerIds && row.published
    ensures q.scope.unrestricted || row.providerId in q.scope.fullAccessProviderIds ==> Admits(q, row)
    ensures row.providerId in q.scope.directorProviderIds ==>
              && (row.createdByUserId == Some(q.scope.userId) && q.scope.userId != "" ==> Admits(q, row))
              && (row.tournamentId in q.scope.assignedTournamentIds ==> Admits(q, row))
              && (forall actor :: row.createdByUserId == Some("provisioner:" + actor) ==> Admits(q, row))
    ensures !q.scope.unrestricted && row.providerId !in q.scope.fullAccessProviderIds && row.providerId !in q.scope.directorProviderIds ==>
              !Admits(q, row)
    ensures (!q.scope.unrestricted && row.providerId !in q.scope.fullAccessProviderIds
             && row.tournamentId !in q.scope.assignedTournamentIds && row.createdByUserId.None?) ==> !Admits(q, row)
    ensures q.publishedOnly ==> !Admits(q, row.(published := false))
    ensures Admits(q.(publishedOnly := false), row.(published := false)) <==> Admits(q.(publishedOnly := false), row)
    ensures !Admits(q.(providerIds := []), row)
  {
  }

  predicate InOrder(rows: seq<Row>) {
    forall i, j :: 0 <= i < j < |rows| ==> Before(rows[i], rows[j])
  }

  predicate IdsDistinct(rows: seq<Row>) {
    forall i, j :: 0 <= i < j < |rows| ==> rows[i].tournamentId != rows[j].tournamentId
  }

  lemma {:induction false} InsertedRows(row: Row, rows: seq<Row>)
    ensures multiset(InsertRow(row, rows)) == multiset(rows) + multiset{row}
  {
    if |rows| > 0 && !Before(row, rows[0]) {
      assert rows == [rows[0]] + rows[1..];
      InsertedRows(row, rows[1..]);
    }
  }

  lemma {:induction false} InsertHolds(row: Row, rows: seq<Row>)
    requires InOrder(rows) && forall i :: 0 <= i < |rows| ==> rows[i].tournamentId != row.tournamentId
    ensures InOrder(InsertRow(row, rows))
  {
    if |rows| > 0 && !Before(row, rows[0]) {
      var rest := InsertRow(row, rows[1..]);
      InsertHolds(row, rows[1..]);
      InsertedRows(row, rows[1..]);
      BeforeTotal(row, rows[0]);
      forall j | 0 <= j < |rest| ensures Before(rows[0], rest[j]) {
        assert rest[j] in multiset(rest);
        if rest[j] != row {
          assert rest[j] in rows[1..];
        }
      }
    } else if |rows| > 0 {
      forall j | 0 <= j < |rows| ensures Before(row, rows[j]) {
        if j > 0 {
          BeforeTransitive(row, rows[0], rows[j]);
        }
      }
    }
  }

  lemma {:induction false} SortedRows(rows: seq<Row>)
    ensures multiset(SortRows(rows)) == multiset(rows) && |SortRows(rows)| == |rows|
  {
    if |rows| > 0 {
      var front, last := rows[..|rows| - 1], rows[|rows| - 1];
      assert rows == front + [last];
      SortedRows(front);
      InsertedRows(last, SortRows(front));
    }
    assert |multiset(SortRows(rows))| == |SortRows(rows)|;
    assert |multiset(rows)| == |rows|;
  }

  /** Sorting only rearranges. */
  lemma SortedSame(rows: seq<Row>, row: Row)
    ensures row in SortRows(rows) <==> row in rows
  {
    SortedRows(rows);
    assert row in SortRows(rows) <==> row in multiset(SortRows(rows));
    assert row in rows <==> row in multiset(rows);
  }

  lemma {:induction false} SortHolds(rows: seq<Row>)
    requires IdsDistinct(rows)
    ensures InOrder(SortRows(rows))
  {
    if |rows| > 0 {
      var front, last := rows[..|rows| - 1], rows[|rows| - 1];
      SortHolds(front);
      var sorted := SortRows(front);
      forall i | 0 <= i < |sorted| ensures sorted[i].tournamentId != last.tournamentId {
        SortedSame(front, sorted[i]);
      }
      InsertHolds(last, sorted);
    }
  }

  predicate OneEach(table: Table) {
    forall i, j :: 0 <= i < j < |table| ==> table[i].row.tournamentId != table[j].row.tournamentId
  }

  predicate TableOk(table: Table) {
    && OneEach(table)
    && (forall i :: 0 <= i < |table| ==> RowOk(table[i].row))
  }

  lemma {:induction false} AdmittedHolds(table: Table, q: Query)
    requires TableOk(table)
    ensures forall row :: row in Admitted(table, q) <==> Admits(q, row) && exists i :: 0 <= i < |table| && table[i].row == row
    ensures IdsDistinct(Admitted(table, q))
  {
    if |table| > 0 {
      var front, last := table[..|table| - 1], table[|table| - 1];
      AdmittedHolds(front, q);
      forall row ensures row in Admitted(table, q) <==> Admits(q, row) && exists i :: 0 <= i < |table| && table[i].row == row {
        if i :| 0 <= i < |table| && table[i].row == row {
          assert i < |front| ==> front[i].row == row;
        }
        if j :| 0 <= j < |front| && front[j].row == row {
          assert table[j].row == row;
        }
        assert last.row == row ==> table[|table| - 1].row == row;
      }
      var before := Admitted(front, q);
      forall i | 0 <= i < |before| ensures before[i].tournamentId != last.row.tournamentId {
        assert before[i] in before;
      }
    }
  }

  // ---------------------------------------------------------------- pages

  /** The pages of `limit` rows, one after the other, as many as asked for. */
  function Pages<T>(rows: seq<T>, limit: nat, count: nat): seq<T> {
    if count == 0 then [] else Pages(rows, limit, count - 1) + Window(rows, limit, (count - 1) * limit)
  }

  lemma {:induction false} PagesArePrefix<T>(rows: seq<T>, limit: nat, count: nat)
    ensures Pages(rows, limit, count) == if count * limit >= |rows| then rows else rows[..count * limit]
  {
    if count > 0 {
      PagesArePrefix(rows, limit, count - 1);
      assert count * limit == (count - 1) * limit + limit;
    }
  }

  /** What a query answers on a table that does not change, page by page. */
  function AllRows(table: Table, q: Query): seq<Row> {
    SortRows(Admitted(table, q))
  }

  /**
   Successive pages concatenate to exactly the rows the scope admits, each once and in order, without a gap or a repeat
   at any page size; a further page exists exactly when `hasMore` says so.
   */
  lemma PagesShowEveryRowOnce(table: Table, q: Query, limit: nat, count: nat)
    requires TableOk(table) && limit > 0 && count * limit >= |Admitted(table, q)|
    ensures Pages(AllRows(table, q), limit, count) == AllRows(table, q)
    ensures InOrder(AllRows(table, q)) && IdsDistinct(AllRows(table, q))
    ensures forall row :: row in AllRows(table, q) <==> Admits(q, row) && exists i :: 0 <= i < |table| && table[i].row == row
    ensures |AllRows(table, q)| == |Admitted(table, q)|
  {
    AdmittedHolds(table, q);
    SortHolds(Admitted(table, q));
    SortedRows(Admitted(table, q));
    var rows := AllRows(table, q);
    PagesArePrefix(rows, limit, count);
    forall row ensures row in rows <==> row in Admitted(table, q) {
      SortedSame(Admitted(table, q), row);
    }
    SortedIdsDistinct(Admitted(table, q));
  }

  lemma SortedIdsDistinct(rows: seq<Row>)
    requires IdsDistinct(rows) && InOrder(SortRows(rows))
    ensures IdsDistinct(SortRows(rows))
  {
    var sorted := SortRows(rows);
    forall i, j | 0 <= i < j < |sorted| ensures sorted[i].tournamentId != sorted[j].tournamentId {
      assert Before(sorted[i], sorted[j]);
      SortedSame(rows, sorted[i]);
      SortedSame(rows, sorted[j]);
      LessIrreflexive(sorted[i].tournamentId);
    }
  }

  lemma HasMoreIffNextPage(rows: seq<Row>, limit: nat, offset: nat)
    requires limit > 0
    ensures offset + |Window(rows, limit, offset)| < |rows| <==> Window(rows, limit, offset + limit) != []
  {
  }

  // ---------------------------------------------------------------- regrouping

  function Regrouped(rows: seq<Entry>, providers: seq<string>): seq<Entry> {
    if |providers| == 0 then []
    else Regrouped(rows, providers[..|providers| - 1]) + OfProvider(rows, providers[|providers| - 1])
  }

  function Copies(providers: seq<string>, p: Option<string>): nat {
    if |providers| == 0 then 0
    else Copies(providers[..|providers| - 1], p) + if Some(providers[|providers| - 1]) == p then 1 else 0
  }

  lemma {:induction false} OfProviderCount(rows: seq<Entry>, p: string, entry: Entry)
    ensures multiset(OfProvider(rows, p))[entry] == if entry.providerId == Some(p) then multiset(rows)[entry] else 0
  {
    if |rows| > 0 {
      var front, last := rows[..|rows| - 1], rows[|rows| - 1];
      assert rows == front + [last];
      OfProviderCount(front, p, entry);
    }
  }

  /** A group keeps the page's order. */
  lemma {:induction false} GroupKeepsOrder(front: seq<Entry>, rows: seq<Entry>, p: string)
    ensures OfProvider(front + rows, p) == OfProvider(front, p) + OfProvider(rows, p)
  {
    if |rows| > 0 {
      GroupKeepsOrder(front, rows[..|rows| - 1], p);
      assert (front + rows)[..|front + rows| - 1] == front + rows[..|rows| - 1];
    } else {
      assert front + rows == front;
    }
  }

  lemma GroupOfOne(entry: Entry, p: string)
    ensures OfProvider([entry], p) == if entry.providerId == Some(p) then [entry] else []
  {
    assert [entry][..0] == [];
  }

  /** Regrouping shows each entry once for every time its provider is among the targets: it loses or repeats nothing else. */
  lemma {:induction false} RegroupingCounts(rows: seq<Entry>, providers: seq<string>, entry: Entry)
    ensures multiset(Regrouped(rows, providers))[entry] == Copies(providers, entry.providerId) * multiset(rows)[entry]
  {
    if |providers| > 0 {
      var front, last := providers[..|providers| - 1], providers[|providers| - 1];
      RegroupingCounts(rows, front, entry);
      OfProviderCount(rows, last, entry);
      OneMore(Copies(front, entry.providerId), multiset(rows)[entry]);
      assert multiset(Regrouped(rows, providers)) == multiset(Regrouped(rows, front)) + multiset(OfProvider(rows, last));
    }
  }

  lemma OneMore(copies: nat, count: nat)
    ensures (copies + 1) * count == copies * count + count
  {
  }

  lemma {:induction false} CopiesOfDistinct(providers: seq<string>, p: string)
    requires Distinct(providers)
    ensures Copies(providers, Some(p)) == if p in providers then 1 else 0
  {
    if |providers| > 0 {
      var front, last := providers[..|providers| - 1], providers[|providers| - 1];
      assert providers == front + [last];
      CopiesOfDistinct(front, p);
    }
  }

  lemma PageIsAdmitted(table: Table, q: Query, row: Row)
    requires row in Window(AllRows(table, q), q.limit, q.offset)
    ensures row.providerId in q.providerIds
  {
    assert row in AllRows(table, q);
    SortedSame(Admitted(table, q), row);
    AdmittedAre(table, q, row);
  }

  lemma {:induction false} AdmittedAre(table: Table, q: Query, row: Row)
    requires row in Admitted(table, q)
    ensures Admits(q, row)
  {
    if row != table[|table| - 1].row {
      AdmittedAre(table[..|table| - 1], q, row);
    } else if !Admits(q, row) {
      AdmittedAre(table[..|table| - 1], q, row);
    }
  }

  lemma EntryRegroupsOnce(rows: seq<Entry>, providers: seq<string>, entry: Entry)
    requires Distinct(providers)
    requires entry in rows ==> entry.providerId.Some? && entry.providerId.value in providers
    ensures multiset(Regrouped(rows, providers))[entry] == multiset(rows)[entry]
  {
    RegroupingCounts(rows, providers, entry);
    if entry in rows {
      CopiesOfDistinct(providers, entry.providerId.value);
    } else {
      assert entry !in multiset(rows);
    }
  }

  lemma EntryOfPage(table: Table, q: Query, entry: Entry)
    requires entry in Entries(Window(AllRows(table, q), q.limit, q.offset))
    ensures entry.providerId.Some? && entry.providerId.value in q.providerIds
  {
    var page := Window(AllRows(table, q), q.limit, q.offset);
    var i :| 0 <= i < |page| && Entries(page)[i] == entry;
    PageIsAdmitted(table, q, page[i]);
  }

  /** A page of a query for those targets, regrouped by them, is the same page. */
  lemma PageRegroupsWhole(table: Table, q: Query)
    requires Distinct(q.providerIds)
    ensures multiset(Regrouped(Entries(Window(AllRows(table, q), q.limit, q.offset)), q.providerIds))
         == multiset(Entries(Window(AllRows(table, q), q.limit, q.offset)))
  {
    var entries := Entries(Window(AllRows(table, q), q.limit, q.offset));
    forall entry ensures multiset(Regrouped(entries, q.providerIds))[entry] == multiset(entries)[entry] {
      if entry in entries {
        EntryOfPage(table, q, entry);
      }
      EntryRegroupsOnce(entries, q.providerIds, entry);
    }
  }

  // ---------------------------------------------------------------- updates

  datatype Change =
    | Add(addTo: string, provider: Option<Option<string>>, entry: Option<Entry>)
    | Remove(removeFrom: string, removed: string)
    | Modify(modifyIn: string, owner: Option<Option<string>>, modified: string, updates: map<string, Option<Value>>)

  function Next(table: Table, c: Change, now: nat, lower: string -> string): Table {
    match c
    case Add(providerId, provider, entry) => AddedOrUpdated(table, providerId, provider, entry, now, lower).0
    case Remove(providerId, tid) => RemovedFrom(table, providerId, tid).0
    case Modify(providerId, provider, tid, updates) => Modified(table, providerId, provider, tid, updates, now, lower).0
  }

  function Run(table: Table, changes: seq<Change>, now: nat, lower: string -> string): Table
    decreases |changes|
  {
    if |changes| == 0 then table else Run(Next(table, changes[0], now, lower), changes[1..], now + 1, lower)
  }

  lemma UpsertedOk(table: Table, row: Row, now: nat)
    requires TableOk(table) && RowOk(row)
    ensures TableOk(Upserted(table, row, now))
  {
  }

  lemma UpsertedAt(table: Table, row: Row, now: nat, tid: string)
    requires OneEach(table) && OneEach(Upserted(table, row, now))
    ensures RowAt(Upserted(table, row, now), tid) == if tid == row.tournamentId then Some(row) else RowAt(table, tid)
  {
    var after := Upserted(table, row, now);
    var was := Find(table, tid);
    FindUnique(table, tid);
    FindUnique(after, tid);
    if tid == row.tournamentId {
      var i := was.GetOr(|table|);
      assert after[i].row == row;
    } else if was.Some? {
      assert after[was.value] == table[was.value];
    }
  }

  lemma UpsertKeeps(table: Table, row: Row, now: nat)
    requires TableOk(table) && RowOk(row)
    ensures TableOk(Upserted(table, row, now)) && RowAt(Upserted(table, row, now), row.tournamentId) == Some(row)
    ensures forall tid :: tid != row.tournamentId ==> RowAt(Upserted(table, row, now), tid) == RowAt(table, tid)
  {
    UpsertedOk(table, row, now);
    forall tid ensures RowAt(Upserted(table, row, now), tid) == if tid == row.tournamentId then Some(row) else RowAt(table, tid) {
      UpsertedAt(table, row, now, tid);
    }
  }

  lemma FindUnique(table: Table, tid: string)
    requires OneEach(table)
    ensures forall i :: 0 <= i < |table| && table[i].row.tournamentId == tid ==> Find(table, tid) == Some(i)
  {
  }

  lemma {:induction false} RemovedHolds(table: Table, tid: string)
    requires TableOk(table)
    ensures TableOk(Removed(table, tid))
    ensures forall s :: s in Removed(table, tid) <==> s in table && s.row.tournamentId != tid
  {
    if |table| > 0 {
      var front, last := table[..|table| - 1], table[|table| - 1];
      assert table == front + [last];
      RemovedHolds(front, tid);
      var kept := Removed(front, tid);
      forall i | 0 <= i < |kept| ensures kept[i].row.tournamentId != last.row.tournamentId {
        assert kept[i] in kept;
      }
    }
  }

  lemma NextKeeps(table: Table, c: Change, now: nat, lower: string -> string)
    requires TableOk(table)
    ensures TableOk(Next(table, c, now, lower))
  {
    match c
    case Add(providerId, provider, entry) =>
      if provider.Some? && entry.Some? {
        ToRowIsOk(entry.value, providerId, provider.value, lower);
        UpsertKeeps(table, ToRow(entry.value, providerId, provider.value, lower), now);
      }
    case Remove(providerId, tid) => RemovedHolds(table, tid);
    case Modify(providerId, provider, tid, updates) =>
      if RowAt(table, tid).Some? {
        var entry := UpdatedEntry(FromRow(RowAt(table, tid).value), providerId, updates, lower);
        ToRowIsOk(entry, providerId, provider.GetOr(None), lower);
        UpsertKeeps(table, ToRow(entry, providerId, provider.GetOr(None), lower), now);
      }
  }

  /** Over every run of saves, removals and partial updates: one row a tournament, each one that round-trips. */
  lemma {:induction false} RunKeeps(table: Table, changes: seq<Change>, now: nat, lower: string -> string)
    requires TableOk(table)
    ensures TableOk(Run(table, changes, now, lower))
    decreases |changes|
  {
    if |changes| > 0 {
      NextKeeps(table, changes[0], now, lower);
      RunKeeps(Next(table, changes[0], now, lower), changes[1..], now + 1, lower);
    }
  }

  /** An upsert writes, and moves the stamp, exactly when it changes the row. */
  lemma UnchangedRowIsLeftAlone(table: Table, row: Row, now: nat)
    requires forall i :: 0 <= i < |table| ==> table[i].rowUpdatedAt < now
    ensures Upserted(table, row, now) == table <==> RowAt(table, row.tournamentId) == Some(row)
  {
    var i := Find(table, row.tournamentId);
    if i.Some? && table[i.value].row != row {
      assert Upserted(table, row, now)[i.value].rowUpdatedAt == now;
    } else if i.None? {
      assert |Upserted(table, row, now)| == |table| + 1;
    }
  }

  lemma NothingUpdated(entry: Entry, providerId: string, lower: string -> string)
    ensures UpdatedEntry(entry, providerId, map[], lower) == entry.(providerId := Some(providerId))
  {
    assert Updated(entry.tournament, map[]) == entry.tournament;
  }

  /** An update of nothing, under the same provider, leaves the table exactly as it is. */
  lemma ModifyNothingIsNoOp(table: Table, providerId: string, abbr: Option<string>, tid: string, now: nat, lower: string -> string)
    requires TableOk(table) && RowAt(table, tid).Some?
    requires RowAt(table, tid).value.providerId == providerId && RowAt(table, tid).value.providerAbbr == abbr
    ensures Modified(table, providerId, Some(abbr), tid, map[], now, lower) == (table, Success)
  {
    var row := RowAt(table, tid).value;
    NothingUpdated(FromRow(row), providerId, lower);
    RowRoundTripIffProduced(row, lower);
    assert FromRow(row).(providerId := Some(providerId)) == FromRow(row);
  }

  /** Why nothing is written, and when something is. */
  lemma CalendarAnswers(table: Table, providerId: string, provider: Option<Option<string>>, entry: Option<Entry>, tid: string,
                        updates: map<string, Option<Value>>, now: nat, lower: string -> string)
    ensures var (after, answer) := AddedOrUpdated(table, providerId, provider, entry, now, lower);
            && (answer == ProviderNotFound <==> provider.None?) && (answer == Success <==> provider.Some?)
            && (provider.None? || entry.None? || entry.value.tournamentId.GetOr("") == "" ==> after == table)
    ensures var (after, answer) := Modified(table, providerId, provider, tid, updates, now, lower);
            && (answer == TournamentNotFound <==> forall s :: s in table ==> s.row.tournamentId != tid)
            && (answer == TournamentNotFound ==> after == table) && (answer != TournamentNotFound ==> answer == Success)
  {
    if RowAt(table, tid).Some? {
      assert table[Find(table, tid).value] in table;
    }
  }

  /** A changed row is written with the present stamp, a new one at the end; the others stay in place. */
  lemma UpsertStamps(table: Table, row: Row, now: nat)
    requires OneEach(table)
    ensures var after := Upserted(table, row, now);
            && |table| <= |after| <= |table| + 1
            && (forall i :: 0 <= i < |table| && table[i].row.tournamentId != row.tournamentId ==> after[i] == table[i])
            && (forall i :: 0 <= i < |table| && table[i].row.tournamentId == row.tournamentId ==>
                  |after| == |table| && after[i] == if table[i].row == row then table[i] else Stored(row, now))
            && (|after| > |table| ==> after[|table|] == Stored(row, now))
            && ((forall i :: 0 <= i < |table| ==> table[i].row.tournamentId != row.tournamentId) ==> |after| == |table| + 1)
  {
    FindUnique(table, row.tournamentId);
  }

  /** The search text follows a new name, and stays without one. */
  lemma SearchTextFollowsName(entry: Entry, providerId: string, updates: map<string, Option<Value>>, lower: string -> string)
    ensures var named := "tournamentName" in updates && updates["tournamentName"].Some? && updates["tournamentName"].value.String?;
            var text := UpdatedEntry(entry, providerId, updates, lower).searchText;
            && (named && lower(updates["tournamentName"].value.s) != "" ==> text == Some(lower(updates["tournamentName"].value.s)))
            && ("tournamentName" !in updates || updates["tournamentName"].None? ==> text == entry.searchText)
  {
  }

  /** A field read from a stored row is kept as it is. */
  lemma StoredFieldIsNormal(row: Row, key: string)
    requires RowOk(row)
    ensures key != "tournamentId" ==> NormalValue(key, FieldOf(TournamentOf(row), key)) == FieldOf(TournamentOf(row), key)
    ensures FieldOf(TournamentOf(row), "tournamentId") == Some(String(row.tournamentId))
  {
    PlacesByName();
    OwnFields(row);
    NormalDateIff(AsString(row.startDate));
    NormalDateIff(AsString(row.endDate));
    if !PlaceOf(key).Own? {
      OtherFields(row, key);
    }
  }

  /**
   A partial update sets exactly the fields it names, as the columns keep them, and never the id; every other field, the
   creator and the published flag stay.
   */
  lemma ModifyAppliesUpdates(table: Table, providerId: string, provider: Option<Option<string>>, tid: string,
                             updates: map<string, Option<Value>>, now: nat, lower: string -> string, key: string)
    requires TableOk(table) && RowAt(table, tid).Some?
    ensures var (after, answer) := Modified(table, providerId, provider, tid, updates, now, lower);
            var was := FromRow(RowAt(table, tid).value);
            && answer == Success && RowAt(after, tid).Some?
            && var entry := FromRow(RowAt(after, tid).value);
               && entry.providerId == Some(providerId) && entry.createdByUserId == was.createdByUserId && entry.published == was.published
               && FieldOf(entry.tournament, key) ==
                  if key in updates && key != "tournamentId" then NormalValue(key, updates[key]) else FieldOf(was.tournament, key)
  {
    var row := RowAt(table, tid).value;
    var entry := UpdatedEntry(FromRow(row), providerId, updates, lower);
    var abbr := provider.GetOr(None);
    ToRowIsOk(entry, providerId, abbr, lower);
    UpsertKeeps(table, ToRow(entry, providerId, abbr, lower), now);
    FieldComesBack(entry, providerId, abbr, lower, key);
    StoredFieldIsNormal(row, key);
    UpdatedField(TournamentOf(row), updates, key);
  }

  lemma UpdatedField(tournament: Fields, updates: map<string, Option<Value>>, key: string)
    ensures FieldOf(Updated(tournament, updates), key) == if key in updates then updates[key] else FieldOf(tournament, key)
  {
  }

  /** A save puts the tournament into its provider's calendar and no other, wherever it was, and reads back as its entry. */
  lemma SaveMovesCalendar(table: Table, providerId: string, abbr: Option<string>, entry: Entry, now: nat, lower: string -> string)
    requires TableOk(table) && entry.tournamentId.Some? && entry.tournamentId.value != ""
    ensures var (after, answer) := AddedOrUpdated(table, providerId, Some(abbr), Some(entry), now, lower);
            var tid := entry.tournamentId.value;
            && answer == Success && RowAt(after, tid) == Some(ToRow(entry, providerId, abbr, lower))
            && (forall i :: 0 <= i < |after| && after[i].row.tournamentId == tid ==> after[i].row.providerId == providerId)
            && (Normal(entry, providerId) ==> FromRow(RowAt(after, tid).value) == entry)
            && (forall other :: other != tid ==> RowAt(after, other) == RowAt(table, other))
  {
    var row := ToRow(entry, providerId, abbr, lower);
    ToRowIsOk(entry, providerId, abbr, lower);
    UpsertKeeps(table, row, now);
    FindUnique(Upserted(table, row, now), row.tournamentId);
    EntryRoundTripIffNormal(entry, providerId, abbr, lower);
  }

  /** A removal takes out exactly this provider's row of the tournament; another provider's stays. */
  lemma RemovesOnlyItsOwn(table: Table, providerId: string, tid: string)
    requires TableOk(table)
    ensures var (after, answer) := RemovedFrom(table, providerId, tid);
            && (answer == NotInThisCalendar <==> RowAt(table, tid).Some? && RowAt(table, tid).value.providerId != providerId)
            && (answer == NotInThisCalendar ==> after == table)
            && (answer == Success <==> RowAt(table, tid).None? || RowAt(table, tid).value.providerId == providerId)
            && (answer == Success ==> (forall s :: s in after <==> s in table && s.row.tournamentId != tid) && RowAt(after, tid).None?)
  {
    RemovedHolds(table, tid);
    var after := RemovedFrom(table, providerId, tid).0;
    if Find(after, tid).Some? {
      assert after[Find(after, tid).value] in after;
    }
    if RowAt(table, tid).None? {
      forall s | s in table ensures s.row.tournamentId != tid {
      }
    }
  }
}
