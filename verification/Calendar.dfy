/** The `calendar_tournaments` table: upserts, removals, partial updates, and scoped, paged reads. */
module Calendar {
  import opened Options
  import opened Ordering
  import opened Json
  import opened CalendarRow

  const PROVISIONER_ACTOR_PREFIX := "provisioner:"

  datatype Stored = Stored(row: Row, rowUpdatedAt: nat)

  type Table = seq<Stored>

  // ---------------------------------------------------------------- one row

  function Find(table: Table, tid: string): (i: Option<nat>)
    ensures i.Some? ==> i.value < |table| && table[i.value].row.tournamentId == tid
    ensures i.None? ==> forall j :: 0 <= j < |table| ==> table[j].row.tournamentId != tid
  {
    if |table| == 0 then None
    else if table[|table| - 1].row.tournamentId == tid then Some(|table| - 1)
    else Find(table[..|table| - 1], tid)
  }

  function RowAt(table: Table, tid: string): Option<Row> {
    if Find(table, tid).Some? then Some(table[Find(table, tid).value].row) else None
  }

  /** `INSERT … ON CONFLICT DO UPDATE … WHERE … IS DISTINCT FROM …`. */
  function Upserted(table: Table, row: Row, now: nat): Table {
    var i := Find(table, row.tournamentId);
    if i.None? then table + [Stored(row, now)]
    else if table[i.value].row == row then table
    else table[i.value := Stored(row, now)]
  }

  function Removed(table: Table, tid: string): Table {
    if |table| == 0 then []
    else if table[|table| - 1].row.tournamentId == tid then Removed(table[..|table| - 1], tid)
    else Removed(table[..|table| - 1], tid) + [table[|table| - 1]]
  }

  /** The result of spreading `updates` over a tournament; an undefined value takes the field away. */
  function Updated(tournament: Fields, updates: map<string, Option<Value>>): Fields {
    map key | key in tournament.Keys + updates.Keys && (key in updates ==> updates[key].Some?) ::
      if key in updates then updates[key].value else tournament[key]
  }

  function UpdatedEntry(existing: Entry, providerId: string, updates: map<string, Option<Value>>, lower: string -> string): Entry {
    var name := if "tournamentName" in updates && updates["tournamentName"].Some? then lower(TextOf(updates["tournamentName"])) else "";
    existing.(searchText := if name != "" then Some(name) else existing.searchText, providerId := Some(providerId),
              tournament := Updated(existing.tournament, updates))
  }

  datatype Answer = Success | ProviderNotFound | NotInThisCalendar | TournamentNotFound

  /** `provider` is the provider's abbreviation, if there is such a provider. */
  function AddedOrUpdated(table: Table, providerId: string, provider: Option<Option<string>>, entry: Option<Entry>, now: nat,
                          lower: string -> string): (Table, Answer) {
    if provider.None? then (table, ProviderNotFound)
    else if entry.None? || entry.value.tournamentId.GetOr("") == "" then (table, Success)
    else (Upserted(table, ToRow(entry.value, providerId, provider.value, lower), now), Success)
  }

  function RemovedFrom(table: Table, providerId: string, tid: string): (Table, Answer) {
    match RowAt(table, tid)
    case None => (table, Success)
    case Some(row) => if row.providerId != providerId then (table, NotInThisCalendar) else (Removed(table, tid), Success)
  }

  function Modified(table: Table, providerId: string, provider: Option<Option<string>>, tid: string,
                    updates: map<string, Option<Value>>, now: nat, lower: string -> string): (Table, Answer) {
    match RowAt(table, tid)
    case None => (table, TournamentNotFound)
    case Some(row) =>
      (Upserted(table, ToRow(UpdatedEntry(FromRow(row), providerId, updates, lower), providerId, provider.GetOr(None), lower), now), Success)
  }

  // ---------------------------------------------------------------- scope

  datatype Scope = Scope(
    unrestricted: bool, fullAccessProviderIds: seq<string>, directorProviderIds: seq<string>, userId: string,
    assignedTournamentIds: seq<string>)

  datatype Query = Query(providerIds: seq<string>, scope: Scope, publishedOnly: bool, limit: nat, offset: nat)

  /** Who may see a row, stated directly. */
  predicate Visible(scope: Scope, row: Row) {
    || scope.unrestricted
    || row.providerId in scope.fullAccessProviderIds
    || (row.providerId in scope.directorProviderIds
        && ((scope.userId != "" && row.createdByUserId == Some(scope.userId))
            || row.tournamentId in scope.assignedTournamentIds
            || (row.createdByUserId.Some? && PROVISIONER_ACTOR_PREFIX <= row.createdByUserId.value)))
  }

  predicate Admits(q: Query, row: Row) {
    row.providerId in q.providerIds && Visible(q.scope, row) && (q.publishedOnly ==> row.published)
  }

  // ---------------------------------------------------------------- the WHERE clause

  datatype Column = ProviderIdColumn | CreatedByColumn | TournamentIdColumn

  datatype Param = Ids(ids: seq<string>) | Text(text: string)

  /** SQL text by its parse; `$n` is the parameter at `n - 1`. */
  datatype Sql =
    | EqualsAny(column: Column, n: nat)
    | Equals(column: Column, n: nat)
    | Like(column: Column, n: nat)
    | PublishedFlag
    | FalseLiteral
    | And(left: Sql, right: Sql)
    | Or(left: Sql, right: Sql)

  function ColumnOf(row: Row, column: Column): Option<string> {
    match column
    case ProviderIdColumn => Some(row.providerId)
    case CreatedByColumn => row.createdByUserId
    case TournamentIdColumn => Some(row.tournamentId)
  }

  /** LIKE: `%` stands for any text, `_` for any character. */
  predicate Matches(s: string, pattern: string)
    decreases |s| + |pattern|
  {
    if |pattern| == 0 then |s| == 0
    else if pattern[0] == '%' then Matches(s, pattern[1..]) || (|s| > 0 && Matches(s[1..], pattern))
    else |s| > 0 && (pattern[0] == '_' || pattern[0] == s[0]) && Matches(s[1..], pattern[1..])
  }

  /** A NULL column satisfies no comparison. */
  predicate Holds(sql: Sql, params: seq<Param>, row: Row) {
    match sql
    case EqualsAny(column, n) =>
      0 < n <= |params| && params[n - 1].Ids? && ColumnOf(row, column).Some? && ColumnOf(row, column).value in params[n - 1].ids
    case Equals(column, n) => 0 < n <= |params| && params[n - 1].Text? && ColumnOf(row, column) == Some(params[n - 1].text)
    case Like(column, n) =>
      0 < n <= |params| && params[n - 1].Text? && ColumnOf(row, column).Some? && Matches(ColumnOf(row, column).value, params[n - 1].text)
    case PublishedFlag => row.published
    case FalseLiteral => false
    case And(left, right) => Holds(left, params, row) && Holds(right, params, row)
    case Or(left, right) => Holds(left, params, row) || Holds(right, params, row)
  }

  /** `clauses.join(' AND ')` and `rungs.join(' OR ')`. */
  function AllOf(clauses: seq<Sql>): Sql
    requires |clauses| > 0
  {
    if |clauses| == 1 then clauses[0] else And(AllOf(clauses[..|clauses| - 1]), clauses[|clauses| - 1])
  }

  function AnyOf(rungs: seq<Sql>): Sql {
    if |rungs| == 0 then FalseLiteral
    else if |rungs| == 1 then rungs[0]
    else Or(AnyOf(rungs[..|rungs| - 1]), rungs[|rungs| - 1])
  }

  /** Every placeholder is bound. */
  predicate Bound(sql: Sql, count: nat) {
    match sql
    case EqualsAny(_, n) => 0 < n <= count
    case Equals(_, n) => 0 < n <= count
    case Like(_, n) => 0 < n <= count
    case And(left, right) => Bound(left, count) && Bound(right, count)
    case Or(left, right) => Bound(left, count) && Bound(right, count)
    case _ => true
  }

  lemma {:induction false} LikePrefix(s: string, prefix: string)
    requires forall i :: 0 <= i < |prefix| ==> prefix[i] != '%' && prefix[i] != '_'
    ensures Matches(s, prefix + "%") <==> prefix <= s
    decreases |prefix|
  {
    var pattern := prefix + "%";
    if |prefix| == 0 {
      assert pattern == "%";
      AnyText(s);
    } else {
      assert pattern[0] == prefix[0] && pattern[1..] == prefix[1..] + "%";
      if |s| > 0 {
        LikePrefix(s[1..], prefix[1..]);
        assert prefix == [prefix[0]] + prefix[1..] && s == [s[0]] + s[1..];
      }
    }
  }

  lemma {:induction false} AnyText(s: string)
    ensures Matches(s, "%")
  {
    if |s| > 0 {
      AnyText(s[1..]);
    } else {
      assert Matches(s, "%"[1..]);
    }
  }

  lemma {:induction false} MoreParams(sql: Sql, params: seq<Param>, more: seq<Param>, row: Row)
    requires Bound(sql, |params|)
    ensures Bound(sql, |params + more|) && Holds(sql, params + more, row) == Holds(sql, params, row)
  {
    match sql
    case And(left, right) =>
      MoreParams(left, params, more, row);
      MoreParams(right, params, more, row);
    case Or(left, right) =>
      MoreParams(left, params, more, row);
      MoreParams(right, params, more, row);
    case _ =>
  }

  /** A list of rungs says of every row what `meaning` says. */
  ghost predicate Says(sql: Sql, params: seq<Param>, meaning: Row -> bool) {
    Bound(sql, |params|) && forall row :: Holds(sql, params, row) == meaning(row)
  }

  lemma SaysStill(sql: Sql, params: seq<Param>, more: seq<Param>, meaning: Row -> bool)
    requires Says(sql, params, meaning)
    ensures Says(sql, params + more, meaning)
  {
    forall row ensures Bound(sql, |params + more|) && Holds(sql, params + more, row) == meaning(row) {
      MoreParams(sql, params, more, row);
    }
    assert Bound(sql, |params + more|) by {
      var row: Row :| true;
      MoreParams(sql, params, more, row);
    }
  }

  lemma AnyOfMore(rungs: seq<Sql>, rung: Sql, params: seq<Param>, a: Row -> bool, b: Row -> bool)
    requires Says(AnyOf(rungs), params, a) && Says(rung, params, b)
    ensures Says(AnyOf(rungs + [rung]), params, (row: Row) => a(row) || b(row))
  {
    assert (rungs + [rung])[..|rungs|] == rungs;
  }

  function OwnedBy(scope: Scope): Row -> bool {
    (row: Row) => scope.userId != "" && row.createdByUserId == Some(scope.userId)
  }

  function AssignedIn(scope: Scope): Row -> bool {
    (row: Row) => row.tournamentId in scope.assignedTournamentIds
  }

  function ByProvisioner(): Row -> bool {
    (row: Row) => row.createdByUserId.Some? && PROVISIONER_ACTOR_PREFIX <= row.createdByUserId.value
  }

  /** The ownership rungs of a director. */
  method OwnershipRungs(scope: Scope, bound: seq<Param>) returns (ownership: seq<Sql>, params: seq<Param>)
    ensures bound <= params
    ensures Says(AnyOf(ownership), params, (row: Row) => OwnedBy(scope)(row) || AssignedIn(scope)(row) || ByProvisioner()(row))
  {
    params, ownership := bound, [];
    ghost var meaning: Row -> bool := (row: Row) => false;
    assert Says(AnyOf(ownership), params, meaning);
    if scope.userId != "" {
      ghost var before := params;
      params := params + [Text(scope.userId)];
      SaysStill(AnyOf(ownership), before, [Text(scope.userId)], meaning);
      assert Says(Equals(CreatedByColumn, |params|), params, OwnedBy(scope));
      AnyOfMore(ownership, Equals(CreatedByColumn, |params|), params, meaning, OwnedBy(scope));
      ownership := ownership + [Equals(CreatedByColumn, |params|)];
    }
    assert Says(AnyOf(ownership), params, OwnedBy(scope));
    if |scope.assignedTournamentIds| > 0 {
      ghost var before := params;
      params := params + [Ids(scope.assignedTournamentIds)];
      SaysStill(AnyOf(ownership), before, [Ids(scope.assignedTournamentIds)], OwnedBy(scope));
      assert Says(EqualsAny(TournamentIdColumn, |params|), params, AssignedIn(scope));
      AnyOfMore(ownership, EqualsAny(TournamentIdColumn, |params|), params, OwnedBy(scope), AssignedIn(scope));
      ownership := ownership + [EqualsAny(TournamentIdColumn, |params|)];
    }
    ghost var so: Row -> bool := (row: Row) => OwnedBy(scope)(row) || AssignedIn(scope)(row);
    assert Says(AnyOf(ownership), params, so);
    ghost var before := params;
    params := params + [Text(PROVISIONER_ACTOR_PREFIX + "%")];
    SaysStill(AnyOf(ownership), before, [Text(PROVISIONER_ACTOR_PREFIX + "%")], so);
    LikeSays(params);
    AnyOfMore(ownership, Like(CreatedByColumn, |params|), params, so, ByProvisioner());
    ownership := ownership + [Like(CreatedByColumn, |params|)];
  }

  lemma LikeSays(params: seq<Param>)
    requires |params| > 0 && params[|params| - 1] == Text(PROVISIONER_ACTOR_PREFIX + "%")
    ensures Says(Like(CreatedByColumn, |params|), params, ByProvisioner())
  {
    forall row: Row | row.createdByUserId.Some?
      ensures Matches(row.createdByUserId.value, PROVISIONER_ACTOR_PREFIX + "%") <==> PROVISIONER_ACTOR_PREFIX <= row.createdByUserId.value
    {
      LikePrefix(row.createdByUserId.value, PROVISIONER_ACTOR_PREFIX);
    }
  }

  function InFull(scope: Scope): Row -> bool {
    (row: Row) => row.providerId in scope.fullAccessProviderIds
  }

  function Directed(scope: Scope): Row -> bool {
    (row: Row) => row.providerId in scope.directorProviderIds
           && (OwnedBy(scope)(row) || AssignedIn(scope)(row) || ByProvisioner()(row))
  }

  lemma VisibleByRungs(scope: Scope, row: Row)
    ensures Visible(scope, row) <==> scope.unrestricted || InFull(scope)(row) || Directed(scope)(row)
  {
    assert OwnedBy(scope)(row) <==> scope.userId != "" && row.createdByUserId == Some(scope.userId);
    assert AssignedIn(scope)(row) <==> row.tournamentId in scope.assignedTournamentIds;
    assert InFull(scope)(row) <==> row.providerId in scope.fullAccessProviderIds;
  }

  method VisibilityRungs(scope: Scope, bound: seq<Param>) returns (visibility: seq<Sql>, params: seq<Param>)
    ensures bound <= params
    ensures Says(AnyOf(visibility), params, (row: Row) => InFull(scope)(row) || Directed(scope)(row))
  {
    params, visibility := bound, [];
    ghost var meaning: Row -> bool := (row: Row) => false;
    assert Says(AnyOf(visibility), params, meaning);
    if |scope.fullAccessProviderIds| > 0 {
      ghost var before := params;
      params := params + [Ids(scope.fullAccessProviderIds)];
      SaysStill(AnyOf(visibility), before, [Ids(scope.fullAccessProviderIds)], meaning);
      assert Says(EqualsAny(ProviderIdColumn, |params|), params, InFull(scope));
      AnyOfMore(visibility, EqualsAny(ProviderIdColumn, |params|), params, meaning, InFull(scope));
      visibility := visibility + [EqualsAny(ProviderIdColumn, |params|)];
    }
    assert Says(AnyOf(visibility), params, InFull(scope));
    if |scope.directorProviderIds| > 0 {
      ghost var before := params;
      params := params + [Ids(scope.directorProviderIds)];
      var directorProviders := EqualsAny(ProviderIdColumn, |params|);
      ghost var inDirected: Row -> bool := (row: Row) => row.providerId in scope.directorProviderIds;
      assert Says(directorProviders, params, inDirected);
      ghost var withDirectors := params;
      var ownership;
      ownership, params := OwnershipRungs(scope, params);
      assert params == withDirectors + params[|withDirectors|..];
      SaysStill(directorProviders, withDirectors, params[|withDirectors|..], inDirected);
      assert params == before + params[|before|..];
      SaysStill(AnyOf(visibility), before, params[|before|..], InFull(scope));
      var rung := And(directorProviders, AnyOf(ownership));
      assert Says(rung, params, Directed(scope));
      AnyOfMore(visibility, rung, params, InFull(scope), Directed(scope));
      visibility := visibility + [rung];
    }
  }

  method BuildWhere(q: Query) returns (where: Sql, params: seq<Param>)
    ensures Bound(where, |params|)
    ensures forall row :: Holds(where, params, row) <==> Admits(q, row)
  {
    var clauses := [EqualsAny(ProviderIdColumn, 1)];
    params := [Ids(q.providerIds)];
    ghost var targeted: Row -> bool := (row: Row) => row.providerId in q.providerIds;
    assert Says(AllOf(clauses), params, targeted);
    if !q.scope.unrestricted {
      ghost var before := params;
      var visibility;
      visibility, params := VisibilityRungs(q.scope, params);
      assert params == before + params[|before|..];
      SaysStill(AllOf(clauses), before, params[|before|..], targeted);
      clauses := clauses + [AnyOf(visibility)];
    }
    ghost var seen: Row -> bool := (row: Row) => row.providerId in q.providerIds && Visible(q.scope, row);
    forall row ensures Visible(q.scope, row) <==> q.scope.unrestricted || InFull(q.scope)(row) || Directed(q.scope)(row) {
      VisibleByRungs(q.scope, row);
    }
    assert Says(AllOf(clauses), params, seen);
    if q.publishedOnly {
      ghost var published: Row -> bool := (row: Row) => row.published;
      assert Says(PublishedFlag, params, published);
      clauses := clauses + [PublishedFlag];
    }
    where := AllOf(clauses);
  }

  // ---------------------------------------------------------------- reads

  /** `ORDER BY start_date DESC NULLS LAST, tournament_id`. Calendar days compare as text. */
  predicate Before(a: Row, b: Row) {
    if a.startDate == b.startDate then Less(a.tournamentId, b.tournamentId)
    else a.startDate.Some? && (b.startDate.None? || Less(b.startDate.value, a.startDate.value))
  }

  function InsertRow(row: Row, rows: seq<Row>): seq<Row> {
    if |rows| == 0 || Before(row, rows[0]) then [row] + rows else [rows[0]] + InsertRow(row, rows[1..])
  }

  function SortRows(rows: seq<Row>): seq<Row> {
    if |rows| == 0 then [] else InsertRow(rows[|rows| - 1], SortRows(rows[..|rows| - 1]))
  }

  function Admitted(table: Table, q: Query): seq<Row> {
    if |table| == 0 then []
    else
      var front, last := Admitted(table[..|table| - 1], q), table[|table| - 1].row;
      if Admits(q, last) then front + [last] else front
  }

  /** `LIMIT` and `OFFSET`. */
  function Window<T>(rows: seq<T>, limit: nat, offset: nat): seq<T> {
    if offset >= |rows| then [] else if offset + limit >= |rows| then rows[offset..] else rows[offset..offset + limit]
  }

  function CountOf(rows: seq<Row>, providerId: string): nat {
    if |rows| == 0 then 0
    else CountOf(rows[..|rows| - 1], providerId) + if rows[|rows| - 1].providerId == providerId then 1 else 0
  }

  /** `SELECT provider_id, COUNT(*) … GROUP BY provider_id`: each provider that has rows once, with their number. */
  predicate GroupsOf(groups: seq<(string, nat)>, rows: seq<Row>) {
    && (forall i, j :: 0 <= i < j < |groups| ==> groups[i].0 != groups[j].0)
    && (forall i :: 0 <= i < |groups| ==> groups[i].1 == CountOf(rows, groups[i].0) > 0)
    && (forall i :: 0 <= i < |rows| ==> exists j :: 0 <= j < |groups| && groups[j].0 == rows[i].providerId)
  }

  datatype QueryResult = QueryResult(rows: seq<Entry>, total: nat, totalsByProvider: map<string, nat>)

  function Entries(rows: seq<Row>): (entries: seq<Entry>)
    ensures |entries| == |rows| && forall i :: 0 <= i < |rows| ==> entries[i] == FromRow(rows[i])
  {
    seq(|rows|, i requires 0 <= i < |rows| => FromRow(rows[i]))
  }

  class CalendarStorage {
    var table: Table
    var clock: nat

    constructor ()
      ensures table == []
    {
      table, clock := [], 0;
    }

    method UpsertTournament(row: Row)
      modifies this
      ensures table == Upserted(old(table), row, clock) && clock > old(clock)
    {
      clock := clock + 1;
      var i := Find(table, row.tournamentId);
      if i.None? {
        table := table + [Stored(row, clock)];
      } else if table[i.value].row != row {
        table := table[i.value := Stored(row, clock)];
      }
    }

    method RemoveTournament(tournamentId: string)
      modifies this`table
      ensures table == Removed(old(table), tournamentId)
    {
      var kept: Table := [];
      for i := 0 to |table|
        invariant kept == Removed(table[..i], tournamentId) && table == old(table)
      {
        assert table[..i + 1][..i] == table[..i];
        if table[i].row.tournamentId != tournamentId {
          kept := kept + [table[i]];
        }
      }
      assert table[..|table|] == table;
      table := kept;
    }

    method GetTournament(tournamentId: string) returns (entry: Option<Entry>)
      ensures entry == if RowAt(table, tournamentId).Some? then Some(FromRow(RowAt(table, tournamentId).value)) else None
    {
      var i := Find(table, tournamentId);
      if i.None? {
        return None;
      }
      return Some(FromRow(table[i.value].row));
    }

    /** `getCalendarEntry` answers `entry`, or nothing when the record is not listable. */
    method AddToOrUpdateCalendar(providerId: string, provider: Option<Option<string>>, entry: Option<Entry>, lower: string -> string)
      returns (answer: Answer)
      modifies this
      ensures (table, answer) == AddedOrUpdated(old(table), providerId, provider, entry, clock, lower)
    {
      if provider.None? {
        return ProviderNotFound;
      }
      if entry.None? || entry.value.tournamentId.GetOr("") == "" {
        return Success;
      }
      var row := BuildRow(entry.value, providerId, provider.value, lower);
      UpsertTournament(row);
      return Success;
    }

    method RemoveFromCalendar(providerId: string, tournamentId: string) returns (answer: Answer)
      modifies this`table
      ensures (table, answer) == RemovedFrom(old(table), providerId, tournamentId)
    {
      var existing := GetTournament(tournamentId);
      if existing.None? {
        return Success;
      }
      if existing.value.providerId != Some(providerId) {
        return NotInThisCalendar;
      }
      RemoveTournament(tournamentId);
      return Success;
    }

    method ModifyProviderCalendar(providerId: string, provider: Option<Option<string>>, tournamentId: string,
                                  updates: map<string, Option<Value>>, lower: string -> string) returns (answer: Answer)
      modifies this
      ensures (table, answer) == Modified(old(table), providerId, provider, tournamentId, updates, clock, lower)
    {
      var existing := GetTournament(tournamentId);
      if existing.None? {
        return TournamentNotFound;
      }
      var row := BuildRow(UpdatedEntry(existing.value, providerId, updates, lower), providerId, provider.GetOr(None), lower);
      UpsertTournament(row);
      return Success;
    }

    /** The rows the WHERE clause selects, as the database evaluates it. */
    method Select(where: Sql, params: seq<Param>, ghost q: Query) returns (rows: seq<Row>)
      requires forall row :: Holds(where, params, row) <==> Admits(q, row)
      ensures rows == Admitted(table, q)
    {
      rows := [];
      for i := 0 to |table|
        invariant rows == Admitted(table[..i], q)
      {
        assert table[..i + 1][..i] == table[..i];
        if Holds(where, params, table[i].row) {
          rows := rows + [table[i].row];
        }
      }
      assert table[..|table|] == table;
    }

    /** `groups` is what the grouped count returns. */
    method QueryTournaments(q: Query, groups: seq<(string, nat)>) returns (result: QueryResult)
      requires GroupsOf(groups, Admitted(table, q))
      ensures q.providerIds == [] ==> result == QueryResult([], 0, map[])
      ensures result.rows == Entries(Window(SortRows(Admitted(table, q)), q.limit, q.offset))
      ensures result.total == |Admitted(table, q)|
      ensures forall p :: CountOf(Admitted(table, q), p) == if p in result.totalsByProvider then result.totalsByProvider[p] else 0
    {
      if |q.providerIds| == 0 {
        NoTargets(table, q);
        return QueryResult([], 0, map[]);
      }
      var where, params := BuildWhere(q);
      var selected := Select(where, params, q);
      var totalsByProvider: map<string, nat> := map[];
      var total := 0;
      for i := 0 to |groups|
        invariant Totals(totalsByProvider, groups[..i])
        invariant total == GroupTotal(groups[..i])
      {
        assert groups[..i + 1][..i] == groups[..i];
        OneMoreTotal(totalsByProvider, groups, i, selected);
        totalsByProvider := totalsByProvider[groups[i].0 := groups[i].1];
        total := total + groups[i].1;
      }
      assert groups[..|groups|] == groups;
      GroupsAddUp(groups, selected);
      TotalsCount(totalsByProvider, groups, selected);
      result := QueryResult(Entries(Window(SortRows(selected), q.limit, q.offset)), total, totalsByProvider);
    }
  }

  // ---------------------------------------------------------------- counting

  function GroupTotal(groups: seq<(string, nat)>): nat {
    if |groups| == 0 then 0 else GroupTotal(groups[..|groups| - 1]) + groups[|groups| - 1].1
  }

  /** The map holds each group's count under its provider, and nothing else. */
  predicate Totals(totals: map<string, nat>, groups: seq<(string, nat)>) {
    && (forall p :: p in totals ==> exists j :: 0 <= j < |groups| && groups[j].0 == p)
    && (forall j :: 0 <= j < |groups| ==> groups[j].0 in totals && totals[groups[j].0] == groups[j].1)
  }

  lemma OneMoreTotal(totals: map<string, nat>, groups: seq<(string, nat)>, i: nat, rows: seq<Row>)
    requires i < |groups| && GroupsOf(groups, rows) && Totals(totals, groups[..i])
    ensures Totals(totals[groups[i].0 := groups[i].1], groups[..i + 1])
  {
    var after, more := totals[groups[i].0 := groups[i].1], groups[..i + 1];
    forall p | p in after ensures exists j :: 0 <= j < |more| && more[j].0 == p {
      if p == groups[i].0 {
        assert more[i].0 == p;
      } else {
        var j :| 0 <= j < i && groups[..i][j].0 == p;
        assert more[j].0 == p;
      }
    }
    forall j | 0 <= j < |more| ensures more[j].0 in after && after[more[j].0] == more[j].1 {
      if j < i {
        assert groups[..i][j] == more[j] && groups[j].0 != groups[i].0;
      }
    }
  }

  lemma TotalsCount(totals: map<string, nat>, groups: seq<(string, nat)>, rows: seq<Row>)
    requires GroupsOf(groups, rows) && Totals(totals, groups)
    ensures forall p :: CountOf(rows, p) == if p in totals then totals[p] else 0
  {
    forall p ensures CountOf(rows, p) == if p in totals then totals[p] else 0 {
      CountAbsent(rows, p);
      if p in totals {
        var j :| 0 <= j < |groups| && groups[j].0 == p;
      }
    }
  }

  lemma {:induction false} NoTargets(table: Table, q: Query)
    requires q.providerIds == []
    ensures Admitted(table, q) == []
  {
    if |table| > 0 {
      NoTargets(table[..|table| - 1], q);
    }
  }

  lemma {:induction false} CountAbsent(rows: seq<Row>, p: string)
    ensures CountOf(rows, p) == 0 <==> forall i :: 0 <= i < |rows| ==> rows[i].providerId != p
  {
    if |rows| > 0 {
      CountAbsent(rows[..|rows| - 1], p);
    }
  }

  function Without(rows: seq<Row>, p: string): seq<Row> {
    if |rows| == 0 then []
    else
      var front := Without(rows[..|rows| - 1], p);
      if rows[|rows| - 1].providerId == p then front else front + [rows[|rows| - 1]]
  }

  lemma {:induction false} WithoutCounts(rows: seq<Row>, p: string, other: string)
    ensures |rows| == |Without(rows, p)| + CountOf(rows, p)
    ensures CountOf(Without(rows, p), other) == if other == p then 0 else CountOf(rows, other)
    ensures forall i :: 0 <= i < |Without(rows, p)| ==> Without(rows, p)[i].providerId != p && Without(rows, p)[i] in rows
  {
    if |rows| > 0 {
      var front, last := rows[..|rows| - 1], rows[|rows| - 1];
      assert rows == front + [last];
      WithoutCounts(front, p, other);
      if last.providerId != p {
        assert (Without(front, p) + [last])[..|Without(front, p)|] == Without(front, p);
      }
    }
  }

  /** Without the last group's rows, the other groups still count the rest. */
  lemma GroupsOfRest(groups: seq<(string, nat)>, rows: seq<Row>)
    requires GroupsOf(groups, rows) && |groups| > 0
    ensures GroupsOf(groups[..|groups| - 1], Without(rows, groups[|groups| - 1].0))
  {
    var front, last := groups[..|groups| - 1], groups[|groups| - 1];
    var rest := Without(rows, last.0);
    forall i | 0 <= i < |front| ensures front[i].1 == CountOf(rest, front[i].0) > 0 {
      WithoutCounts(rows, last.0, front[i].0);
      assert groups[i].0 != last.0;
    }
    forall i | 0 <= i < |rest| ensures exists j :: 0 <= j < |front| && front[j].0 == rest[i].providerId {
      WithoutCounts(rows, last.0, last.0);
      var j := OtherGroup(groups, rows, rest[i]);
      assert front[j].0 == rest[i].providerId;
    }
  }

  lemma OtherGroup(groups: seq<(string, nat)>, rows: seq<Row>, row: Row) returns (j: nat)
    requires GroupsOf(groups, rows) && |groups| > 0 && row in rows && row.providerId != groups[|groups| - 1].0
    ensures j < |groups| - 1 && groups[j].0 == row.providerId
  {
    var k :| 0 <= k < |rows| && rows[k] == row;
    j :| 0 <= j < |groups| && groups[j].0 == rows[k].providerId;
  }

  /** The groups' counts add up to the number of rows. */
  lemma {:induction false} GroupsAddUp(groups: seq<(string, nat)>, rows: seq<Row>)
    requires GroupsOf(groups, rows)
    ensures GroupTotal(groups) == |rows|
    decreases |groups|
  {
    assert |rows| > 0 ==> exists j :: 0 <= j < |groups| && groups[j].0 == rows[0].providerId;
    if |groups| > 0 {
      var last := groups[|groups| - 1];
      GroupsOfRest(groups, rows);
      GroupsAddUp(groups[..|groups| - 1], Without(rows, last.0));
      WithoutCounts(rows, last.0, last.0);
    }
  }

  // ---------------------------------------------------------------- regrouping a page

  datatype Group = Group(providerId: string, tournaments: seq<Entry>, total: nat)

  function OfProvider(rows: seq<Entry>, p: string): seq<Entry> {
    if |rows| == 0 then []
    else
      var front := OfProvider(rows[..|rows| - 1], p);
      if rows[|rows| - 1].providerId == Some(p) then front + [rows[|rows| - 1]] else front
  }

  /** Every target provider has its group, with its rows of the page in their order. */
  method GroupByProvider(rows: seq<Entry>, providers: seq<string>, totalsByProvider: map<string, nat>) returns (groups: seq<Group>)
    ensures |groups| == |providers|
    ensures forall i :: 0 <= i < |providers| ==>
              groups[i] == Group(providers[i], OfProvider(rows, providers[i]),
                                 if providers[i] in totalsByProvider then totalsByProvider[providers[i]] else 0)
  {
    var byProviderId: map<Option<string>, seq<Entry>> := map[];
    for i := 0 to |providers|
      invariant forall p :: p in byProviderId <==> exists j :: 0 <= j < i && Some(providers[j]) == p
      invariant forall p :: p in byProviderId ==> byProviderId[p] == []
    {
      byProviderId := byProviderId[Some(providers[i]) := []];
    }
    for i := 0 to |rows|
      invariant forall p :: p in providers ==> Some(p) in byProviderId && byProviderId[Some(p)] == OfProvider(rows[..i], p)
      invariant forall p :: Some(p) in byProviderId ==> byProviderId[Some(p)] == OfProvider(rows[..i], p)
      invariant forall p :: Some(p) !in byProviderId ==> OfProvider(rows[..i], p) == []
    {
      assert rows[..i + 1][..i] == rows[..i];
      var bucket := rows[i].providerId;
      if bucket in byProviderId {
        byProviderId := byProviderId[bucket := byProviderId[bucket] + [rows[i]]];
      } else {
        byProviderId := byProviderId[bucket := [rows[i]]];
      }
    }
    assert rows[..|rows|] == rows;
    groups := [];
    for i := 0 to |providers|
      invariant |groups| == i
      invariant forall j :: 0 <= j < i ==>
                  groups[j] == Group(providers[j], OfProvider(rows, providers[j]),
                                     if providers[j] in totalsByProvider then totalsByProvider[providers[j]] else 0)
    {
      var p := providers[i];
      groups := groups + [Group(p, byProviderId[Some(p)], if p in totalsByProvider then totalsByProvider[p] else 0)];
    }
  }
}
