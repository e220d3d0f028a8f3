/**
 A stored calendar entry and its `calendar_tournaments` row. An object is a finite map, a field or column that is
 undefined or NULL an absent key.
 */
module CalendarRow {
  import opened Options
  import opened Rendering
  import opened Json

  type Fields = map<string, Value>

  datatype Entry = Entry(
    tournamentId: Option<string>, providerId: Option<string>, searchText: Option<string>, createdByUserId: Option<string>,
    published: Option<bool>, tournament: Fields)

  /** `carried` holds the columns that carry one field each as it is. */
  datatype Row = Row(
    tournamentId: string, providerId: string, providerAbbr: Option<string>, searchText: string,
    startDate: Option<string>, endDate: Option<string>, published: bool, eventCount: Option<nat>, offline: Option<Value>,
    createdByUserId: Option<string>, carried: Fields, identity: Fields, remainder: Fields)

  const IDENTITY_FIELDS: seq<string> := [
    "formalName", "promotionalName", "tournamentLevel", "tournamentRank", "tournamentTier", "hostCountryCode",
    "localTimeZone", "activeDates", "updatedAt", "parentOrganisation"]

  const CARRIED_FIELDS: seq<string> := [
    "tournamentName", "tournamentStatus", "tournamentImageURL", "onlineResources", "eventInfo", "venues",
    "registrationProfile", "tournamentContacts", "tournamentAddress", "publishState", "timeItemValues", "notes"]

  const OWN_FIELDS: seq<string> := ["tournamentId", "startDate", "endDate"]

  /** Where a tournament field goes: to a column of its own, to one that carries it, to the identity, or to the remainder. */
  datatype Place = Own | Column | InIdentity | InRemainder

  function PlaceOf(key: string): Place {
    if key in OWN_FIELDS then Own
    else if key in CARRIED_FIELDS then Column
    else if key in IDENTITY_FIELDS then InIdentity
    else InRemainder
  }

  predicate ListedOnce(key: string) {
    !(key in OWN_FIELDS && key in CARRIED_FIELDS) && !(key in OWN_FIELDS && key in IDENTITY_FIELDS)
    && !(key in CARRIED_FIELDS && key in IDENTITY_FIELDS)
  }

  /** The three lists are disjoint. */
  lemma FieldsListedOnce()
    ensures forall key :: ListedOnce(key)
  {
  }

  lemma PlacesByName()
    ensures PlaceOf("tournamentId") == PlaceOf("startDate") == PlaceOf("endDate") == Own
    ensures PlaceOf("eventInfo") == PlaceOf("timeItemValues") == Column
    ensures forall key :: PlaceOf(key).Own? ==> key == "tournamentId" || key == "startDate" || key == "endDate"
    ensures "tournamentId" != "startDate" && "tournamentId" != "endDate" && "startDate" != "endDate"
  {
    FieldsListedOnce();
    assert OWN_FIELDS[0] == "tournamentId" && OWN_FIELDS[1] == "startDate" && OWN_FIELDS[2] == "endDate";
    assert CARRIED_FIELDS[4] == "eventInfo" && CARRIED_FIELDS[10] == "timeItemValues";
    assert ListedOnce("eventInfo") && ListedOnce("timeItemValues");
    assert "tournamentId"[0] == 't' && "startDate"[0] == 's' && "endDate"[0] == 'e';
  }

  // ---------------------------------------------------------------- single columns

  predicate IsDigit(c: char) {
    '0' <= c <= '9'
  }

  /** `^\d{4}-\d{2}-\d{2}$`. */
  predicate IsDay(s: string) {
    && |s| == 10 && IsDigit(s[0]) && IsDigit(s[1]) && IsDigit(s[2]) && IsDigit(s[3]) && s[4] == '-'
    && IsDigit(s[5]) && IsDigit(s[6]) && s[7] == '-' && IsDigit(s[8]) && IsDigit(s[9])
  }

  function FieldOf(fields: Fields, key: string): Option<Value> {
    if key in fields then Some(fields[key]) else None
  }

  function DateOnly(value: Option<Value>): Option<string> {
    if value.Some? && value.value.String? && IsDay(UpTo(value.value.s, 'T')) then Some(UpTo(value.value.s, 'T')) else None
  }

  /** `dateColumnToCalendarDay` on a column read as text. */
  function CalendarDay(column: Option<string>): Option<string> {
    if column.Some? && column.value != "" then Some(UpTo(column.value, 'T')) else None
  }

  function Length(items: Items): nat {
    if items.Nil? then 0 else 1 + Length(items.tail)
  }

  function EventCount(eventInfo: Option<Value>): Option<nat> {
    if eventInfo.Some? && eventInfo.value.Array? then Some(Length(eventInfo.value.items)) else None
  }

  /** `value?.[key] ?? null`. */
  function Property(value: Option<Value>, key: string): Option<Value> {
    if value.Some? && value.value.Object? && key in Keys(value.value.members) && !Lookup(value.value.members, key).Null?
    then Some(Lookup(value.value.members, key)) else None
  }

  function Offline(timeItemValues: Option<Value>): Option<Value> {
    Property(Property(timeItemValues, "TMX"), "offline")
  }

  // ---------------------------------------------------------------- rows

  function Carried(tournament: Fields): Fields {
    map key | key in tournament && PlaceOf(key).Column? && !tournament[key].Null? :: tournament[key]
  }

  function Identity(tournament: Fields): Fields {
    map key | key in tournament && PlaceOf(key).InIdentity? :: tournament[key]
  }

  function Remainder(tournament: Fields): Fields {
    map key | key in tournament && PlaceOf(key).InRemainder? :: tournament[key]
  }

  function TextOf(value: Option<Value>): string {
    if value.Some? && value.value.String? then value.value.s else ""
  }

  function IdOf(entry: Entry): string {
    entry.tournamentId.GetOr(TextOf(FieldOf(entry.tournament, "tournamentId")))
  }

  function ToRow(entry: Entry, providerId: string, providerAbbr: Option<string>, lower: string -> string): Row {
    var t := entry.tournament;
    Row(IdOf(entry), providerId, providerAbbr, entry.searchText.GetOr(lower(TextOf(FieldOf(t, "tournamentName")))),
        DateOnly(FieldOf(t, "startDate")), DateOnly(FieldOf(t, "endDate")), entry.published.GetOr(false),
        EventCount(FieldOf(t, "eventInfo")), Offline(FieldOf(t, "timeItemValues")), entry.createdByUserId,
        Carried(t), Identity(t), Remainder(t))
  }

  /** The remainder first, then the identity, then the columns that are not NULL. */
  function TournamentOf(row: Row): Fields {
    Assembled(row, "tournamentId", "startDate", "endDate")
  }

  function Assembled(row: Row, id: string, start: string, end: string): Fields {
    row.remainder + row.identity + row.carried + map[id := String(row.tournamentId)] + Day(start, row.startDate) + Day(end, row.endDate)
  }

  function Day(key: string, column: Option<string>): Fields {
    if CalendarDay(column).Some? then map[key := String(CalendarDay(column).value)] else map[]
  }

  function FromRow(row: Row): Entry {
    Entry(Some(row.tournamentId), Some(row.providerId), Some(row.searchText), row.createdByUserId, Some(row.published), TournamentOf(row))
  }

  // ---------------------------------------------------------------- the loops that fill them

  method Pick(source: Fields, keys: seq<string>) returns (out: Fields)
    ensures out == map key | key in source && key in keys :: source[key]
  {
    out := map[];
    for i := 0 to |keys|
      invariant out == map key | key in source && key in keys[..i] :: source[key]
    {
      assert forall key :: key in keys[..i + 1] <==> key in keys[..i] || key == keys[i];
      if keys[i] in source {
        out := out[keys[i] := source[keys[i]]];
      }
    }
    assert keys[..|keys|] == keys;
  }

  method Unmapped(tournament: Fields) returns (remainder: Fields)
    ensures remainder == Remainder(tournament)
  {
    remainder := map[];
    var left := tournament.Keys;
    while left != {}
      invariant left <= tournament.Keys
      invariant remainder == map key | key in tournament && key !in left && PlaceOf(key).InRemainder? :: tournament[key]
      decreases |left|
    {
      var key :| key in left;
      if PlaceOf(key).InRemainder? {
        remainder := remainder[key := tournament[key]];
      }
      left := left - {key};
    }
  }

  predicate Defined(value: Option<Value>) {
    value.Some? && !value.value.Null?
  }

  /** The defined values of some of the keys. */
  function DefinedIn(source: map<string, Option<Value>>, keys: set<string>): Fields {
    map key | key in source && key in keys && Defined(source[key]) :: source[key].value
  }

  /** Assign only what is defined. */
  method AssignDefined(target: Fields, source: map<string, Option<Value>>) returns (out: Fields)
    ensures out == target + DefinedIn(source, source.Keys)
  {
    out := target;
    var left := source.Keys;
    ghost var done: set<string> := {};
    while left != {}
      invariant left <= source.Keys && done == source.Keys - left
      invariant out == target + DefinedIn(source, done)
      decreases |left|
    {
      var key :| key in left;
      if Defined(source[key]) {
        out := out[key := source[key].value];
      }
      left := left - {key};
      done := done + {key};
    }
    assert done == source.Keys;
  }

  method BuildRow(entry: Entry, providerId: string, providerAbbr: Option<string>, lower: string -> string) returns (row: Row)
    ensures row == ToRow(entry, providerId, providerAbbr, lower)
  {
    var t := entry.tournament;
    var remainder := Unmapped(t);
    var identity := Pick(t, IDENTITY_FIELDS);
    var columns := Pick(t, CARRIED_FIELDS);
    var carried := map key | key in columns && !columns[key].Null? :: columns[key];
    PickedPlaces(t, identity, columns, carried);
    row := Row(IdOf(entry), providerId, providerAbbr, entry.searchText.GetOr(lower(TextOf(FieldOf(t, "tournamentName")))),
               DateOnly(FieldOf(t, "startDate")), DateOnly(FieldOf(t, "endDate")), entry.published.GetOr(false),
               EventCount(FieldOf(t, "eventInfo")), Offline(FieldOf(t, "timeItemValues")), entry.createdByUserId,
               carried, identity, remainder);
  }

  lemma PickedPlaces(t: Fields, identity: Fields, columns: Fields, carried: Fields)
    requires identity == map key | key in t && key in IDENTITY_FIELDS :: t[key]
    requires columns == map key | key in t && key in CARRIED_FIELDS :: t[key]
    requires carried == map key | key in columns && !columns[key].Null? :: columns[key]
    ensures identity == Identity(t) && carried == Carried(t)
  {
    FieldsListedOnce();
    forall key ensures PlaceOf(key).InIdentity? <==> key in IDENTITY_FIELDS
    ensures PlaceOf(key).Column? <==> key in CARRIED_FIELDS {
      assert ListedOnce(key);
    }
  }

  lemma SameFields(a: Fields, b: Fields)
    requires forall key :: FieldOf(a, key) == FieldOf(b, key)
    ensures a == b
  {
    forall key ensures (key in a <==> key in b) && (key in a ==> a[key] == b[key]) {
      assert FieldOf(a, key) == FieldOf(b, key);
    }
  }

  function AsString(s: Option<string>): Option<Value> {
    if s.Some? then Some(String(s.value)) else None
  }

  method BuildEntry(row: Row) returns (entry: Entry)
    requires forall key :: key in row.carried ==> !row.carried[key].Null?
    ensures entry == FromRow(row)
  {
    PlacesByName();
    var tournament := AssignDefined(row.remainder + row.identity, map key | key in row.carried :: Some(row.carried[key]));
    assert tournament == row.remainder + row.identity + row.carried;
    tournament := AssignOwn(tournament, row, "tournamentId", "startDate", "endDate");
    entry := Entry(Some(row.tournamentId), Some(row.providerId), Some(row.searchText), row.createdByUserId, Some(row.published), tournament);
  }

  function OwnColumns(row: Row, id: string, start: string, end: string): map<string, Option<Value>> {
    map[id := Some(String(row.tournamentId)), start := AsString(CalendarDay(row.startDate)), end := AsString(CalendarDay(row.endDate))]
  }

  method AssignOwn(target: Fields, row: Row, id: string, start: string, end: string) returns (out: Fields)
    requires id != start && id != end && start != end && target == row.remainder + row.identity + row.carried
    ensures out == Assembled(row, id, start, end)
  {
    out := AssignDefined(target, OwnColumns(row, id, start, end));
    forall key ensures FieldOf(out, key) == FieldOf(Assembled(row, id, start, end), key) {
      OwnColumn(row, id, start, end, key);
      AssembledField(row, id, start, end, key);
      AssignedField(target, OwnColumns(row, id, start, end), out, key);
    }
    SameFields(out, Assembled(row, id, start, end));
  }

  lemma OwnColumn(row: Row, id: string, start: string, end: string, key: string)
    requires id != start && id != end && start != end
    ensures var own := OwnColumns(row, id, start, end);
            && (key in own <==> key == id || key == start || key == end)
            && own[id] == Some(String(row.tournamentId)) && own[start] == AsString(CalendarDay(row.startDate))
            && own[end] == AsString(CalendarDay(row.endDate))
  {
  }

  lemma AssignedField(target: Fields, source: map<string, Option<Value>>, out: Fields, key: string)
    requires out == target + DefinedIn(source, source.Keys)
    ensures FieldOf(out, key) == if key in source && Defined(source[key]) then source[key] else FieldOf(target, key)
  {
  }

  // ---------------------------------------------------------------- round trips

  /** Exactly what `toRow` can produce. */
  predicate RowOk(row: Row) {
    && (forall key :: key in row.carried ==> PlaceOf(key).Column? && !row.carried[key].Null?)
    && (forall key :: key in row.identity ==> PlaceOf(key).InIdentity?)
    && (forall key :: key in row.remainder ==> PlaceOf(key).InRemainder?)
    && (row.startDate.Some? ==> IsDay(row.startDate.value)) && (row.endDate.Some? ==> IsDay(row.endDate.value))
    && row.eventCount == EventCount(FieldOf(row.carried, "eventInfo"))
    && row.offline == Offline(FieldOf(row.carried, "timeItemValues"))
  }

  lemma DayStays(s: string)
    requires IsDay(s)
    ensures UpTo(s, 'T') == s && s != ""
  {
    UpToOf(s, "", 'T');
    assert s + "" == s;
  }

  lemma DateOnlyIsDay(value: Option<Value>)
    ensures DateOnly(value).Some? ==> IsDay(DateOnly(value).value)
  {
  }

  /** Whatever the entry, its row is one that round-trips. */
  lemma ToRowIsOk(entry: Entry, providerId: string, providerAbbr: Option<string>, lower: string -> string)
    ensures RowOk(ToRow(entry, providerId, providerAbbr, lower))
  {
    PlacesByName();
    DateOnlyIsDay(FieldOf(entry.tournament, "startDate"));
    DateOnlyIsDay(FieldOf(entry.tournament, "endDate"));
  }

  /** What the columns keep of a field other than the id. */
  function NormalValue(key: string, value: Option<Value>): Option<Value> {
    match PlaceOf(key)
    case Own => AsString(DateOnly(value))
    case Column => if value == Some(Null) then None else value
    case _ => value
  }

  /** A tournament field after the round trip. */
  function NormalField(entry: Entry, key: string): Option<Value> {
    if key == "tournamentId" then Some(String(IdOf(entry))) else NormalValue(key, FieldOf(entry.tournament, key))
  }

  /** Where each field of an assembled tournament comes from. */
  lemma AssembledField(row: Row, id: string, start: string, end: string, key: string)
    requires id != start && id != end && start != end
    ensures FieldOf(Assembled(row, id, start, end), key) ==
            if key == end && CalendarDay(row.endDate).Some? then AsString(CalendarDay(row.endDate))
            else if key == start && CalendarDay(row.startDate).Some? then AsString(CalendarDay(row.startDate))
            else if key == id then Some(String(row.tournamentId))
            else if key in row.carried then Some(row.carried[key])
            else if key in row.identity then Some(row.identity[key])
            else FieldOf(row.remainder, key)
  {
  }

  lemma DayComesBack(column: Option<string>)
    requires column.Some? ==> IsDay(column.value)
    ensures CalendarDay(column) == column
  {
    if column.Some? {
      DayStays(column.value);
    }
  }

  predicate Unowned(row: Row, key: string) {
    key !in row.carried && key !in row.identity && key !in row.remainder
  }

  lemma AssembledOwn(row: Row, id: string, start: string, end: string)
    requires id != start && id != end && start != end && Unowned(row, id) && Unowned(row, start) && Unowned(row, end)
    requires (row.startDate.Some? ==> IsDay(row.startDate.value)) && (row.endDate.Some? ==> IsDay(row.endDate.value))
    ensures FieldOf(Assembled(row, id, start, end), id) == Some(String(row.tournamentId))
    ensures FieldOf(Assembled(row, id, start, end), start) == AsString(row.startDate)
    ensures FieldOf(Assembled(row, id, start, end), end) == AsString(row.endDate)
  {
    DayComesBack(row.startDate);
    DayComesBack(row.endDate);
    AssembledField(row, id, start, end, id);
    AssembledField(row, id, start, end, start);
    AssembledField(row, id, start, end, end);
  }

  /** The columns of their own, read back. */
  lemma OwnFields(row: Row)
    requires RowOk(row)
    ensures FieldOf(TournamentOf(row), "tournamentId") == Some(String(row.tournamentId))
    ensures FieldOf(TournamentOf(row), "startDate") == AsString(row.startDate)
    ensures FieldOf(TournamentOf(row), "endDate") == AsString(row.endDate)
  {
    PlacesByName();
    AssembledOwn(row, "tournamentId", "startDate", "endDate");
  }

  lemma OtherFields(row: Row, key: string)
    requires RowOk(row) && !PlaceOf(key).Own?
    ensures FieldOf(TournamentOf(row), key) ==
            match PlaceOf(key) {
              case Column => FieldOf(row.carried, key)
              case InIdentity => FieldOf(row.identity, key)
              case _ => FieldOf(row.remainder, key)
            }
  {
    PlacesByName();
    AssembledField(row, "tournamentId", "startDate", "endDate", key);
  }

  lemma FieldComesBack(entry: Entry, providerId: string, providerAbbr: Option<string>, lower: string -> string, key: string)
    ensures FieldOf(TournamentOf(ToRow(entry, providerId, providerAbbr, lower)), key) == NormalField(entry, key)
  {
    var row := ToRow(entry, providerId, providerAbbr, lower);
    ToRowIsOk(entry, providerId, providerAbbr, lower);
    PlacesByName();
    if PlaceOf(key).Own? {
      OwnFields(row);
    } else {
      OtherFields(row, key);
    }
  }

  /**
   `fromRow` after `toRow` returns every field of the entry, up to: the provider and the tournament id are the row's, a
   date keeps its calendar day or goes, a carried null goes, and the search text and published flag are filled in.
   */
  lemma EntryRoundTrip(entry: Entry, providerId: string, providerAbbr: Option<string>, lower: string -> string)
    ensures var back := FromRow(ToRow(entry, providerId, providerAbbr, lower));
            && back.tournamentId == Some(IdOf(entry)) && back.providerId == Some(providerId)
            && back.createdByUserId == entry.createdByUserId && back.published == Some(entry.published.GetOr(false))
            && back.searchText == Some(if entry.searchText.Some? then entry.searchText.value
                                       else lower(TextOf(FieldOf(entry.tournament, "tournamentName"))))
            && forall key :: FieldOf(back.tournament, key) == NormalField(entry, key)
  {
    forall key ensures FieldOf(TournamentOf(ToRow(entry, providerId, providerAbbr, lower)), key) == NormalField(entry, key) {
      FieldComesBack(entry, providerId, providerAbbr, lower, key);
    }
  }

  /** Four digits, two and two, with dashes between. */
  lemma DayIff(s: string)
    ensures IsDay(s) <==>
            |s| == 10 && forall i :: 0 <= i < 10 ==> if i == 4 || i == 7 then s[i] == '-' else '0' <= s[i] <= '9'
  {
  }

  /** A timestamp keeps its day, and what is no day keeps nothing. */
  lemma DateKeepsDay(day: string, time: string)
    requires IsDay(day) && (time == "" || time[0] == 'T')
    ensures DateOnly(Some(String(day + time))) == Some(day) && CalendarDay(Some(day)) == Some(day)
    ensures DateOnly(None).None? && forall v: Value :: !v.String? ==> DateOnly(Some(v)).None?
  {
    UpToOf(day, time, 'T');
    UpToOf(day, "", 'T');
    assert day + "" == day;
  }

  function ItemsBefore(n: nat, item: Value, rest: Items): Items {
    if n == 0 then rest else Cons(item, ItemsBefore(n - 1, item, rest))
  }

  /** The event count is the number of events, and the offline flag is the one under `TMX`. */
  lemma {:induction false} DerivedColumns(n: nat, event: Value, flag: Value)
    ensures EventCount(Some(Array(ItemsBefore(n, event, Nil)))) == Some(n)
    ensures !flag.Null? ==> Offline(Some(Object(Member("TMX", Object(Member("offline", flag, Empty)), Empty)))) == Some(flag)
    ensures EventCount(None).None? && Offline(None).None? && Offline(Some(Object(Empty))).None?
  {
    if n > 0 {
      DerivedColumns(n - 1, event, flag);
    }
  }

  /** The id is the entry's, or else the tournament's; the search text the entry's, or else the name in lower case. */
  lemma IdAndSearchText(entry: Entry, name: string, tid: string, providerId: string, abbr: Option<string>, lower: string -> string)
    requires FieldOf(entry.tournament, "tournamentName") == Some(String(name))
    requires FieldOf(entry.tournament, "tournamentId") == Some(String(tid))
    ensures var row := ToRow(entry, providerId, abbr, lower);
            && row.tournamentId == (if entry.tournamentId.Some? then entry.tournamentId.value else tid)
            && row.searchText == (if entry.searchText.Some? then entry.searchText.value else lower(name))
            && row.providerId == providerId && row.providerAbbr == abbr
  {
  }

  predicate NormalDate(value: Option<Value>) {
    value.Some? ==> value.value.String? && IsDay(value.value.s)
  }

  /** The tournament of an entry the round trip leaves as it is. */
  predicate NormalTournament(tournament: Fields, tournamentId: string) {
    && FieldOf(tournament, "tournamentId") == Some(String(tournamentId))
    && NormalDate(FieldOf(tournament, "startDate")) && NormalDate(FieldOf(tournament, "endDate"))
    && (forall key :: key in tournament && PlaceOf(key).Column? ==> !tournament[key].Null?)
  }

  predicate Normal(entry: Entry, providerId: string) {
    && entry.tournamentId.Some? && entry.providerId == Some(providerId) && entry.searchText.Some? && entry.published.Some?
    && NormalTournament(entry.tournament, entry.tournamentId.value)
  }

  lemma NormalDateIff(value: Option<Value>)
    ensures AsString(DateOnly(value)) == value <==> NormalDate(value)
  {
    if value.Some? && value.value.String? && IsDay(value.value.s) {
      DayStays(value.value.s);
    }
  }

  lemma NormalFieldIff(entry: Entry, key: string)
    requires key != "tournamentId"
    ensures NormalField(entry, key) == FieldOf(entry.tournament, key)
       <==> match PlaceOf(key) {
              case Own => NormalDate(FieldOf(entry.tournament, key))
              case Column => FieldOf(entry.tournament, key) != Some(Null)
              case _ => true
            }
  {
    NormalDateIff(FieldOf(entry.tournament, key));
  }

  /** Every field comes back as it was exactly when the tournament is normal. */
  lemma FieldsNormalIff(entry: Entry)
    requires entry.tournamentId.Some?
    ensures (forall key :: NormalField(entry, key) == FieldOf(entry.tournament, key))
       <==> NormalTournament(entry.tournament, entry.tournamentId.value)
  {
    PlacesByName();
    NormalFieldIff(entry, "startDate");
    NormalFieldIff(entry, "endDate");
    var all := forall key :: NormalField(entry, key) == FieldOf(entry.tournament, key);
    if all {
      assert NormalField(entry, "tournamentId") == FieldOf(entry.tournament, "tournamentId");
      assert NormalField(entry, "startDate") == FieldOf(entry.tournament, "startDate");
      assert NormalField(entry, "endDate") == FieldOf(entry.tournament, "endDate");
      forall key | key in entry.tournament && PlaceOf(key).Column? ensures !entry.tournament[key].Null? {
        assert NormalField(entry, key) == FieldOf(entry.tournament, key);
      }
    }
    if NormalTournament(entry.tournament, entry.tournamentId.value) {
      forall key ensures NormalField(entry, key) == FieldOf(entry.tournament, key) {
        if key != "tournamentId" {
          NormalFieldIff(entry, key);
        }
      }
    }
  }

  lemma SameEntryIff(back: Entry, entry: Entry, providerId: string)
    requires back.tournamentId == Some(IdOf(entry)) && back.providerId == Some(providerId)
    requires back.createdByUserId == entry.createdByUserId && back.published == Some(entry.published.GetOr(false))
    requires back.searchText.Some? && (entry.searchText.Some? ==> back.searchText == entry.searchText)
    requires forall key :: FieldOf(back.tournament, key) == NormalField(entry, key)
    ensures back == entry <==> Normal(entry, providerId)
  {
    assert back.published == entry.published <==> entry.published.Some?;
    assert back.searchText == entry.searchText <==> entry.searchText.Some?;
    assert back.tournamentId == entry.tournamentId <==> entry.tournamentId.Some?;
    if entry.tournamentId.Some? {
      FieldsNormalIff(entry);
      FieldsEqualIff(back.tournament, entry);
      assert back.tournament == entry.tournament <==> NormalTournament(entry.tournament, entry.tournamentId.value);
    }
  }

  /** The round trip returns the very entry exactly when it is normal. */
  lemma EntryRoundTripIffNormal(entry: Entry, providerId: string, providerAbbr: Option<string>, lower: string -> string)
    ensures FromRow(ToRow(entry, providerId, providerAbbr, lower)) == entry <==> Normal(entry, providerId)
  {
    EntryRoundTrip(entry, providerId, providerAbbr, lower);
    SameEntryIff(FromRow(ToRow(entry, providerId, providerAbbr, lower)), entry, providerId);
  }

  lemma FieldsEqualIff(back: Fields, entry: Entry)
    requires forall key :: FieldOf(back, key) == NormalField(entry, key)
    ensures back == entry.tournament <==> forall key :: NormalField(entry, key) == FieldOf(entry.tournament, key)
  {
    if forall key :: NormalField(entry, key) == FieldOf(entry.tournament, key) {
      SameFields(back, entry.tournament);
    }
  }

  lemma ColumnsComeBack(row: Row)
    requires RowOk(row)
    ensures Carried(TournamentOf(row)) == row.carried
    ensures Identity(TournamentOf(row)) == row.identity
    ensures Remainder(TournamentOf(row)) == row.remainder
  {
    var t := TournamentOf(row);
    forall key ensures FieldOf(Carried(t), key) == FieldOf(row.carried, key)
    ensures FieldOf(Identity(t), key) == FieldOf(row.identity, key)
    ensures FieldOf(Remainder(t), key) == FieldOf(row.remainder, key) {
      if !PlaceOf(key).Own? {
        OtherFields(row, key);
      }
    }
    SameFields(Carried(t), row.carried);
    SameFields(Identity(t), row.identity);
    SameFields(Remainder(t), row.remainder);
  }

  lemma DatesComeBack(row: Row)
    requires RowOk(row)
    ensures DateOnly(FieldOf(TournamentOf(row), "startDate")) == row.startDate
    ensures DateOnly(FieldOf(TournamentOf(row), "endDate")) == row.endDate
    ensures EventCount(FieldOf(TournamentOf(row), "eventInfo")) == row.eventCount
    ensures Offline(FieldOf(TournamentOf(row), "timeItemValues")) == row.offline
  {
    PlacesByName();
    OwnFields(row);
    OtherFields(row, "eventInfo");
    OtherFields(row, "timeItemValues");
    if row.startDate.Some? {
      DayStays(row.startDate.value);
    }
    if row.endDate.Some? {
      DayStays(row.endDate.value);
    }
  }

  /** `toRow` after `fromRow` gives back the row exactly when it is one `toRow` can produce. */
  lemma RowRoundTripIffProduced(row: Row, lower: string -> string)
    ensures ToRow(FromRow(row), row.providerId, row.providerAbbr, lower) == row <==> RowOk(row)
  {
    ToRowIsOk(FromRow(row), row.providerId, row.providerAbbr, lower);
    if RowOk(row) {
      ColumnsComeBack(row);
      DatesComeBack(row);
    }
  }

  /** Every field of a tournament that is not an id, a date or a carried null is in exactly one of the three places. */
  lemma PlacesPartitionFields(entry: Entry, providerId: string, providerAbbr: Option<string>, lower: string -> string, key: string)
    ensures var row := ToRow(entry, providerId, providerAbbr, lower);
            && (key in row.carried || key in row.identity || key in row.remainder
                <==> key in entry.tournament && key !in OWN_FIELDS && !(key in CARRIED_FIELDS && entry.tournament[key].Null?))
            && !(key in row.carried && key in row.identity) && !(key in row.carried && key in row.remainder)
            && !(key in row.identity && key in row.remainder)
            && (key in row.identity <==> key in entry.tournament && key in IDENTITY_FIELDS)
  {
    FieldsListedOnce();
    assert ListedOnce(key);
  }
}
