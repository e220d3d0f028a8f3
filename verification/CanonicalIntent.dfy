/**
 The fingerprint of a command's intent: its payload with every object's keys sorted, printed and hashed. A digest is
 represented by the text it is taken of.
 */
module CanonicalIntent {
  import opened Options
  import opened Ordering
  import opened Json

  // ---------------------------------------------------------------- sorting the keys of an object

  function InsertMember(key: string, value: Value, ms: Members): Members {
    if ms.Empty? || Less(key, ms.key) then Member(key, value, ms)
    else Member(ms.key, ms.value, InsertMember(key, value, ms.rest))
  }

  /** `Object.keys(value).sort()`, each key with its value. */
  function SortMembers(ms: Members): Members {
    if ms.Empty? then Empty else InsertMember(ms.key, ms.value, SortMembers(ms.rest))
  }

  /** Keys an engine enumerates before all others, in numeric order: canonical integers below 2^32 - 1. */
  predicate IndexKey(k: string) {
    && |k| > 0 && (forall i :: 0 <= i < |k| ==> '0' <= k[i] <= '9')
    && (k[0] != '0' || |k| == 1)
    && (|k| < 10 || (|k| == 10 && Less(k, "4294967295")))
  }

  predicate NumericallyLess(a: string, b: string) {
    |a| < |b| || (|a| == |b| && Less(a, b))
  }

  /** Where an object enumerates a key added to it. */
  function Place(ms: Members, key: string, value: Value): Members {
    if ms.Empty? || (IndexKey(key) && (!IndexKey(ms.key) || NumericallyLess(key, ms.key))) then Member(key, value, ms)
    else Member(ms.key, ms.value, Place(ms.rest, key, value))
  }

  /** `Object.fromEntries`. */
  function FromEntries(entries: Members, built: Members): Members
    decreases entries
  {
    if entries.Empty? then built else FromEntries(entries.rest, Place(built, entries.key, entries.value))
  }

  function Canonical(v: Value): Value {
    match v
    case Array(items) => Array(CanonicalItems(items))
    case Object(members) => Object(FromEntries(SortMembers(CanonicalMembers(members)), Empty))
    case _ => v
  }

  function CanonicalItems(items: Items): Items {
    if items.Nil? then Nil else Cons(Canonical(items.head), CanonicalItems(items.tail))
  }

  function CanonicalMembers(ms: Members): Members {
    if ms.Empty? then Empty else Member(ms.key, Canonical(ms.value), CanonicalMembers(ms.rest))
  }

  // ---------------------------------------------------------------- equal up to key order

  predicate Same(v: Value, w: Value)
    decreases v, 1
  {
    match v
    case Array(items) => w.Array? && SameItems(items, w.items)
    case Object(ms) => w.Object? && Keys(ms) == Keys(w.members) && SameMembers(ms, w.members)
    case _ => v == w
  }

  predicate SameItems(v: Items, w: Items)
    decreases v, 0
  {
    (v.Nil? && w.Nil?) || (v.Cons? && w.Cons? && Same(v.head, w.head) && SameItems(v.tail, w.tail))
  }

  /** Every member of `ms` has its counterpart in `other`, wherever that stands. */
  predicate SameMembers(ms: Members, other: Members)
    decreases ms, 0
  {
    ms.Member? ==> ms.key in Keys(other) && Same(ms.value, Lookup(other, ms.key)) && SameMembers(ms.rest, other)
  }

  // ---------------------------------------------------------------- sorting loses nothing

  /** The same keys, with the same values. */
  ghost predicate Agree(a: Members, b: Members) {
    Keys(a) == Keys(b) && forall k :: k in Keys(a) ==> Lookup(a, k) == Lookup(b, k)
  }

  lemma {:induction false} InsertHolds(key: string, value: Value, ms: Members)
    requires key !in Keys(ms)
    ensures Agree(InsertMember(key, value, ms), Member(key, value, ms))
    ensures Valid(value) && ValidMembers(ms) ==> ValidMembers(InsertMember(key, value, ms))
  {
    if ms.Member? && !Less(key, ms.key) {
      InsertHolds(key, value, ms.rest);
    }
  }

  lemma {:induction false} PlaceHolds(ms: Members, key: string, value: Value)
    requires key !in Keys(ms)
    ensures Agree(Place(ms, key, value), Member(key, value, ms))
    ensures Valid(value) && ValidMembers(ms) ==> ValidMembers(Place(ms, key, value))
  {
    if ms.Member? && !(IndexKey(key) && (!IndexKey(ms.key) || NumericallyLess(key, ms.key))) {
      PlaceHolds(ms.rest, key, value);
    }
  }

  lemma {:induction false} SortHolds(ms: Members)
    requires ValidMembers(ms)
    ensures Agree(SortMembers(ms), ms) && ValidMembers(SortMembers(ms))
  {
    if ms.Member? {
      SortHolds(ms.rest);
      InsertHolds(ms.key, ms.value, SortMembers(ms.rest));
    }
  }

  lemma {:induction false} FromEntriesHolds(entries: Members, built: Members)
    requires ValidMembers(entries) && ValidMembers(built) && Keys(entries) !! Keys(built)
    ensures var all := FromEntries(entries, built);
            && ValidMembers(all) && Keys(all) == Keys(entries) + Keys(built)
            && (forall k :: k in Keys(entries) ==> Lookup(all, k) == Lookup(entries, k))
            && (forall k :: k in Keys(built) ==> Lookup(all, k) == Lookup(built, k))
    decreases entries
  {
    if entries.Member? {
      var next := Place(built, entries.key, entries.value);
      PlaceHolds(built, entries.key, entries.value);
      FromEntriesHolds(entries.rest, next);
      assert Lookup(next, entries.key) == entries.value;
    }
  }

  predicate StrictlySorted(ms: Members) {
    ms.Member? ==> (forall k :: k in Keys(ms.rest) ==> Less(ms.key, k)) && StrictlySorted(ms.rest)
  }

  lemma {:induction false} InsertSorted(key: string, value: Value, ms: Members)
    requires StrictlySorted(ms) && key !in Keys(ms)
    ensures StrictlySorted(InsertMember(key, value, ms))
  {
    if ms.Member? {
      LessTotal(key, ms.key);
      if Less(key, ms.key) {
        forall k | k in Keys(ms) ensures Less(key, k) {
          if k != ms.key {
            LessTransitive(key, ms.key, k);
          }
        }
      } else {
        InsertSorted(key, value, ms.rest);
        InsertHolds(key, value, ms.rest);
      }
    }
  }

  lemma {:induction false} SortSorts(ms: Members)
    requires ValidMembers(ms)
    ensures StrictlySorted(SortMembers(ms))
  {
    if ms.Member? {
      SortHolds(ms.rest);
      SortSorts(ms.rest);
      InsertSorted(ms.key, ms.value, SortMembers(ms.rest));
    }
  }

  /** Sorted members are determined by their keys and values. */
  lemma {:induction false} SortedMembersUnique(a: Members, b: Members)
    requires StrictlySorted(a) && StrictlySorted(b) && Agree(a, b)
    ensures a == b
  {
    if a.Member? && b.Member? {
      assert a.key in Keys(b) && b.key in Keys(a);
      if a.key != b.key {
        assert Less(a.key, b.key) && Less(b.key, a.key);
        LessTransitive(a.key, b.key, a.key);
        LessIrreflexive(a.key);
      }
      LessIrreflexive(a.key);
      assert Keys(a.rest) == Keys(a) - {a.key} && Keys(b.rest) == Keys(b) - {b.key};
      assert Lookup(a, a.key) == Lookup(b, a.key);
      forall k | k in Keys(a.rest) ensures Lookup(a.rest, k) == Lookup(b.rest, k) {
        assert Lookup(a, k) == Lookup(b, k);
      }
      SortedMembersUnique(a.rest, b.rest);
    } else {
      NoKeys(a);
      NoKeys(b);
    }
  }

  lemma NoKeys(ms: Members)
    ensures Keys(ms) == {} <==> ms.Empty?
  {
    assert ms.Member? ==> ms.key in Keys(ms);
  }

  // ---------------------------------------------------------------- the canonical form

  lemma {:induction false} CanonicalMembersHold(ms: Members)
    requires ValidMembers(ms)
    ensures Keys(CanonicalMembers(ms)) == Keys(ms)
    ensures forall k :: k in Keys(ms) ==> Lookup(CanonicalMembers(ms), k) == Canonical(Lookup(ms, k))
    ensures ValidMembers(CanonicalMembers(ms))
    decreases ms, 0
  {
    if ms.Member? {
      CanonicalValid(ms.value);
      CanonicalMembersHold(ms.rest);
    }
  }

  lemma {:induction false} CanonicalItemsValid(items: Items)
    requires ValidItems(items)
    ensures ValidItems(CanonicalItems(items))
    decreases items, 0
  {
    if items.Cons? {
      CanonicalValid(items.head);
      CanonicalItemsValid(items.tail);
    }
  }

  lemma {:induction false} CanonicalValid(v: Value)
    requires Valid(v)
    ensures Valid(Canonical(v))
    decreases v, 1
  {
    match v
    case Array(items) => CanonicalItemsValid(items);
    case Object(ms) =>
      CanonicalMembersHold(ms);
      SortHolds(CanonicalMembers(ms));
      FromEntriesHolds(SortMembers(CanonicalMembers(ms)), Empty);
    case _ =>
  }

  /** What the canonical form of an object holds. */
  lemma CanonicalObject(ms: Members)
    requires ValidMembers(ms)
    ensures var c := Canonical(Object(ms)).members;
            ValidMembers(c) && Keys(c) == Keys(ms) && forall k :: k in Keys(ms) ==> Lookup(c, k) == Canonical(Lookup(ms, k))
  {
    CanonicalMembersHold(ms);
    SortHolds(CanonicalMembers(ms));
    FromEntriesHolds(SortMembers(CanonicalMembers(ms)), Empty);
  }

  /** The key is in both, with the same canonical value. */
  predicate AgreeAt(ms: Members, other: Members, k: string) {
    k in Keys(ms) && k in Keys(other) && Canonical(Lookup(ms, k)) == Canonical(Lookup(other, k))
  }

  lemma {:induction false} SameMembersCanonical(ms: Members, other: Members)
    requires ValidMembers(ms) && ValidMembers(other)
    ensures SameMembers(ms, other) <==> forall k :: k in Keys(ms) ==> AgreeAt(ms, other, k)
    decreases ms, 0
  {
    if ms.Member? {
      SameMembersCanonical(ms.rest, other);
      forall k | k in Keys(ms.rest) ensures AgreeAt(ms, other, k) <==> AgreeAt(ms.rest, other, k) {
      }
      if ms.key in Keys(other) {
        LookupValid(other, ms.key);
        SameIffCanonical(ms.value, Lookup(other, ms.key));
      }
      assert AgreeAt(ms, other, ms.key) <==> ms.key in Keys(other) && Same(ms.value, Lookup(other, ms.key));
    }
  }

  lemma {:induction false} LookupValid(ms: Members, k: string)
    requires ValidMembers(ms) && k in Keys(ms)
    ensures Valid(Lookup(ms, k))
  {
    if ms.key != k {
      LookupValid(ms.rest, k);
    }
  }

  lemma {:induction false} SameItemsCanonical(v: Items, w: Items)
    requires ValidItems(v) && ValidItems(w)
    ensures SameItems(v, w) <==> CanonicalItems(v) == CanonicalItems(w)
    decreases v, 0
  {
    if v.Cons? && w.Cons? {
      SameIffCanonical(v.head, w.head);
      SameItemsCanonical(v.tail, w.tail);
    }
  }

  /** The recursive key sort identifies exactly the values that are equal up to key order at every depth. */
  lemma {:induction false} SameIffCanonical(v: Value, w: Value)
    requires Valid(v) && Valid(w)
    ensures Same(v, w) <==> Canonical(v) == Canonical(w)
    decreases v, 1
  {
    match v
    case Array(items) =>
      if w.Array? {
        SameItemsCanonical(items, w.items);
      }
    case Object(ms) =>
      if w.Object? {
        SameMembersCanonical(ms, w.members);
        CanonicalObject(ms);
        CanonicalObject(w.members);
        if Same(v, w) {
          CanonicalMembersHold(ms);
          CanonicalMembersHold(w.members);
          SortHolds(CanonicalMembers(ms));
          SortHolds(CanonicalMembers(w.members));
          SortSorts(CanonicalMembers(ms));
          SortSorts(CanonicalMembers(w.members));
          SortedMembersUnique(SortMembers(CanonicalMembers(ms)), SortMembers(CanonicalMembers(w.members)));
        }
      }
    case _ =>
  }

  lemma {:induction false} SameAsCanonicalItems(items: Items)
    requires ValidItems(items)
    ensures SameItems(items, CanonicalItems(items))
    decreases items, 0
  {
    if items.Cons? {
      SameAsCanonical(items.head);
      SameAsCanonicalItems(items.tail);
    }
  }

  lemma {:induction false} SameAsCanonicalMembers(ms: Members, c: Members)
    requires ValidMembers(ms)
    requires forall k :: k in Keys(ms) ==> k in Keys(c) && Lookup(c, k) == Canonical(Lookup(ms, k))
    ensures SameMembers(ms, c)
    decreases ms, 0
  {
    if ms.Member? {
      assert Lookup(ms, ms.key) == ms.value;
      SameAsCanonical(ms.value);
      assert forall k :: k in Keys(ms.rest) ==> Lookup(ms, k) == Lookup(ms.rest, k);
      SameAsCanonicalMembers(ms.rest, c);
    }
  }

  /** The key sort preserves meaning. */
  lemma {:induction false} SameAsCanonical(v: Value)
    requires Valid(v)
    ensures Same(v, Canonical(v))
    decreases v, 1
  {
    match v
    case Array(items) => SameAsCanonicalItems(items);
    case Object(ms) =>
      CanonicalObject(ms);
      SameAsCanonicalMembers(ms, Canonical(v).members);
    case _ =>
  }

  /** Sorting twice is sorting once. */
  lemma CanonicalIdempotent(v: Value)
    requires Valid(v)
    ensures Canonical(Canonical(v)) == Canonical(v)
  {
    CanonicalValid(v);
    SameAsCanonical(v);
    SameIffCanonical(v, Canonical(v));
  }

  /** Two neighbouring members may change places, */
  lemma KeysMayMove(j: string, a: Value, k: string, b: Value, rest: Members)
    requires ValidMembers(Member(j, a, Member(k, b, rest)))
    ensures Canonical(Object(Member(j, a, Member(k, b, rest)))) == Canonical(Object(Member(k, b, Member(j, a, rest))))
  {
    var ms, other := Member(j, a, Member(k, b, rest)), Member(k, b, Member(j, a, rest));
    assert ValidMembers(Member(j, a, rest)) && ValidMembers(other);
    forall key | key in Keys(ms) ensures AgreeAt(ms, other, key) {
      assert Lookup(ms, key) == Lookup(other, key);
    }
    SameMembersCanonical(ms, other);
    SameIffCanonical(Object(ms), Object(other));
  }

  /** and so may those of any object inside. */
  lemma AtAnyDepth(a: Value, b: Value, key: string, rest: Members, tail: Items)
    requires Canonical(a) == Canonical(b)
    ensures Canonical(Object(Member(key, a, rest))) == Canonical(Object(Member(key, b, rest)))
    ensures Canonical(Array(Cons(a, tail))) == Canonical(Array(Cons(b, tail)))
  {
  }

  // ---------------------------------------------------------------- fingerprints

  /** The fields of a parsed body; `None` is an absent one. */
  datatype Payload = Payload(
    tournamentIds: Option<Value>, tournamentId: Option<Value>, methods: Option<Value>, rollbackOnError: Option<Value>)

  predicate ValidField(f: Option<Value>) {
    f.Some? ==> Valid(f.value)
  }

  predicate ValidPayload(p: Payload) {
    ValidField(p.tournamentIds) && ValidField(p.tournamentId) && ValidField(p.methods) && ValidField(p.rollbackOnError)
  }

  /** `f ?? default`. */
  function OrElse(f: Option<Value>, default: Value): Value {
    if f.Some? && !f.value.Null? then f.value else default
  }

  predicate Falsy(v: Value) {
    v == Null || v == Bool(false) || v == Number("0") || v == String("")
  }

  /** `payload.tournamentIds ?? [payload.tournamentId].filter(Boolean)`. */
  function TournamentIds(p: Payload): Value {
    OrElse(p.tournamentIds, Array(if p.tournamentId.Some? && !Falsy(p.tournamentId.value) then Cons(p.tournamentId.value, Nil) else Nil))
  }

  function RollbackMember(p: Payload): Members {
    Member("rollbackOnError", OrElse(p.rollbackOnError, Bool(false)), Empty)
  }

  /** An absent `methods` is not printed. */
  function MethodsMember(p: Payload): Members {
    if p.methods.Some? then Member("methods", p.methods.value, RollbackMember(p)) else RollbackMember(p)
  }

  function Intent(p: Payload): Value {
    Object(Member("tournamentIds", TournamentIds(p), MethodsMember(p)))
  }

  function CommandFingerprint(p: Payload): string {
    Stringify(Canonical(Intent(p)))
  }

  /** One id is a list of one, no id an empty list, and no rollback flag a false one; no methods is not an empty list. */
  lemma DefaultsAreIntents(p: Payload, id: string)
    requires id != "" && ValidField(p.methods)
    ensures var one := p.(tournamentIds := None, tournamentId := Some(String(id)));
            CommandFingerprint(one) == CommandFingerprint(p.(tournamentIds := Some(Array(Cons(String(id), Nil)))))
    ensures CommandFingerprint(p.(tournamentIds := None, tournamentId := None)) == CommandFingerprint(p.(tournamentIds := Some(Array(Nil))))
    ensures CommandFingerprint(p.(tournamentIds := None, tournamentId := Some(String(""))))
         == CommandFingerprint(p.(tournamentIds := Some(Array(Nil))))
    ensures CommandFingerprint(p.(rollbackOnError := None)) == CommandFingerprint(p.(rollbackOnError := Some(Bool(false))))
  {
  }

  lemma NamesDiffer()
    ensures "tournamentIds" != "methods" && "tournamentIds" != "rollbackOnError" && "methods" != "rollbackOnError"
  {
    assert "tournamentIds"[0] == 't' && "methods"[0] == 'm' && "rollbackOnError"[0] == 'r';
  }

  lemma IntentMembers(p: Payload)
    ensures Keys(RollbackMember(p)) == {"rollbackOnError"}
    ensures Keys(MethodsMember(p)) == {"rollbackOnError"} + if p.methods.Some? then {"methods"} else {}
    ensures Keys(Intent(p).members) == {"tournamentIds"} + Keys(MethodsMember(p))
    ensures Lookup(Intent(p).members, "tournamentIds") == TournamentIds(p)
    ensures Lookup(Intent(p).members, "rollbackOnError") == OrElse(p.rollbackOnError, Bool(false))
    ensures p.methods.Some? ==> Lookup(Intent(p).members, "methods") == p.methods.value
  {
    NamesDiffer();
    assert Lookup(RollbackMember(p), "rollbackOnError") == OrElse(p.rollbackOnError, Bool(false));
    assert Lookup(MethodsMember(p), "rollbackOnError") == OrElse(p.rollbackOnError, Bool(false));
  }

  lemma IntentValid(p: Payload)
    requires ValidPayload(p)
    ensures Valid(Intent(p))
  {
    NamesDiffer();
    IntentMembers(p);
    assert ValidMembers(RollbackMember(p));
    assert ValidMembers(MethodsMember(p));
    assert ValidItems(Nil);
    assert Valid(TournamentIds(p));
  }

  predicate SameField(a: Option<Value>, b: Option<Value>) {
    a.Some? == b.Some? && (a.Some? ==> Same(a.value, b.value))
  }

  /** What two intents have to agree on. */
  lemma SameIntent(p: Payload, q: Payload)
    requires ValidPayload(p) && ValidPayload(q)
    ensures Same(Intent(p), Intent(q))
       <==> Same(TournamentIds(p), TournamentIds(q)) && SameField(p.methods, q.methods)
            && Same(OrElse(p.rollbackOnError, Bool(false)), OrElse(q.rollbackOnError, Bool(false)))
  {
    var b := Intent(q).members;
    NamesDiffer();
    IntentMembers(p);
    IntentMembers(q);
    var rollback := Same(OrElse(p.rollbackOnError, Bool(false)), OrElse(q.rollbackOnError, Bool(false)));
    assert SameMembers(RollbackMember(p), b) <==> rollback by {
      assert SameMembers(Empty, b);
    }
    assert Keys(Intent(p).members) == Keys(b) <==> p.methods.Some? == q.methods.Some? by {
      assert "methods" in Keys(Intent(p).members) <==> p.methods.Some?;
      assert "methods" in Keys(b) <==> q.methods.Some?;
    }
    if p.methods.Some? == q.methods.Some? {
      assert SameMembers(MethodsMember(p), b) <==> rollback && SameField(p.methods, q.methods);
    }
  }

  /**
   Two commands have the same fingerprint exactly when their tournament ids, methods and rollback flag are equal up to
   the order of object keys at every depth.
   */
  lemma FingerprintsEqualIffSameIntent(p: Payload, q: Payload)
    requires ValidPayload(p) && ValidPayload(q)
    ensures CommandFingerprint(p) == CommandFingerprint(q)
       <==> Same(TournamentIds(p), TournamentIds(q)) && SameField(p.methods, q.methods)
            && Same(OrElse(p.rollbackOnError, Bool(false)), OrElse(q.rollbackOnError, Bool(false)))
  {
    IntentValid(p);
    IntentValid(q);
    SameIntent(p, q);
    SameIffCanonical(Intent(p), Intent(q));
    CanonicalValid(Intent(p));
    CanonicalValid(Intent(q));
    if CommandFingerprint(p) == CommandFingerprint(q) {
      StringifyInjective(Canonical(Intent(p)), Canonical(Intent(q)));
    }
  }

  /** The records as sent and their precondition. */
  datatype SavePayload = SavePayload(
    tournamentRecords: Option<Value>, tournamentRecord: Option<Value>, expectedServerUpdatedAt: Option<Value>)

  function SaveIntent(p: SavePayload): Value {
    Object(Member("kind", String("save"),
           Member("tournamentRecords", OrElse(p.tournamentRecords, Null),
           Member("tournamentRecord", OrElse(p.tournamentRecord, Null),
           Member("expectedServerUpdatedAt", OrElse(p.expectedServerUpdatedAt, Null), Empty)))))
  }

  function SaveFingerprint(p: SavePayload): string {
    Stringify(SaveIntent(p))
  }

  /** A save is hashed in arrival order: equal fingerprints mean equal records, keys in the same order. */
  lemma SaveFingerprintsEqualIffAsSent(p: SavePayload, q: SavePayload)
    requires ValidField(p.tournamentRecords) && ValidField(p.tournamentRecord) && ValidField(p.expectedServerUpdatedAt)
    requires ValidField(q.tournamentRecords) && ValidField(q.tournamentRecord) && ValidField(q.expectedServerUpdatedAt)
    ensures SaveFingerprint(p) == SaveFingerprint(q)
       <==> OrElse(p.tournamentRecords, Null) == OrElse(q.tournamentRecords, Null)
            && OrElse(p.tournamentRecord, Null) == OrElse(q.tournamentRecord, Null)
            && OrElse(p.expectedServerUpdatedAt, Null) == OrElse(q.expectedServerUpdatedAt, Null)
  {
    SaveIntentValid(p);
    SaveIntentValid(q);
    if SaveFingerprint(p) == SaveFingerprint(q) {
      StringifyInjective(SaveIntent(p), SaveIntent(q));
    }
  }

  lemma SaveIntentValid(p: SavePayload)
    requires ValidField(p.tournamentRecords) && ValidField(p.tournamentRecord) && ValidField(p.expectedServerUpdatedAt)
    ensures Valid(SaveIntent(p))
  {
    assert |"kind"| == 4 && |"tournamentRecords"| == 17 && |"tournamentRecord"| == 16 && |"expectedServerUpdatedAt"| == 23;
    var expected := Member("expectedServerUpdatedAt", OrElse(p.expectedServerUpdatedAt, Null), Empty);
    KeysLonger(expected, 23);
    var record := Member("tournamentRecord", OrElse(p.tournamentRecord, Null), expected);
    assert "tournamentRecord" !in Keys(expected);
    KeysLonger(record, 16);
    var records := Member("tournamentRecords", OrElse(p.tournamentRecords, Null), record);
    assert "tournamentRecords" !in Keys(record) by {
      assert "tournamentRecords" != "tournamentRecord" && "tournamentRecords" !in Keys(expected);
    }
    KeysLonger(records, 16);
    assert ValidMembers(expected);
    assert ValidMembers(record);
    assert ValidMembers(records);
  }

  lemma KeysLonger(ms: Members, n: nat)
    requires ms.Member? && |ms.key| >= n && (forall k :: k in Keys(ms.rest) ==> |k| >= n)
    ensures forall k :: k in Keys(ms) ==> |k| >= n
  {
  }
}
