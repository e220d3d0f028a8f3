/** The cache of tournament reads and the side table of issued keys that a mutation invalidates it by. */
module CacheTable {
  import opened Options
  import opened Rendering

  const KEYS_PER_TOURNAMENT_CAP := 200

  const PER_ENTITY_PREFIXES := ["ged|", "gdd|", "gsd|"]
  const ROSTER_KEY_PREFIX := "gtp|"

  /** What a mutation says it changed. */
  datatype Report = Report(
    evicted: set<string>, warmed: set<string>, unnarrowable: set<string>, topics: seq<string>)

  /** `tracked` lists a tournament's keys in the order they were added. */
  datatype Table = Table(cache: map<string, string>, tracked: map<string, seq<string>>)

  // ---------------------------------------------------------------- keys

  function AfterBar(s: string): string {
    var head := UpTo(s, '|');
    if |head| < |s| then s[|head| + 1..] else ""
  }

  /** `key.split('|')[1]`, empty when there is none. */
  function TidOf(key: string): string {
    UpTo(AfterBar(key), '|')
  }

  predicate Rejected(tid: string) {
    tid in {"undefined", "null", "NaN", "false", ""}
  }

  function TrackedOf(t: Table, tid: string): seq<string> {
    if tid in t.tracked then t.tracked[tid] else []
  }

  /** Adding to a set that remembers insertion order. */
  function Added(keys: seq<string>, key: string): seq<string> {
    if key in keys then keys else keys + [key]
  }

  /** The oldest go first. */
  function Capped(keys: seq<string>): seq<string> {
    if |keys| > KEYS_PER_TOURNAMENT_CAP then keys[|keys| - KEYS_PER_TOURNAMENT_CAP..] else keys
  }

  function Tracked(t: Table, key: string): Table {
    var tid := TidOf(key);
    if Rejected(tid) then t else t.(tracked := t.tracked[tid := Capped(Added(TrackedOf(t, tid), key))])
  }

  /** A read: the cached value, or a fresh one that is cached unless it is an error. */
  function Read(t: Table, key: string, computed: Option<string>): (Table, Option<string>) {
    if key == "" then (t, computed)
    else if key in t.cache then (t, Some(t.cache[key]))
    else if computed.None? then (t, None)
    else (Tracked(t.(cache := t.cache[key := computed.value]), key), computed)
  }

  // ---------------------------------------------------------------- invalidation

  predicate RosterUnchanged(report: Report, rosterSafe: set<string>) {
    |report.topics| > 0 && forall i :: 0 <= i < |report.topics| ==> report.topics[i] in rosterSafe
  }

  function PrefixOf(key: string): Option<string> {
    if PER_ENTITY_PREFIXES[0] <= key then Some(PER_ENTITY_PREFIXES[0])
    else if PER_ENTITY_PREFIXES[1] <= key then Some(PER_ENTITY_PREFIXES[1])
    else if PER_ENTITY_PREFIXES[2] <= key then Some(PER_ENTITY_PREFIXES[2])
    else None
  }

  predicate Spared(key: string, report: Report, rosterSafe: set<string>) {
    || key in report.warmed
    || (RosterUnchanged(report, rosterSafe) && ROSTER_KEY_PREFIX <= key)
    || (report.evicted != {} && PrefixOf(key).Some? && PrefixOf(key).value !in report.unnarrowable && key !in report.evicted)
  }

  function Retained(keys: seq<string>, report: Report, rosterSafe: set<string>): seq<string> {
    if |keys| == 0 then []
    else
      var front, last := Retained(keys[..|keys| - 1], report, rosterSafe), keys[|keys| - 1];
      if Spared(last, report, rosterSafe) then front + [last] else front
  }

  function Swept(keys: seq<string>, report: Report, rosterSafe: set<string>): set<string> {
    set key | key in keys && !Spared(key, report, rosterSafe)
  }

  function InvalidatedOne(t: Table, tid: string, report: Report, rosterSafe: set<string>): Table {
    if tid == "" || tid !in t.tracked then t
    else
      var retained := Retained(t.tracked[tid], report, rosterSafe);
      Table(t.cache - Swept(t.tracked[tid], report, rosterSafe),
            if |retained| > 0 then t.tracked[tid := retained] else t.tracked - {tid})
  }

  function Invalidated(t: Table, tids: seq<string>, report: Report, rosterSafe: set<string>): Table {
    if |tids| == 0 then t
    else InvalidatedOne(Invalidated(t, tids[..|tids| - 1], report, rosterSafe), tids[|tids| - 1], report, rosterSafe)
  }

  lemma OldestDropped(keys: seq<string>)
    requires |keys| > KEYS_PER_TOURNAMENT_CAP
    ensures Capped(keys[1..]) == Capped(keys)
  {
  }

  class FactoryController {
    const rosterSafe: set<string>
    var cache: map<string, string>
    var cacheKeysByTournament: map<string, seq<string>>

    constructor (rosterSafeTopics: set<string>)
      ensures Contents() == Table(map[], map[]) && rosterSafe == rosterSafeTopics
    {
      rosterSafe, cache, cacheKeysByTournament := rosterSafeTopics, map[], map[];
    }

    function Contents(): Table
      reads this
    {
      Table(cache, cacheKeysByTournament)
    }

    method TrackTournamentKey(key: string)
      modifies this`cacheKeysByTournament
      ensures Contents() == Tracked(old(Contents()), key)
    {
      var tid := TidOf(key);
      if Rejected(tid) {
        return;
      }
      var keys := if tid in cacheKeysByTournament then cacheKeysByTournament[tid] else [];
      if key !in keys {
        keys := keys + [key];
      }
      ghost var before, added := Contents(), keys;
      assert added == Added(TrackedOf(before, tid), key);
      while |keys| > KEYS_PER_TOURNAMENT_CAP
        invariant Capped(keys) == Capped(added) && Contents() == before
      {
        OldestDropped(keys);
        keys := keys[1..];
      }
      cacheKeysByTournament := cacheKeysByTournament[tid := keys];
      assert Contents() == before.(tracked := before.tracked[tid := keys]);
    }

    method CacheFx(key: string, computed: Option<string>) returns (answer: Option<string>)
      modifies this`cache, this`cacheKeysByTournament
      ensures (Contents(), answer) == Read(old(Contents()), key, computed)
    {
      if key != "" {
        if key in cache {
          return Some(cache[key]);
        }
      }
      answer := computed;
      if computed.Some? && key != "" {
        cache := cache[key := computed.value];
        TrackTournamentKey(key);
      }
    }

    /** One tournament's share of the sweep. */
    method Sweep(tid: string, report: Report, rosterUnchanged: bool)
      requires rosterUnchanged == RosterUnchanged(report, rosterSafe)
      modifies this`cache, this`cacheKeysByTournament
      ensures Contents() == InvalidatedOne(old(Contents()), tid, report, rosterSafe)
    {
      if tid == "" || tid !in cacheKeysByTournament {
        return;
      }
      var keys := cacheKeysByTournament[tid];
      var narrow := report.evicted != {};
      var retained: seq<string> := [];
      for i := 0 to |keys|
        invariant retained == Retained(keys[..i], report, rosterSafe)
        invariant cache == old(cache) - Swept(keys[..i], report, rosterSafe)
        invariant cacheKeysByTournament == old(cacheKeysByTournament)
      {
        var key := keys[i];
        assert keys[..i + 1][..i] == keys[..i] && keys[..i + 1] == keys[..i] + [key];
        if key in report.warmed {
          retained := retained + [key];
        } else if rosterUnchanged && ROSTER_KEY_PREFIX <= key {
          retained := retained + [key];
        } else {
          var prefix := PrefixOf(key);
          var perEntity := prefix.Some? && prefix.value !in report.unnarrowable;
          if narrow && perEntity && key !in report.evicted {
            retained := retained + [key];
          } else {
            cache := cache - {key};
          }
        }
        SweptNext(keys[..i], key, report, rosterSafe);
      }
      assert keys[..|keys|] == keys;
      if |retained| > 0 {
        cacheKeysByTournament := cacheKeysByTournament[tid := retained];
      } else {
        cacheKeysByTournament := cacheKeysByTournament - {tid};
      }
    }

    method InvalidateTournamentCache(tournamentIds: seq<string>, report: Report)
      modifies this`cache, this`cacheKeysByTournament
      ensures Contents() == Invalidated(old(Contents()), tournamentIds, report, rosterSafe)
    {
      var rosterUnchanged := |report.topics| > 0;
      for i := 0 to |report.topics|
        invariant rosterUnchanged <==> |report.topics| > 0 && forall j :: 0 <= j < i ==> report.topics[j] in rosterSafe
      {
        rosterUnchanged := rosterUnchanged && report.topics[i] in rosterSafe;
      }
      for i := 0 to |tournamentIds|
        invariant Contents() == Invalidated(old(Contents()), tournamentIds[..i], report, rosterSafe)
      {
        assert tournamentIds[..i + 1][..i] == tournamentIds[..i];
        Sweep(tournamentIds[i], report, rosterUnchanged);
      }
      assert tournamentIds[..|tournamentIds|] == tournamentIds;
    }
  }

  lemma SweptNext(keys: seq<string>, key: string, report: Report, rosterSafe: set<string>)
    ensures Swept(keys + [key], report, rosterSafe) == Swept(keys, report, rosterSafe) + if Spared(key, report, rosterSafe) then {} else {key}
  {
  }

  // ---------------------------------------------------------------- what is tracked, served and spared

  /** The ids a key is not tracked under: none, and what an id that was not there renders as. */
  predicate NoId(tid: string) {
    tid == "" || tid == "undefined" || tid == "null" || tid == "NaN" || tid == "false"
  }

  lemma RejectedIff(tid: string)
    ensures Rejected(tid) <==> NoId(tid)
  {
  }

  /** A miss with a value caches it, and tracks the key exactly when it names a tournament; an error leaves no trace. */
  lemma MissIsCached(t: Table, key: string, computed: Option<string>)
    requires key != "" && key !in t.cache
    ensures var (after, answer) := Read(t, key, computed);
            && answer == computed
            && (computed.None? ==> after == t)
            && (computed.Some? ==>
                  && key in after.cache && after.cache[key] == computed.value
                  && (forall other :: other != key ==>
                        (other in after.cache <==> other in t.cache) && (other in t.cache ==> after.cache[other] == t.cache[other]))
                  && (|TrackedOf(t, TidOf(key))| <= 200 ==>
                        (key in TrackedOf(after, TidOf(key)) <==> !NoId(TidOf(key)) || key in TrackedOf(t, TidOf(key))))
                  && (NoId(TidOf(key)) ==> after.tracked == t.tracked))
  {
    RejectedIff(TidOf(key));
    var keys := TrackedOf(t, TidOf(key));
    if computed.Some? && key !in keys && |keys| >= KEYS_PER_TOURNAMENT_CAP {
      var capped := Capped(Added(keys, key));
      assert capped[|capped| - 1] == key;
    }
  }

  /** Until it is swept, a cached value answers whatever would be computed. */
  lemma HitIsServed(t: Table, key: string, computed: Option<string>)
    requires key != "" && key in t.cache
    ensures Read(t, key, computed) == (t, Some(t.cache[key]))
  {
  }

  /** A key survives an invalidation exactly when it was re-seeded, is a roster no topic touched, or is another entity's. */
  lemma SparedIff(key: string, report: Report, rosterSafe: set<string>)
    ensures Spared(key, report, rosterSafe) <==>
            || key in report.warmed
            || ("gtp|" <= key && report.topics != [] && forall topic :: topic in report.topics ==> topic in rosterSafe)
            || (report.evicted != {} && key !in report.evicted
                && (("ged|" <= key && "ged|" !in report.unnarrowable) || ("gdd|" <= key && "gdd|" !in report.unnarrowable)
                    || ("gsd|" <= key && "gsd|" !in report.unnarrowable)))
  {
    assert "ged|"[1] != "gdd|"[1] && "ged|"[1] != "gsd|"[1] && "gdd|"[1] != "gsd|"[1];
    assert RosterUnchanged(report, rosterSafe) <==> report.topics != [] && forall topic :: topic in report.topics ==> topic in rosterSafe;
  }

  // ---------------------------------------------------------------- what a key is filed under

  /** A key is filed under the tournament it was made for exactly when that id has no `|`. */
  lemma FiledUnderItsTournament(prefix: string, tid: string, rest: string)
    requires NoBar(prefix) && (|rest| > 0 ==> rest[0] == '|')
    ensures TidOf(prefix + ("|" + (tid + rest))) == tid <==> NoBar(tid)
  {
    var key := prefix + ("|" + (tid + rest));
    UpToOf(prefix, "|" + (tid + rest), '|');
    assert AfterBar(key) == tid + rest;
    if NoBar(tid) {
      UpToOf(tid, rest, '|');
    }
  }
}
