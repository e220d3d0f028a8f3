/** Tracked cached values agree with the current records, over every run of reads, expiries and reported mutations. */
module CacheRuns {
  import opened Options
  import opened Rendering
  import opened CacheTable

  /** `computed` is what computing a key on the current records would give; absent keys give an error. */
  datatype World = World(table: Table, computed: map<string, string>)

  /** A mutation changes the records of its tournaments, re-seeds the warmed keys and invalidates by its report. */
  datatype Step =
    | Get(key: string)
    | Expire(expired: string)
    | Mutate(tids: seq<string>, computed: map<string, string>, warmedKeys: seq<string>, report: Report)

  function FreshOf(computed: map<string, string>, key: string): Option<string> {
    if key in computed then Some(computed[key]) else None
  }

  /** Each warmed key is set to its new value and tracked. */
  function Warmed(t: Table, keys: seq<string>, computed: map<string, string>): Table {
    if |keys| == 0 then t
    else
      var before, key := Warmed(t, keys[..|keys| - 1], computed), keys[|keys| - 1];
      if key in computed then Tracked(before.(cache := before.cache[key := computed[key]]), key) else before
  }

  predicate Changed(w: World, computed: map<string, string>, key: string) {
    FreshOf(w.computed, key) != FreshOf(computed, key)
  }

  /** What the server relies on of a report, kind of key by kind of key. */
  predicate Covers(report: Report, rosterSafe: set<string>, key: string) {
    && (ROSTER_KEY_PREFIX <= key ==> report.topics == [] || exists i :: 0 <= i < |report.topics| && report.topics[i] !in rosterSafe)
    && (PrefixOf(key).Some? ==> report.evicted == {} || PrefixOf(key).value in report.unnarrowable || key in report.evicted)
  }

  ghost predicate Enabled(w: World, s: Step, rosterSafe: set<string>) {
    s.Mutate? ==>
      // only its own tournaments change, and the report covers what changed
      && (forall key :: Changed(w, s.computed, key) && !Rejected(TidOf(key)) ==> TidOf(key) in s.tids && Covers(s.report, rosterSafe, key))
      // the warmed keys are those re-seeded
      && WarmsAsReported(s)
  }

  function Next(w: World, s: Step, rosterSafe: set<string>): World {
    match s
    case Get(key) => w.(table := Read(w.table, key, FreshOf(w.computed, key)).0)
    case Expire(key) => w.(table := w.table.(cache := w.table.cache - {key}))
    case Mutate(tids, computed, warmedKeys, report) =>
      World(Invalidated(Warmed(w.table, warmedKeys, computed), tids, report, rosterSafe), computed)
  }

  // ---------------------------------------------------------------- the side table

  predicate NoRepeats(keys: seq<string>) {
    forall i, j :: 0 <= i < j < |keys| ==> keys[i] != keys[j]
  }

  predicate ListOk(tid: string, keys: seq<string>) {
    && |keys| <= KEYS_PER_TOURNAMENT_CAP && NoRepeats(keys) && !Rejected(tid)
    && (forall key :: key in keys ==> TidOf(key) == tid)
  }

  /** At most 200 keys a tournament, each once, each filed under its own tournament. */
  ghost predicate TableOk(t: Table) {
    forall tid :: tid in t.tracked ==> ListOk(tid, t.tracked[tid])
  }

  predicate IsTracked(t: Table, key: string) {
    key in TrackedOf(t, TidOf(key))
  }

  lemma CappedHolds(keys: seq<string>, key: string)
    requires NoRepeats(keys) && key in keys
    requires |keys| > KEYS_PER_TOURNAMENT_CAP ==> keys[|keys| - 1] == key
    ensures NoRepeats(Capped(keys)) && |Capped(keys)| <= KEYS_PER_TOURNAMENT_CAP && key in Capped(keys)
    ensures forall k :: k in Capped(keys) ==> k in keys
  {
    if |keys| > KEYS_PER_TOURNAMENT_CAP {
      assert Capped(keys)[KEYS_PER_TOURNAMENT_CAP - 1] == key;
    }
  }

  lemma AddedOk(tid: string, keys: seq<string>, key: string)
    requires ListOk(tid, keys) && TidOf(key) == tid
    ensures ListOk(tid, Capped(Added(keys, key)))
    ensures forall k :: k in Capped(Added(keys, key)) ==> k in keys || k == key
    ensures key in Capped(Added(keys, key))
  {
    AddedHolds(keys, key);
    CappedHolds(Added(keys, key), key);
  }

  lemma AddedHolds(keys: seq<string>, key: string)
    requires NoRepeats(keys) && |keys| <= KEYS_PER_TOURNAMENT_CAP
    ensures NoRepeats(Added(keys, key)) && key in Added(keys, key)
    ensures |Added(keys, key)| > KEYS_PER_TOURNAMENT_CAP ==> Added(keys, key)[|Added(keys, key)| - 1] == key
    ensures forall k :: k in Added(keys, key) ==> k in keys || k == key
  {
  }

  lemma TrackedTable(t: Table, key: string)
    requires TableOk(t)
    ensures TableOk(Tracked(t, key)) && Tracked(t, key).cache == t.cache
    ensures forall k :: IsTracked(Tracked(t, key), k) ==> IsTracked(t, k) || k == key
    ensures !Rejected(TidOf(key)) ==> IsTracked(Tracked(t, key), key)
  {
    var tid := TidOf(key);
    if !Rejected(tid) {
      assert ListOk(tid, TrackedOf(t, tid));
      AddedOk(tid, TrackedOf(t, tid), key);
    }
  }

  /** A key not yet tracked pushes out only the oldest, and only from a full list. */
  lemma OldestGoesFirst(t: Table, key: string)
    requires TableOk(t) && !Rejected(TidOf(key)) && !IsTracked(t, key)
    ensures var before, after := TrackedOf(t, TidOf(key)), TrackedOf(Tracked(t, key), TidOf(key));
            after == (if |before| < KEYS_PER_TOURNAMENT_CAP then before else before[1..]) + [key]
  {
    assert ListOk(TidOf(key), TrackedOf(t, TidOf(key)));
  }

  lemma {:induction false} RetainedHolds(keys: seq<string>, report: Report, rosterSafe: set<string>)
    ensures forall k :: k in Retained(keys, report, rosterSafe) <==> k in keys && Spared(k, report, rosterSafe)
    ensures |Retained(keys, report, rosterSafe)| <= |keys|
    ensures NoRepeats(keys) ==> NoRepeats(Retained(keys, report, rosterSafe))
  {
    if |keys| > 0 {
      var front, last := keys[..|keys| - 1], keys[|keys| - 1];
      assert keys == front + [last];
      RetainedHolds(front, report, rosterSafe);
    }
  }

  lemma InvalidatedOneHolds(t: Table, tid: string, report: Report, rosterSafe: set<string>)
    requires TableOk(t)
    ensures TableOk(InvalidatedOne(t, tid, report, rosterSafe))
    ensures forall k :: IsTracked(InvalidatedOne(t, tid, report, rosterSafe), k) <==>
              IsTracked(t, k) && (TidOf(k) == tid ==> Spared(k, report, rosterSafe))
    ensures forall k :: k in InvalidatedOne(t, tid, report, rosterSafe).cache <==>
              k in t.cache && !(IsTracked(t, k) && TidOf(k) == tid && !Spared(k, report, rosterSafe))
    ensures InvalidatedOne(t, tid, report, rosterSafe).cache.Items <= t.cache.Items
  {
    if tid != "" && tid in t.tracked {
      assert ListOk(tid, t.tracked[tid]);
      RetainedHolds(t.tracked[tid], report, rosterSafe);
    } else {
      assert tid in t.tracked ==> ListOk(tid, t.tracked[tid]);
    }
  }

  /**
   Invalidation drops, of the keys tracked for its tournaments, exactly those it does not spare, from the table and from
   the cache; it leaves every other key alone.
   */
  lemma {:induction false} SparedKeysRemain(t: Table, tids: seq<string>, report: Report, rosterSafe: set<string>)
    requires TableOk(t)
    ensures TableOk(Invalidated(t, tids, report, rosterSafe))
    ensures forall k :: IsTracked(Invalidated(t, tids, report, rosterSafe), k) <==>
              IsTracked(t, k) && (TidOf(k) in tids ==> Spared(k, report, rosterSafe))
    ensures forall k :: k in Invalidated(t, tids, report, rosterSafe).cache <==>
              k in t.cache && !(IsTracked(t, k) && TidOf(k) in tids && !Spared(k, report, rosterSafe))
    ensures Invalidated(t, tids, report, rosterSafe).cache.Items <= t.cache.Items
  {
    if |tids| > 0 {
      var front, last := tids[..|tids| - 1], tids[|tids| - 1];
      assert tids == front + [last];
      SparedKeysRemain(t, front, report, rosterSafe);
      InvalidatedOneHolds(Invalidated(t, front, report, rosterSafe), last, report, rosterSafe);
    }
  }

  // ---------------------------------------------------------------- agreement

  predicate AgreesAt(t: Table, computed: map<string, string>, key: string) {
    IsTracked(t, key) && key in t.cache ==> FreshOf(computed, key) == Some(t.cache[key])
  }

  ghost predicate Inv(w: World) {
    TableOk(w.table) && forall key :: AgreesAt(w.table, w.computed, key)
  }

  /** Re-seeded keys hold their new values; the others are as they were, or no longer tracked. */
  lemma {:induction false} WarmedHolds(t: Table, keys: seq<string>, computed: map<string, string>)
    requires TableOk(t)
    ensures var u := Warmed(t, keys, computed);
            && TableOk(u)
            && (forall k :: k in keys && k in computed ==> k in u.cache && u.cache[k] == computed[k])
            && (forall k :: !(k in keys && k in computed) ==> (IsTracked(u, k) ==> IsTracked(t, k)) && (k in u.cache <==> k in t.cache))
            && (forall k :: !(k in keys && k in computed) && k in t.cache ==> u.cache[k] == t.cache[k])
  {
    if |keys| > 0 {
      var front, key := keys[..|keys| - 1], keys[|keys| - 1];
      assert keys == front + [key];
      WarmedHolds(t, front, computed);
      var before := Warmed(t, front, computed);
      if key in computed {
        TrackedTable(before.(cache := before.cache[key := computed[key]]), key);
        assert forall k :: IsTracked(before.(cache := before.cache[key := computed[key]]), k) <==> IsTracked(before, k);
      }
    }
  }

  /** The re-seeded keys of a mutation are those its report names. */
  ghost predicate WarmsAsReported(s: Step) {
    s.Mutate? && forall key :: key in s.report.warmed <==> key in s.warmedKeys && key in s.computed
  }

  /** Re-seeding pushes a tracked key out of its tournament's set when the set is full. */
  predicate PushedOut(t: Table, s: Step, key: string)
    requires s.Mutate?
  {
    IsTracked(t, key) && !IsTracked(Warmed(t, s.warmedKeys, s.computed), key)
  }

  /** Tracked and cached before the mutation, which neither re-seeds the key, nor pushes it out, nor sweeps it. */
  predicate KeptUnseeded(t: Table, s: Step, rosterSafe: set<string>, key: string)
    requires s.Mutate?
  {
    && IsTracked(t, key) && key in t.cache && !PushedOut(t, s, key)
    && key !in s.report.warmed && (TidOf(key) in s.tids ==> Spared(key, s.report, rosterSafe))
  }

  lemma KeptIffStillServed(w: World, s: Step, rosterSafe: set<string>, key: string)
    requires TableOk(w.table) && WarmsAsReported(s)
    ensures var v := Next(w, s, rosterSafe).table;
            && (KeptUnseeded(w.table, s, rosterSafe, key) <==> IsTracked(v, key) && key in v.cache && key !in s.report.warmed)
            && (KeptUnseeded(w.table, s, rosterSafe, key) ==> v.cache[key] == w.table.cache[key])
            && (key in s.report.warmed && key in v.cache ==> v.cache[key] == s.computed[key])
  {
    var u, v := Warmed(w.table, s.warmedKeys, s.computed), Next(w, s, rosterSafe).table;
    WarmedHolds(w.table, s.warmedKeys, s.computed);
    SparedKeysRemain(u, s.tids, s.report, rosterSafe);
    if key in v.cache {
      assert (key, v.cache[key]) in v.cache.Items;
    }
  }

  /**
   The exact condition, on the report and the table before: from a table in agreement, a mutation leaves it in agreement
   if and only if none of the tracked, cached keys that it neither re-seeds, pushes out nor sweeps has changed.
   */
  lemma AgreementIffNoSparedKeyChanged(w: World, s: Step, rosterSafe: set<string>)
    requires Inv(w) && WarmsAsReported(s)
    ensures (forall key :: AgreesAt(Next(w, s, rosterSafe).table, s.computed, key))
       <==> (forall key :: KeptUnseeded(w.table, s, rosterSafe, key) ==> !Changed(w, s.computed, key))
  {
    var v := Next(w, s, rosterSafe).table;
    forall key ensures AgreesAt(v, s.computed, key) <==> (KeptUnseeded(w.table, s, rosterSafe, key) ==> !Changed(w, s.computed, key)) {
      KeptIffStillServed(w, s, rosterSafe, key);
      assert AgreesAt(w.table, w.computed, key);
    }
  }

  /** With room for the re-seeded keys nothing is pushed out. */
  lemma {:induction false} RoomPushesNothingOut(t: Table, keys: seq<string>, computed: map<string, string>, tid: string)
    requires TableOk(t) && |TrackedOf(t, tid)| + |keys| <= KEYS_PER_TOURNAMENT_CAP
    ensures |TrackedOf(Warmed(t, keys, computed), tid)| <= |TrackedOf(t, tid)| + |keys|
    ensures forall key :: key in TrackedOf(t, tid) ==> key in TrackedOf(Warmed(t, keys, computed), tid)
  {
    if |keys| > 0 {
      RoomPushesNothingOut(t, keys[..|keys| - 1], computed, tid);
    }
  }

  lemma MutateKeeps(w: World, s: Step, rosterSafe: set<string>)
    requires Inv(w) && s.Mutate? && Enabled(w, s, rosterSafe)
    ensures Inv(Next(w, s, rosterSafe))
  {
    WarmedHolds(w.table, s.warmedKeys, s.computed);
    SparedKeysRemain(Warmed(w.table, s.warmedKeys, s.computed), s.tids, s.report, rosterSafe);
    forall key | KeptUnseeded(w.table, s, rosterSafe, key) ensures !Changed(w, s.computed, key) {
      assert ListOk(TidOf(key), TrackedOf(w.table, TidOf(key)));
    }
    AgreementIffNoSparedKeyChanged(w, s, rosterSafe);
  }

  lemma StepKeeps(w: World, s: Step, rosterSafe: set<string>)
    requires Inv(w) && Enabled(w, s, rosterSafe)
    ensures Inv(Next(w, s, rosterSafe))
  {
    match s
    case Get(key) =>
      if key != "" && key !in w.table.cache && key in w.computed {
        var seeded := w.table.(cache := w.table.cache[key := w.computed[key]]);
        TrackedTable(seeded, key);
        forall k ensures AgreesAt(Next(w, s, rosterSafe).table, w.computed, k) {
          assert AgreesAt(w.table, w.computed, k);
          assert IsTracked(seeded, k) <==> IsTracked(w.table, k);
        }
      }
    case Expire(expired) =>
      forall k ensures AgreesAt(Next(w, s, rosterSafe).table, w.computed, k) {
        assert AgreesAt(w.table, w.computed, k);
      }
    case Mutate(_, _, _, _) => MutateKeeps(w, s, rosterSafe);
  }

  ghost predicate ValidRun(w: World, steps: seq<Step>, rosterSafe: set<string>)
    decreases |steps|
  {
    |steps| == 0 || (Enabled(w, steps[0], rosterSafe) && ValidRun(Next(w, steps[0], rosterSafe), steps[1..], rosterSafe))
  }

  function Run(w: World, steps: seq<Step>, rosterSafe: set<string>): World
    decreases |steps|
  {
    if |steps| == 0 then w else Run(Next(w, steps[0], rosterSafe), steps[1..], rosterSafe)
  }

  lemma {:induction false} RunKeeps(w: World, steps: seq<Step>, rosterSafe: set<string>)
    requires Inv(w) && ValidRun(w, steps, rosterSafe)
    ensures Inv(Run(w, steps, rosterSafe))
    decreases |steps|
  {
    if |steps| > 0 {
      StepKeeps(w, steps[0], rosterSafe);
      RunKeeps(Next(w, steps[0], rosterSafe), steps[1..], rosterSafe);
    }
  }

  /**
   Over every run whose reports cover what changed, a read of a tracked key answers what a fresh computation would, and
   no tournament tracks more than 200 keys.
   */
  lemma TrackedReadsAreFresh(w: World, steps: seq<Step>, rosterSafe: set<string>, key: string)
    requires w.table == Table(map[], map[]) && ValidRun(w, steps, rosterSafe)
    ensures var v := Run(w, steps, rosterSafe);
            && (IsTracked(v.table, key) ==> Read(v.table, key, FreshOf(v.computed, key)).1 == FreshOf(v.computed, key))
            && |TrackedOf(v.table, TidOf(key))| <= 200 && NoRepeats(TrackedOf(v.table, TidOf(key)))
  {
    RunKeeps(w, steps, rosterSafe);
    var v := Run(w, steps, rosterSafe);
    assert AgreesAt(v.table, v.computed, key);
    assert TidOf(key) in v.table.tracked ==> ListOk(TidOf(key), v.table.tracked[TidOf(key)]);
  }

  // ---------------------------------------------------------------- which keys are tracked

  /** A new key of the same tournament pushes `key` out when it is the oldest of a full set. */
  predicate Pushes(t: Table, added: string, key: string) {
    && TidOf(added) == TidOf(key) && added !in TrackedOf(t, TidOf(key))
    && |TrackedOf(t, TidOf(key))| == 200 && TrackedOf(t, TidOf(key))[0] == key
  }

  /** So does one of the keys a mutation re-seeds, one after another. */
  predicate WarmingPushes(t: Table, keys: seq<string>, computed: map<string, string>, key: string) {
    |keys| > 0 &&
      (WarmingPushes(t, keys[..|keys| - 1], computed, key)
       || (keys[|keys| - 1] in computed && Pushes(Warmed(t, keys[..|keys| - 1], computed), keys[|keys| - 1], key)))
  }

  /** No step of the run pushes the key out of its tournament's set. */
  predicate NeverPushed(w: World, steps: seq<Step>, rosterSafe: set<string>, key: string)
    decreases |steps|
  {
    |steps| > 0 ==>
      && (steps[0].Get? ==> !Pushes(w.table, steps[0].key, key))
      && (steps[0].Mutate? ==> !WarmingPushes(w.table, steps[0].warmedKeys, steps[0].computed, key))
      && NeverPushed(Next(w, steps[0], rosterSafe), steps[1..], rosterSafe, key)
  }

  predicate CachedIsTracked(t: Table, key: string) {
    key in t.cache ==> IsTracked(t, key)
  }

  /** Tracking one more key keeps the others, unless it pushes one out. */
  lemma TrackingKeeps(t: Table, added: string, key: string)
    requires TableOk(t) && IsTracked(t, key) && !Pushes(t, added, key)
    ensures IsTracked(Tracked(t, added), key)
  {
    var tid := TidOf(key);
    if TidOf(added) == tid && !Rejected(tid) {
      assert ListOk(tid, TrackedOf(t, tid));
      CappedKeeps(TrackedOf(t, tid), added, key);
    }
  }

  lemma CappedKeeps(keys: seq<string>, added: string, key: string)
    requires key in keys && |keys| <= 200 && !(added !in keys && |keys| == 200 && keys[0] == key)
    ensures key in Capped(Added(keys, added))
  {
    var i :| 0 <= i < |keys| && keys[i] == key;
    if added !in keys && |keys| == 200 {
      assert Capped(Added(keys, added))[i - 1] == key;
    }
  }

  lemma TrackedFromNow(t: Table, value: string, key: string)
    requires TableOk(t) && !NoId(TidOf(key))
    ensures IsTracked(Tracked(t.(cache := t.cache[key := value]), key), key)
  {
    RejectedIff(TidOf(key));
    TrackedTable(t.(cache := t.cache[key := value]), key);
  }

  lemma CachingKeeps(t: Table, added: string, value: string, key: string)
    requires TableOk(t) && CachedIsTracked(t, key) && !NoId(TidOf(key)) && !Pushes(t, added, key)
    ensures CachedIsTracked(Tracked(t.(cache := t.cache[added := value]), added), key)
  {
    var seeded := t.(cache := t.cache[added := value]);
    if added == key {
      TrackedFromNow(t, value, key);
    } else if key in t.cache {
      assert TableOk(seeded);
      TrackingKeeps(seeded, added, key);
    }
    TrackedTable(seeded, added);
  }

  lemma {:induction false} WarmingKeeps(t: Table, keys: seq<string>, computed: map<string, string>, key: string)
    requires TableOk(t) && CachedIsTracked(t, key) && !NoId(TidOf(key)) && !WarmingPushes(t, keys, computed, key)
    ensures CachedIsTracked(Warmed(t, keys, computed), key)
  {
    if |keys| > 0 {
      var front, last := keys[..|keys| - 1], keys[|keys| - 1];
      WarmingKeeps(t, front, computed, key);
      WarmedHolds(t, front, computed);
      if last in computed {
        CachingKeeps(Warmed(t, front, computed), last, computed[last], key);
      }
    }
  }

  lemma StepKeepsTracked(w: World, s: Step, rosterSafe: set<string>, key: string)
    requires Inv(w) && Enabled(w, s, rosterSafe) && CachedIsTracked(w.table, key) && !NoId(TidOf(key))
    requires NeverPushed(w, [s], rosterSafe, key)
    ensures CachedIsTracked(Next(w, s, rosterSafe).table, key)
  {
    match s
    case Get(got) =>
      if got != "" && got !in w.table.cache && got in w.computed {
        CachingKeeps(w.table, got, w.computed[got], key);
      }
    case Expire(_) =>
    case Mutate(tids, computed, warmedKeys, report) =>
      WarmingKeeps(w.table, warmedKeys, computed, key);
      WarmedHolds(w.table, warmedKeys, computed);
      SparedKeysRemain(Warmed(w.table, warmedKeys, computed), tids, report, rosterSafe);
  }

  lemma {:induction false} RunKeepsTracked(w: World, steps: seq<Step>, rosterSafe: set<string>, key: string)
    requires Inv(w) && ValidRun(w, steps, rosterSafe) && CachedIsTracked(w.table, key) && !NoId(TidOf(key))
    requires NeverPushed(w, steps, rosterSafe, key)
    ensures CachedIsTracked(Run(w, steps, rosterSafe).table, key)
    decreases |steps|
  {
    if |steps| > 0 {
      StepKeepsTracked(w, steps[0], rosterSafe, key);
      StepKeeps(w, steps[0], rosterSafe);
      RunKeepsTracked(Next(w, steps[0], rosterSafe), steps[1..], rosterSafe, key);
    }
  }

  /**
   Over every run whose reports cover what changed: a read of any key that names a tournament, and that the cap never
   pushed out of its tournament's set, answers what a fresh computation would, whether it is a hit or a miss.
   */
  lemma EveryReadIsFresh(w: World, steps: seq<Step>, rosterSafe: set<string>, key: string)
    requires w.table == Table(map[], map[]) && ValidRun(w, steps, rosterSafe)
    requires !NoId(TidOf(key)) && NeverPushed(w, steps, rosterSafe, key)
    ensures var v := Run(w, steps, rosterSafe);
            && Read(v.table, key, FreshOf(v.computed, key)).1 == FreshOf(v.computed, key)
            && (key in v.table.cache ==> key in TrackedOf(v.table, TidOf(key)))
  {
    RunKeepsTracked(w, steps, rosterSafe, key);
    TrackedReadsAreFresh(w, steps, rosterSafe, key);
    if key !in Run(w, steps, rosterSafe).table.cache && key != "" {
      MissIsCached(Run(w, steps, rosterSafe).table, key, FreshOf(Run(w, steps, rosterSafe).computed, key));
    }
  }
}
