/** Whole runs of saves, conditional saves and deletions: epochs, lost updates and the rejection counters. */
module SaveRuns {
  import opened Options
  import opened TournamentStorage

  /** `attempts` is the history of fence decisions since the process started. */
  datatype Attempt = Attempt(tournamentId: string, fenced: bool)

  datatype World = World(state: State, attempts: seq<Attempt>)

  datatype Step =
    | Tick(microseconds: nat)
    | Save(entries: seq<Entry>, epoch: nat)
    | Wholesale(wholesale: seq<Entry>, expected: map<string, Option<nat>>, durable: bool)
    | Delete(ids: set<string>)
    | Restart

  /** The fence decisions of a batch, in order. */
  function Attempts(s: State, entries: seq<Entry>, epoch: nat): seq<Attempt>
    decreases |entries|
  {
    if |entries| == 0 then []
    else
      var (after, result) := SavedOne(s, entries[0].record, epoch);
      match result
      case Written => [Attempt(entries[0].record.tournamentId, false)] + Attempts(after, entries[1..], epoch)
      case Fenced(id) => [Attempt(id, true)]
      case _ => []
  }

  function Next(w: World, s: Step): World {
    match s
    case Tick(microseconds) => w.(state := w.state.(clock := w.state.clock + microseconds))
    case Save(entries, epoch) =>
      World(SavedAll(w.state, entries, epoch).0, w.attempts + Attempts(w.state, entries, epoch))
    case Wholesale(entries, expected, durable) =>
      World(WholesaleSaved(w.state, entries, expected, durable).0,
            if FirstConflict(w.state.rows, expected, Keys(entries)).Some? then w.attempts
            else w.attempts + Attempts(w.state, entries, 0))
    case Delete(ids) => w.(state := w.state.(rows := w.state.rows - ids))
    case Restart => World(w.state.(rejections := map[]), [])
  }

  function Run(w: World, steps: seq<Step>): World
    decreases |steps|
  {
    if |steps| == 0 then w else Run(Next(w, steps[0]), steps[1..])
  }

  /** Rejections of `id` since its last successful write. */
  function Streak(attempts: seq<Attempt>, id: string): nat {
    if |attempts| == 0 then 0
    else
      var last := attempts[|attempts| - 1];
      var before := Streak(attempts[..|attempts| - 1], id);
      if last.tournamentId != id then before else if last.fenced then before + 1 else 0
  }

  predicate Counts(s: State, attempts: seq<Attempt>, id: string) {
    Count(s.rejections, id) == Streak(attempts, id) && (id in s.rejections <==> Streak(attempts, id) > 0)
  }

  ghost predicate Inv(w: World) {
    && (forall id :: id in w.state.rows ==> w.state.rows[id].updatedAt <= w.state.clock)
    && (forall id :: Counts(w.state, w.attempts, id))
  }

  // ---------------------------------------------------------------- one batch

  /** The row of `id` is the one it was, or was written after everything that was there. */
  predicate SameOrNewer(s: State, after: State, id: string) {
    id in after.rows ==>
      (id in s.rows && after.rows[id] == s.rows[id]) || s.clock < after.rows[id].updatedAt <= after.clock
  }

  predicate KeepsEpoch(s: State, after: State, id: string) {
    id in s.rows ==> id in after.rows && s.rows[id].epoch <= after.rows[id].epoch
  }

  lemma {:induction false} BatchMovesForward(s: State, entries: seq<Entry>, epoch: nat, id: string)
    ensures var after := SavedAll(s, entries, epoch).0;
            s.clock <= after.clock && SameOrNewer(s, after, id) && KeepsEpoch(s, after, id)
    decreases |entries|
  {
    if |entries| > 0 {
      BatchMovesForward(SavedOne(s, entries[0].record, epoch).0, entries[1..], epoch, id);
    }
  }

  /** A writer behind the row's owner epoch changes nothing of it, and is told so the moment it tries. */
  lemma {:induction false} LowerEpochChangesNothing(s: State, entries: seq<Entry>, epoch: nat, id: string)
    requires id in s.rows && epoch < s.rows[id].epoch && id != ""
    ensures var (after, result) := SavedAll(s, entries, epoch);
            && id in after.rows && after.rows[id] == s.rows[id]
            && (result.Written? ==> forall i :: 0 <= i < |entries| ==> entries[i].record.tournamentId != id)
            && (result == Fenced(id) ==> id in after.rejections)
    decreases |entries|
  {
    if |entries| > 0 {
      var (next, result) := SavedOne(s, entries[0].record, epoch);
      if result.Written? {
        LowerEpochChangesNothing(next, entries[1..], epoch, id);
        assert forall i :: 0 < i < |entries| ==> entries[i] == entries[1..][i - 1];
      }
    }
  }

  lemma {:induction false} BatchCounts(s: State, attempts: seq<Attempt>, entries: seq<Entry>, epoch: nat, id: string)
    requires Counts(s, attempts, id)
    ensures Counts(SavedAll(s, entries, epoch).0, attempts + Attempts(s, entries, epoch), id)
    decreases |entries|
  {
    if |entries| == 0 {
      assert attempts + [] == attempts;
    } else {
      var (next, result) := SavedOne(s, entries[0].record, epoch);
      if result.Written? {
        var a := [Attempt(entries[0].record.tournamentId, false)];
        var rest := Attempts(next, entries[1..], epoch);
        BatchCounts(next, attempts + a, entries[1..], epoch, id);
        assert attempts + a + rest == attempts + (a + rest);
        assert Attempts(s, entries, epoch) == a + rest;
        assert SavedAll(s, entries, epoch).0 == SavedAll(next, entries[1..], epoch).0;
      } else if !result.Fenced? {
        assert attempts + [] == attempts;
      }
    }
  }

  /** A deletion takes exactly its rows away, whoever owned them; the next owner starts at any epoch. */
  lemma DeletedCanBeSavedAgain(w: World, ids: set<string>, record: Record, epoch: nat)
    requires record.tournamentId in ids && record.tournamentId != "" && record.owned
    ensures var v := Next(w, Delete(ids));
            && (forall id :: id in v.state.rows <==> id in w.state.rows && id !in ids)
            && (forall id :: id in v.state.rows ==> v.state.rows[id] == w.state.rows[id])
            && SavedOne(v.state, record, epoch).1 == Written
  {
  }

  // ---------------------------------------------------------------- steps and runs

  predicate Spares(s: Step, id: string) {
    s.Delete? ==> id !in s.ids
  }

  lemma StepMovesForward(w: World, s: Step, id: string)
    ensures w.state.clock <= Next(w, s).state.clock && SameOrNewer(w.state, Next(w, s).state, id)
    ensures Spares(s, id) ==> KeepsEpoch(w.state, Next(w, s).state, id)
  {
    match s
    case Save(entries, epoch) => BatchMovesForward(w.state, entries, epoch, id);
    case Wholesale(entries, expected, durable) => BatchMovesForward(w.state, entries, 0, id);
    case _ =>
  }

  lemma StepKeeps(w: World, s: Step)
    requires Inv(w)
    ensures Inv(Next(w, s))
  {
    var v := Next(w, s);
    forall id ensures Counts(v.state, v.attempts, id) {
      assert Counts(w.state, w.attempts, id);
      match s
      case Save(entries, epoch) => BatchCounts(w.state, w.attempts, entries, epoch, id);
      case Wholesale(entries, expected, durable) => BatchCounts(w.state, w.attempts, entries, 0, id);
      case _ =>
    }
    forall id | id in v.state.rows ensures v.state.rows[id].updatedAt <= v.state.clock {
      StepMovesForward(w, s, id);
    }
  }

  lemma {:induction false} RunKeeps(w: World, steps: seq<Step>)
    requires Inv(w)
    ensures Inv(Run(w, steps))
    decreases |steps|
  {
    if |steps| > 0 {
      StepKeeps(w, steps[0]);
      RunKeeps(Next(w, steps[0]), steps[1..]);
    }
  }

  lemma {:induction false} RunMovesForward(w: World, steps: seq<Step>, id: string)
    requires Inv(w)
    ensures w.state.clock <= Run(w, steps).state.clock && SameOrNewer(w.state, Run(w, steps).state, id)
    decreases |steps|
  {
    if |steps| > 0 {
      StepMovesForward(w, steps[0], id);
      StepKeeps(w, steps[0]);
      RunMovesForward(Next(w, steps[0]), steps[1..], id);
    }
  }

  /** Between deletions of a tournament its owner epoch never decreases. */
  lemma {:induction false} EpochNeverDecreases(w: World, steps: seq<Step>, id: string)
    requires forall i :: 0 <= i < |steps| ==> Spares(steps[i], id)
    ensures KeepsEpoch(w.state, Run(w, steps).state, id)
    decreases |steps|
  {
    if |steps| > 0 {
      assert Spares(steps[0], id);
      StepMovesForward(w, steps[0], id);
      forall i | 0 <= i < |steps[1..]| ensures Spares(steps[1..][i], id) {
        assert steps[1..][i] == steps[i + 1];
      }
      EpochNeverDecreases(Next(w, steps[0]), steps[1..], id);
    }
  }

  /** The counter of a tournament is the number of its fence rejections since its last write, with no entry for none. */
  lemma RejectionsAreStreaks(steps: seq<Step>, id: string)
    ensures var v := Run(World(State(0, map[], map[]), []), steps);
            Count(v.state.rejections, id) == Streak(v.attempts, id) && (id in v.state.rejections <==> Streak(v.attempts, id) > 0)
  {
    var w := World(State(0, map[], map[]), []);
    RunKeeps(w, steps);
    assert Counts(Run(w, steps).state, Run(w, steps).attempts, id);
  }

  // ---------------------------------------------------------------- lost updates

  predicate SameRow(a: Rows, b: Rows, id: string) {
    (id in a <==> id in b) && (id in a ==> a[id] == b[id])
  }

  /** Rewritten within the millisecond of the write that was read. */
  predicate RewrittenInTheSameMillisecond(a: Rows, b: Rows, id: string) {
    id in a && id in b && a[id].updatedAt < b[id].updatedAt && a[id].updatedAt / 1000 == b[id].updatedAt / 1000
  }

  /**
   A caller who names the version read at `w` is let through at the end of any run exactly when the row is still the one
   read, or every trace of the change is lost within one millisecond. Otherwise its save answers a conflict and changes
   nothing.
   */
  lemma ConditionalSaveSeesEveryChange(w: World, steps: seq<Step>, entries: seq<Entry>,
                                       expected: map<string, Option<nat>>, durable: bool, tid: string)
    requires Inv(w) && tid in Keys(entries) && tid in expected && expected[tid] == Version(w.state.rows, tid)
    ensures var before, now := w.state.rows, Run(w, steps).state.rows;
            AsExpected(now, expected, tid) <==> SameRow(before, now, tid) || RewrittenInTheSameMillisecond(before, now, tid)
    ensures var v := Run(w, steps);
            !SameRow(w.state.rows, v.state.rows, tid) && !RewrittenInTheSameMillisecond(w.state.rows, v.state.rows, tid) ==>
              WholesaleSaved(v.state, entries, expected, durable).1.Conflicting?
              && WholesaleSaved(v.state, entries, expected, durable).0 == v.state
  {
    RunMovesForward(w, steps, tid);
    NoConflictIffAllAsExpected(Run(w, steps).state.rows, expected, Keys(entries));
  }

  lemma {:induction false} WrittenBatchTouches(s: State, entries: seq<Entry>, epoch: nat, id: string)
    requires SavedAll(s, entries, epoch).1.Written?
    requires forall k :: k in s.rows ==> s.rows[k].updatedAt <= s.clock
    ensures SameRow(s.rows, SavedAll(s, entries, epoch).0.rows, id)
       <==> forall i :: 0 <= i < |entries| ==> entries[i].record.tournamentId != id
    ensures !SameRow(s.rows, SavedAll(s, entries, epoch).0.rows, id) ==>
              id in SavedAll(s, entries, epoch).0.rows && s.clock < SavedAll(s, entries, epoch).0.rows[id].updatedAt
    decreases |entries|
  {
    if |entries| > 0 {
      var next := SavedOne(s, entries[0].record, epoch).0;
      WrittenBatchTouches(next, entries[1..], epoch, id);
      assert forall i :: 0 < i < |entries| ==> entries[i] == entries[1..][i - 1];
      if entries[0].record.tournamentId == id {
        BatchMovesForward(next, entries[1..], epoch, id);
      }
    }
  }

  /**
   The check goes by the key a record is filed under, the write by the record's own id. So a save that goes through
   replaces a row at another version than the one named exactly when a record with that id is in it, and such a record
   is then filed under another key.
   */
  lemma StaleRowReplacedIffMisfiled(w: World, entries: seq<Entry>, expected: map<string, Option<nat>>, durable: bool, tid: string)
    requires Inv(w) && tid in expected && expected[tid] != Version(w.state.rows, tid)
    requires WholesaleSaved(w.state, entries, expected, durable).1.Saved?
    ensures !SameRow(w.state.rows, WholesaleSaved(w.state, entries, expected, durable).0.rows, tid)
       <==> exists i :: 0 <= i < |entries| && entries[i].record.tournamentId == tid && entries[i].key != tid
  {
    NoConflictIffAllAsExpected(w.state.rows, expected, Keys(entries));
    WrittenBatchTouches(w.state, entries, 0, tid);
    forall i | 0 <= i < |entries| ensures entries[i].key != tid {
      assert AsExpected(w.state.rows, expected, Keys(entries)[i]);
    }
  }

  /** Such a save: "b" is at version 5, the caller says 4, and the record of "b" is filed under "a". */
  lemma MisfiledExample()
    ensures var s := State(5000, map["b" := Row(5000, 0, "theirs")], map[]);
            var (after, answer) := WholesaleSaved(s, [Entry("a", Record("b", true, "ours"))], map["b" := Some(4)], true);
            answer.Saved? && after.rows == map["b" := Row(5001, 0, "ours")]
  {
    var s := State(5000, map["b" := Row(5000, 0, "theirs")], map[]);
    var entries := [Entry("a", Record("b", true, "ours"))];
    assert Keys(entries) == ["a"];
    assert FirstConflict(s.rows, map["b" := Some(4)], ["a"]) == FirstConflict(s.rows, map["b" := Some(4)], []);
    assert SavedAll(s, entries, 0) == SavedAll(SavedOne(s, entries[0].record, 0).0, [], 0);
  }
}
