/**
 One Postgres connection: a transaction, its savepoints, and the aborted state a failed statement leaves it in until a
 rollback. `Db` is whatever tables the caller works on.
 */
module Postgres {
  import opened Options

  /** A statement with more bind parameters is refused. */
  const MAX_BIND_PARAMS := 65_535

  /** What happens to a COMMIT: it lands, it fails, or it lands and the reply is lost. */
  datatype CommitFate = Lands | Fails | ReplyLost

  class Session<Db> {
    var committed: Db
    var work: Option<Db>
    var savepoints: seq<Db>
    var aborted: bool

    constructor (db: Db)
      ensures committed == db && Idle()
    {
      committed, work, savepoints, aborted := db, None, [], false;
    }

    predicate Idle()
      reads this
    {
      work.None? && savepoints == [] && !aborted
    }

    predicate Open()
      reads this
    {
      work.Some? && !aborted
    }

    /** What a statement on this connection sees. */
    function Visible(): Db
      reads this
    {
      if work.Some? then work.value else committed
    }

    method Begin()
      requires Idle()
      modifies this
      ensures Open() && work == Some(committed) && savepoints == []
      ensures committed == old(committed)
    {
      work := Some(committed);
    }

    /** One statement. A failure inside a transaction aborts it: every later statement fails too. */
    method Execute(next: Db, fails: bool) returns (ok: bool)
      modifies this
      ensures savepoints == old(savepoints)
      ensures ok == (!fails && !old(aborted))
      ensures old(work).Some? ==> committed == old(committed) && work == Some(if ok then next else old(work).value)
      ensures old(work).Some? ==> aborted == !ok
      ensures old(work).None? ==> work.None? && aborted == old(aborted)
      ensures old(work).None? ==> committed == (if ok then next else old(committed))
    {
      ok := !fails && !aborted;
      if work.Some? {
        if ok {
          work := Some(next);
        }
        aborted := !ok;
      } else if ok {
        committed := next;
      }
    }

    method Savepoint() returns (ok: bool)
      requires work.Some?
      modifies this`savepoints
      ensures ok == !aborted
      ensures savepoints == if ok then old(savepoints) + [work.value] else old(savepoints)
    {
      ok := !aborted;
      if ok {
        savepoints := savepoints + [work.value];
      }
    }

    method ReleaseSavepoint()
      requires Open() && |savepoints| > 0
      modifies this`savepoints
      ensures savepoints == old(savepoints)[..|old(savepoints)| - 1]
    {
      savepoints := savepoints[..|savepoints| - 1];
    }

    /** Undoes everything since the savepoint and leaves the transaction usable. The savepoint stays defined. */
    method RollbackToSavepoint()
      requires work.Some? && |savepoints| > 0
      modifies this
      ensures Open() && work == Some(old(savepoints)[|old(savepoints)| - 1])
      ensures savepoints == old(savepoints) && committed == old(committed)
    {
      work := Some(savepoints[|savepoints| - 1]);
      aborted := false;
    }

    /** COMMIT of an aborted transaction is a rollback that reports no error. */
    method Commit(fate: CommitFate) returns (ok: bool)
      requires work.Some?
      modifies this
      ensures Idle()
      ensures ok == fate.Lands?
      ensures committed == if fate.Fails? || old(aborted) then old(committed) else old(work).value
    {
      ok := fate.Lands?;
      if !fate.Fails? && !aborted {
        committed := work.value;
      }
      work, savepoints, aborted := None, [], false;
    }

    method Rollback()
      modifies this
      ensures Idle() && committed == old(committed)
    {
      work, savepoints, aborted := None, [], false;
    }
  }
}
