/**
 Durable commands: a mutation sent with a `commandId` commits together with a receipt, and a resend is answered from
 the receipt.
 */
module CommandReceipts {
  import opened Options
  import opened Postgres
  import opened CommandTransaction

  /** Values that are not strings arrive as `None`. */
  datatype Payload = Payload(commandId: Option<string>, commandActor: Option<string>, commandFingerprint: Option<string>)

  datatype CommandKey = CommandKey(actor: string, commandId: string)

  /** What `apply` answers; `body` stands for everything else in the result. */
  datatype Result = Result(success: bool, error: bool, retryable: bool, body: string)

  datatype Receipt = Receipt(fingerprint: string, result: Result)

  /** A committed command: its key and the writes `apply` made on the command's connection. */
  datatype Commit = Commit(key: CommandKey, writes: seq<string>)

  datatype Db = Db(receipts: map<CommandKey, Receipt>, log: seq<Commit>)

  /**
   One run of `apply`: it throws, or it returns having made writes and deferred effects. `poisoned` is a swallowed SQL
   error outside any savepoint, which leaves the transaction aborted.
   */
  datatype Applied = Threw | Returned(result: Result, writes: seq<string>, effects: seq<string>, poisoned: bool)

  datatype Response =
    | BadIdentity
    | ConflictingIntent
    | Unavailable
    | Refused(result: Result)
    | Answered(result: Result, deduplicated: bool)
    | Failed

  /** Which of the command's own statements the database refuses, and what becomes of its COMMIT. */
  datatype Faults = Faults(begin: bool, lock: bool, read: bool, rollback: bool, insert: bool, commit: CommitFate)

  predicate CommandIdChar(c: char) {
    'a' <= c <= 'z' || 'A' <= c <= 'Z' || '0' <= c <= '9' || c == '_' || c == '-'
  }

  predicate HexChar(c: char) {
    'a' <= c <= 'f' || '0' <= c <= '9'
  }

  predicate ValidIdentity(p: Payload) {
    && p.commandId.Some? && 8 <= |p.commandId.value| <= 128
    && (forall i :: 0 <= i < |p.commandId.value| ==> CommandIdChar(p.commandId.value[i]))
    && p.commandActor.Some? && 0 < |p.commandActor.value| <= 256
    && p.commandFingerprint.Some? && |p.commandFingerprint.value| == 64
    && (forall i :: 0 <= i < 64 ==> HexChar(p.commandFingerprint.value[i]))
  }

  function KeyOf(p: Payload): CommandKey
    requires ValidIdentity(p)
  {
    CommandKey(p.commandActor.value, p.commandId.value)
  }

  predicate Succeeded(r: Result) {
    r.success && !r.error
  }

  /** A refused command is rolled back; when even that statement fails, the caller learns nothing. */
  function RefusalOf(result: Result, rollbackFails: bool): Response {
    if rollbackFails then Failed else if result.retryable then Unavailable else Refused(result)
  }

  /** The whole command as one atomic action: the database after it, the answer, and the effects it ran. */
  function Atomically(db: Db, p: Payload, applied: Applied, faults: Faults): (Db, Response, seq<string>) {
    if !ValidIdentity(p) then (db, BadIdentity, [])
    else if faults.begin || faults.lock || faults.read then (db, Failed, [])
    else
      var key, fingerprint := KeyOf(p), p.commandFingerprint.value;
      if key in db.receipts then
        if db.receipts[key].fingerprint != fingerprint then (db, ConflictingIntent, [])
        else (db, if faults.commit.Lands? then Answered(db.receipts[key].result, true) else Failed, [])
      else
        match applied
        case Threw => (db, Failed, [])
        case Returned(result, writes, effects, poisoned) =>
          if !Succeeded(result) then (db, RefusalOf(result, faults.rollback), [])
          else if faults.insert || poisoned || faults.commit.Fails? then (db, Failed, [])
          else
            (Db(db.receipts[key := Receipt(fingerprint, result)], db.log + [Commit(key, writes)]),
             if faults.commit.Lands? then Answered(result, false) else Failed,
             if faults.commit.Lands? then effects else [])
  }

  /** Writes made by `apply` on the borrowed connection, visible only inside the command's transaction. */
  method ApplyOn(client: Session<Db>, key: CommandKey, writes: seq<string>, poisoned: bool)
    requires client.Open()
    modifies client
    ensures client.committed == old(client.committed)
    ensures client.work.Some? && client.aborted == poisoned
    ensures client.work.value == Db(old(client.work.value).receipts, old(client.work.value).log + [Commit(key, writes)])
  {
    var done: seq<string> := [];
    var first := client.work.value;
    var ok := client.Execute(Db(first.receipts, first.log + [Commit(key, done)]), false);
    for i := 0 to |writes|
      invariant client.Open() && client.committed == old(client.committed)
      invariant done == writes[..i]
      invariant client.work.value == Db(first.receipts, first.log + [Commit(key, done)])
    {
      done := done + [writes[i]];
      ok := client.Execute(Db(first.receipts, first.log + [Commit(key, done)]), false);
    }
    assert done == writes;
    if poisoned {
      ok := client.Execute(client.work.value, true);
    }
  }

  /** Post-commit effects, in the order they were deferred; a failed one is logged and the rest still run. */
  method RunEffects(effects: seq<string>, fails: set<nat>) returns (ran: seq<string>, logged: seq<string>)
    ensures ran == effects
    ensures forall e :: e in logged <==> exists i :: 0 <= i < |effects| && i in fails && effects[i] == e
  {
    ran, logged := [], [];
    for i := 0 to |effects|
      invariant ran == effects[..i]
      invariant forall e :: e in logged <==> exists j :: 0 <= j < i && j in fails && effects[j] == e
    {
      ran := ran + [effects[i]];
      if i in fails {
        logged := logged + [effects[i]];
      }
    }
  }

  /** No statement of the command is refused, and its COMMIT lands and says so. */
  predicate Undisturbed(faults: Faults) {
    !faults.begin && !faults.lock && !faults.read && !faults.rollback && !faults.insert && faults.commit.Lands?
  }

  /**
   What an undisturbed command owes its caller: a stored receipt answers a resend of the same intent and refuses another;
   without one, a success is stored with its writes and its effects run, and whatever else leaves no trace.
   */
  predicate AnsweredRightly(db: Db, after: Db, p: Payload, applied: Applied, response: Response, ran: seq<string>) {
    if !ValidIdentity(p) then response.BadIdentity? && after == db && ran == []
    else if KeyOf(p) in db.receipts then
      && after == db && ran == []
      && response == if db.receipts[KeyOf(p)].fingerprint == p.commandFingerprint.value
                     then Answered(db.receipts[KeyOf(p)].result, true) else ConflictingIntent
    else if applied.Threw? then response.Failed? && after == db && ran == []
    else if !applied.result.success || applied.result.error then
      && after == db && ran == []
      && response == if applied.result.retryable then Unavailable else Refused(applied.result)
    else if applied.poisoned then response.Failed? && after == db && ran == []
    else
      && response == Answered(applied.result, false) && ran == applied.effects
      && KeyOf(p) in after.receipts && after.receipts[KeyOf(p)] == Receipt(p.commandFingerprint.value, applied.result)
      && after.receipts - {KeyOf(p)} == db.receipts && after.log == db.log + [Commit(KeyOf(p), applied.writes)]
  }

  lemma AnswersRightly(db: Db, p: Payload, applied: Applied, faults: Faults)
    requires Undisturbed(faults)
    ensures var (after, response, ran) := Atomically(db, p, applied, faults); AnsweredRightly(db, after, p, applied, response, ran)
  {
  }

  /** Eight to 128 characters, each a letter, a digit, `_` or `-`. */
  lemma IdentityAccepted(n: nat, i: nat, c: char, actor: string, fingerprint: string)
    requires 0 < |actor| <= 256 && |fingerprint| == 64 && forall k :: 0 <= k < 64 ==> HexChar(fingerprint[k])
    requires i < n
    ensures var id := seq(n, k => 'a')[i := c];
            (ValidIdentity(Payload(Some(id), Some(actor), Some(fingerprint))) <==>
             8 <= n <= 128 && ('a' <= c <= 'z' || 'A' <= c <= 'Z' || '0' <= c <= '9' || c == '_' || c == '-'))
    ensures forall p: Payload :: p.commandId.None? || p.commandActor.None? || p.commandFingerprint.None? ==> !ValidIdentity(p)
  {
    var id := seq(n, k => 'a')[i := c];
    assert id[i] == c && forall k :: 0 <= k < n && k != i ==> id[k] == 'a';
  }

  /** `CommandReceipts.execute`, statement by statement on its own connection. */
  method Execute(client: Session<Db>, payload: Payload, applied: Applied, faults: Faults, effectFails: set<nat>)
    returns (response: Response, ran: seq<string>)
    requires client.Idle()
    modifies client
    ensures client.Idle()
    ensures (client.committed, response, ran) == Atomically(old(client.committed), payload, applied, faults)
    ensures Undisturbed(faults) ==> AnsweredRightly(old(client.committed), client.committed, payload, applied, response, ran)
  {
    if Undisturbed(faults) {
      AnswersRightly(client.committed, payload, applied, faults);
    }
    ran := [];
    if !ValidIdentity(payload) {
      return BadIdentity, ran;
    }
    if faults.begin {
      return Failed, ran;
    }
    client.Begin();
    var key := KeyOf(payload);
    var ok := client.Execute(client.Visible(), faults.lock);
    if !ok {
      client.Rollback();
      return Failed, ran;
    }
    ok := client.Execute(client.Visible(), faults.read);
    if !ok {
      client.Rollback();
      return Failed, ran;
    }
    var deferred: seq<string> := [];
    var receipts := client.Visible().receipts;
    if key in receipts {
      if receipts[key].fingerprint != payload.commandFingerprint.value {
        client.Rollback();
        return ConflictingIntent, ran;
      }
      response := Answered(receipts[key].result, true);
    } else {
      if applied.Threw? {
        client.Rollback();
        return Failed, ran;
      }
      var context := new RequestContext();
      context.Enter(0);
      context.Apply(applied.effects);
      assert [] + applied.effects == applied.effects;
      ApplyOn(client, key, applied.writes, applied.poisoned);
      if !Succeeded(applied.result) {
        client.Rollback();
        return RefusalOf(applied.result, faults.rollback), ran;
      }
      response := Answered(applied.result, false);
      var receipt := Receipt(payload.commandFingerprint.value, applied.result);
      ok := client.Execute(client.Visible().(receipts := receipts[key := receipt]), faults.insert);
      if !ok {
        client.Rollback();
        return Failed, ran;
      }
      deferred := context.store.value.afterCommit;
      assert deferred == applied.effects;
    }
    ok := client.Commit(faults.commit);
    if !ok {
      client.Rollback();
      return Failed, ran;
    }
    var logged;
    ran, logged := RunEffects(deferred, effectFails);
  }

  // ---------------------------------------------------------------- what the receipts mean

  /** The log's commands are distinct, and a receipt exists for exactly those in it. */
  ghost predicate Consistent(db: Db) {
    && (forall i, j :: 0 <= i < j < |db.log| ==> db.log[i].key != db.log[j].key)
    && (forall key :: key in db.receipts <==> exists i :: 0 <= i < |db.log| && db.log[i].key == key)
    && (forall key :: key in db.receipts ==> Succeeded(db.receipts[key].result))
  }

  /** A command keeps the receipts consistent, never rewrites one, and answers with what its receipt says. */
  lemma CommandKeeps(db: Db, p: Payload, applied: Applied, faults: Faults)
    requires Consistent(db)
    ensures var (after, response, ran) := Atomically(db, p, applied, faults);
            && Consistent(after)
            && (forall key :: key in db.receipts ==> key in after.receipts && after.receipts[key] == db.receipts[key])
            && db.log <= after.log
            && (response.Answered? ==> ValidIdentity(p) && KeyOf(p) in after.receipts
                                       && response.result == after.receipts[KeyOf(p)].result
                                       && after.receipts[KeyOf(p)].fingerprint == p.commandFingerprint.value
                                       && (response.deduplicated <==> KeyOf(p) in db.receipts))
            && (ran != [] ==> response.Answered? && !response.deduplicated)
            && (after != db ==> ValidIdentity(p) && KeyOf(p) !in db.receipts)
  {
    var (after, response, ran) := Atomically(db, p, applied, faults);
    if after != db {
      var key := KeyOf(p);
      assert after.log == db.log + [after.log[|db.log|]] && after.log[|db.log|].key == key;
      forall k ensures k in after.receipts <==> exists i :: 0 <= i < |after.log| && after.log[i].key == k {
        if k in db.receipts {
          var i :| 0 <= i < |db.log| && db.log[i].key == k;
          assert after.log[i].key == k;
        }
        if i :| 0 <= i < |after.log| && after.log[i].key == k {
          assert i < |db.log| ==> db.log[i].key == k;
        }
      }
    }
  }
}
