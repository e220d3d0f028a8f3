/**
 Any number of durable commands in flight at once, over several processes: every SQL statement is a step, connections
 can die anywhere, and resends of one command overlap. An advisory lock on the hashed key orders them.
 */
module CommandProtocol {
  import opened Options
  import opened Postgres
  import opened CommandReceipts

  /** Where a call stands. Its transaction is open from `Begun` to `Inserted`. */
  datatype Phase =
    | Begun
    | Locked
    | Replaying(result: Result)
    | Fresh
    | AppliedNow(applied: Applied)
    | Inserted(applied: Applied)
    | Done(response: Response)

  /** `pending` are the effects its known commit released and it has not run yet; `ran` those it has. */
  datatype Call = Call(payload: Payload, phase: Phase, pending: seq<string>, ran: seq<string>)

  type CallId = nat

  datatype World = World(db: Db, locks: map<int, CallId>, calls: map<CallId, Call>)

  datatype Step =
    | Send(id: CallId, payload: Payload)
    | TakeLock(id: CallId)
    | Check(id: CallId)
    | Apply(id: CallId, applied: Applied, rollbackFails: bool)
    | InsertReceipt(id: CallId, fails: bool)
    | CommitCall(id: CallId, fate: CommitFate)
    | RunEffect(id: CallId)
    | Die(id: CallId)

  /** `pg_advisory_xact_lock(hashtextextended(key))`: unrelated keys may share a lock. */
  type KeyHash = CommandKey -> int

  predicate InTransaction(phase: Phase) {
    phase.Locked? || phase.Replaying? || phase.Fresh? || phase.AppliedNow? || phase.Inserted?
  }

  predicate HasPhase(w: World, id: CallId, p: Phase -> bool) {
    id in w.calls && p(w.calls[id].phase)
  }

  predicate Enabled(h: KeyHash, w: World, s: Step) {
    match s
    case Send(id, payload) => id !in w.calls && ValidIdentity(payload)
    case TakeLock(id) =>
      HasPhase(w, id, (p: Phase) => p.Begun?) && ValidIdentity(w.calls[id].payload) && h(KeyOf(w.calls[id].payload)) !in w.locks
    case Check(id) => HasPhase(w, id, (p: Phase) => p.Locked?) && ValidIdentity(w.calls[id].payload)
    case Apply(id, _, _) => HasPhase(w, id, (p: Phase) => p.Fresh?)
    case InsertReceipt(id, _) => HasPhase(w, id, (p: Phase) => p.AppliedNow? && p.applied.Returned?)
    case CommitCall(id, _) =>
      HasPhase(w, id, (p: Phase) => p.Replaying? || p.Inserted?) && ValidIdentity(w.calls[id].payload)
      && (w.calls[id].phase.Inserted? ==> w.calls[id].phase.applied.Returned?)
    case RunEffect(id) => id in w.calls && w.calls[id].pending != []
    case Die(id) => id in w.calls && !w.calls[id].phase.Done?
  }

  /** The transaction ends: its advisory lock goes with it. */
  function Finish(w: World, id: CallId, response: Response): World
    requires id in w.calls
  {
    w.(locks := map k | k in w.locks && w.locks[k] != id :: w.locks[k],
       calls := w.calls[id := w.calls[id].(phase := Done(response))])
  }

  function SetPhase(w: World, id: CallId, phase: Phase): World
    requires id in w.calls
  {
    w.(calls := w.calls[id := w.calls[id].(phase := phase)])
  }

  function Checked(w: World, id: CallId): World
    requires id in w.calls && ValidIdentity(w.calls[id].payload)
  {
    var p := w.calls[id].payload;
    if KeyOf(p) !in w.db.receipts then SetPhase(w, id, Fresh)
    else if w.db.receipts[KeyOf(p)].fingerprint != p.commandFingerprint.value then Finish(w, id, ConflictingIntent)
    else SetPhase(w, id, Replaying(w.db.receipts[KeyOf(p)].result))
  }

  function AppliedCall(w: World, id: CallId, applied: Applied, rollbackFails: bool): World
    requires id in w.calls
  {
    match applied
    case Threw => Finish(w, id, Failed)
    case Returned(result, _, _, _) =>
      if !Succeeded(result) then Finish(w, id, RefusalOf(result, rollbackFails)) else SetPhase(w, id, AppliedNow(applied))
  }

  /** In an aborted transaction the insert fails whatever it is. */
  function ReceiptInserted(w: World, id: CallId, fails: bool): World
    requires id in w.calls && w.calls[id].phase.AppliedNow? && w.calls[id].phase.applied.Returned?
  {
    var applied := w.calls[id].phase.applied;
    if fails || applied.poisoned then Finish(w, id, Failed) else SetPhase(w, id, Inserted(applied))
  }

  function CommittedCall(w: World, id: CallId, fate: CommitFate): World
    requires id in w.calls && ValidIdentity(w.calls[id].payload)
    requires w.calls[id].phase.Replaying? || (w.calls[id].phase.Inserted? && w.calls[id].phase.applied.Returned?)
  {
    var call := w.calls[id];
    match call.phase
    case Replaying(result) => Finish(w, id, if fate.Lands? then Answered(result, true) else Failed)
    case Inserted(applied) =>
      if fate.Fails? then Finish(w, id, Failed)
      else
        var key := KeyOf(call.payload);
        var db := Db(w.db.receipts[key := Receipt(call.payload.commandFingerprint.value, applied.result)],
                     w.db.log + [Commit(key, applied.writes)]);
        var ended := Finish(w.(db := db), id, if fate.Lands? then Answered(applied.result, false) else Failed);
        if fate.Lands? then ended.(calls := ended.calls[id := ended.calls[id].(pending := applied.effects)]) else ended
  }

  function Next(h: KeyHash, w: World, s: Step): World
    requires Enabled(h, w, s)
  {
    match s
    case Send(id, payload) => w.(calls := w.calls[id := Call(payload, Begun, [], [])])
    case TakeLock(id) => SetPhase(w.(locks := w.locks[h(KeyOf(w.calls[id].payload)) := id]), id, Locked)
    case Check(id) => Checked(w, id)
    case Apply(id, applied, rollbackFails) => AppliedCall(w, id, applied, rollbackFails)
    case InsertReceipt(id, fails) => ReceiptInserted(w, id, fails)
    case CommitCall(id, fate) => CommittedCall(w, id, fate)
    case RunEffect(id) =>
      var call := w.calls[id];
      w.(calls := w.calls[id := call.(pending := call.pending[1..], ran := call.ran + [call.pending[0]])])
    case Die(id) => Finish(w, id, Failed)
  }

  predicate Initial(w: World) {
    w.db == Db(map[], []) && w.locks == map[] && w.calls == map[]
  }

  // ---------------------------------------------------------------- what every step keeps

  /** A call between its lock and its end holds the lock of its key; what it read is still so. */
  predicate CallOk(h: KeyHash, w: World, id: CallId)
    requires id in w.calls
  {
    var call := w.calls[id];
    && ValidIdentity(call.payload)
    && var key := KeyOf(call.payload);
       && (InTransaction(call.phase) ==> h(key) in w.locks && w.locks[h(key)] == id)
       && (call.phase.Fresh? || call.phase.AppliedNow? || call.phase.Inserted? ==> key !in w.db.receipts)
       && (call.phase.AppliedNow? || call.phase.Inserted? ==>
             call.phase.applied.Returned? && Succeeded(call.phase.applied.result))
       && (call.phase.Inserted? ==> !call.phase.applied.poisoned)
       && (call.phase.Replaying? ==>
             key in w.db.receipts && w.db.receipts[key] == Receipt(call.payload.commandFingerprint.value, call.phase.result))
       && (call.phase.Done? && call.phase.response.Answered? ==>
             key in w.db.receipts && w.db.receipts[key] == Receipt(call.payload.commandFingerprint.value, call.phase.response.result))
       && (call.ran + call.pending != [] ==> KnownCommit(call.phase))
  }

  /** The call that committed the command and knows it did. */
  predicate KnownCommit(phase: Phase) {
    phase.Done? && phase.response.Answered? && !phase.response.deduplicated
  }

  ghost predicate Inv(h: KeyHash, w: World) {
    && Consistent(w.db)
    && (forall id :: id in w.calls ==> CallOk(h, w, id))
    && (forall a, b :: a in w.calls && b in w.calls && a != b ==> !SameKnownCommit(w, a, b))
  }

  predicate SameKnownCommit(w: World, a: CallId, b: CallId)
    requires a in w.calls && b in w.calls
  {
    && KnownCommit(w.calls[a].phase) && KnownCommit(w.calls[b].phase)
    && ValidIdentity(w.calls[a].payload) && ValidIdentity(w.calls[b].payload)
    && KeyOf(w.calls[a].payload) == KeyOf(w.calls[b].payload)
  }

  /**
   The interleaved protocol refines the atomic command: a step either leaves the database alone or changes it exactly as
   one whole command run on the database as it then stands.
   */
  lemma StepIsAtomic(h: KeyHash, w: World, s: Step)
    requires Inv(h, w) && Enabled(h, w, s)
    ensures Next(h, w, s).db == w.db
         || (s.CommitCall? && w.calls[s.id].phase.Inserted?
             && Next(h, w, s).db
                == Atomically(w.db, w.calls[s.id].payload, w.calls[s.id].phase.applied, Faults(false, false, false, false, false, s.fate)).0)
  {
    if s.CommitCall? {
      assert CallOk(h, w, s.id);
    }
  }

  // ---------------------------------------------------------------- proof of the invariant

  /** Only `id` moved, and the database only gained a receipt that no other call holding a lock could name. */
  lemma OtherCallKeeps(h: KeyHash, w: World, v: World, id: CallId, other: CallId)
    requires other in w.calls && other != id && other in v.calls && v.calls[other] == w.calls[other]
    requires CallOk(h, w, other)
    requires forall k :: k in w.locks && w.locks[k] == other ==> k in v.locks && v.locks[k] == other
    requires forall key :: key in w.db.receipts ==> key in v.db.receipts && v.db.receipts[key] == w.db.receipts[key]
    requires forall key :: key in v.db.receipts && key !in w.db.receipts ==> h(key) in w.locks && w.locks[h(key)] == id
    ensures CallOk(h, v, other)
  {
    var key := KeyOf(w.calls[other].payload);
    if InTransaction(w.calls[other].phase) {
      var k: int := h(key);
      assert k in w.locks && w.locks[k] == other;
      assert k in v.locks && v.locks[k] == other;
    }
  }

  lemma StepKeepsOthers(h: KeyHash, w: World, s: Step, other: CallId)
    requires Enabled(h, w, s) && other != s.id && other in w.calls && CallOk(h, w, other)
    requires s.id in w.calls ==> CallOk(h, w, s.id)
    ensures other in Next(h, w, s).calls && CallOk(h, Next(h, w, s), other)
  {
    OtherCallKeeps(h, w, Next(h, w, s), s.id, other);
  }

  lemma StepKeepsOwn(h: KeyHash, w: World, s: Step)
    requires Enabled(h, w, s) && (s.id in w.calls ==> CallOk(h, w, s.id))
    ensures s.id in Next(h, w, s).calls && CallOk(h, Next(h, w, s), s.id)
  {
    match s
    case CommitCall(id, fate) => CommitKeepsOwn(h, w, id, fate);
    case _ =>
  }

  lemma CommitKeepsOwn(h: KeyHash, w: World, id: CallId, fate: CommitFate)
    requires Enabled(h, w, CommitCall(id, fate)) && CallOk(h, w, id)
    ensures CallOk(h, CommittedCall(w, id, fate), id)
  {
  }

  lemma StepKeepsConsistent(h: KeyHash, w: World, s: Step)
    requires Inv(h, w) && Enabled(h, w, s)
    ensures Consistent(Next(h, w, s).db)
  {
    StepIsAtomic(h, w, s);
    if Next(h, w, s).db != w.db {
      CommandKeeps(w.db, w.calls[s.id].payload, w.calls[s.id].phase.applied, Faults(false, false, false, false, false, s.fate));
    }
  }

  lemma StepKeepsCall(h: KeyHash, w: World, s: Step, id: CallId)
    requires Inv(h, w) && Enabled(h, w, s) && id in Next(h, w, s).calls
    ensures CallOk(h, Next(h, w, s), id)
  {
    assert s.id in w.calls ==> CallOk(h, w, s.id);
    if id == s.id {
      StepKeepsOwn(h, w, s);
    } else {
      assert id in w.calls && CallOk(h, w, id);
      StepKeepsOthers(h, w, s, id);
    }
  }

  lemma StepKeeps(h: KeyHash, w: World, s: Step)
    requires Inv(h, w) && Enabled(h, w, s)
    ensures Inv(h, Next(h, w, s))
  {
    StepKeepsConsistent(h, w, s);
    forall id | id in Next(h, w, s).calls ensures CallOk(h, Next(h, w, s), id) {
      StepKeepsCall(h, w, s, id);
    }
    forall a, b | a in Next(h, w, s).calls && b in Next(h, w, s).calls && a != b ensures !SameKnownCommit(Next(h, w, s), a, b) {
      KnownCommitsDiffer(h, w, s, a, b);
    }
  }

  /** A call comes to know its commit only where no receipt was, so no other call can know one for that key. */
  lemma NewlyKnown(h: KeyHash, w: World, s: Step, id: CallId)
    requires Enabled(h, w, s) && id in Next(h, w, s).calls && (id in w.calls ==> CallOk(h, w, id))
    requires KnownCommit(Next(h, w, s).calls[id].phase)
    ensures id in w.calls && Next(h, w, s).calls[id].payload == w.calls[id].payload && ValidIdentity(w.calls[id].payload)
    ensures KnownCommit(w.calls[id].phase) || (id == s.id && KeyOf(w.calls[id].payload) !in w.db.receipts)
    ensures KnownCommit(w.calls[id].phase) ==> KeyOf(w.calls[id].payload) in w.db.receipts
  {
    if id == s.id {
      match s
      case CommitCall(_, fate) => assert KnownCommit(CommittedCall(w, id, fate).calls[id].phase);
      case _ =>
    }
  }

  lemma KnownCommitsDiffer(h: KeyHash, w: World, s: Step, a: CallId, b: CallId)
    requires Inv(h, w) && Enabled(h, w, s) && a != b
    requires a in Next(h, w, s).calls && b in Next(h, w, s).calls
    ensures !SameKnownCommit(Next(h, w, s), a, b)
  {
    if SameKnownCommit(Next(h, w, s), a, b) {
      NewlyKnown(h, w, s, a);
      NewlyKnown(h, w, s, b);
    }
  }

  ghost predicate ValidRun(h: KeyHash, w: World, steps: seq<Step>)
    decreases |steps|
  {
    |steps| == 0 || (Enabled(h, w, steps[0]) && ValidRun(h, Next(h, w, steps[0]), steps[1..]))
  }

  ghost function Run(h: KeyHash, w: World, steps: seq<Step>): World
    requires ValidRun(h, w, steps)
    decreases |steps|
  {
    if |steps| == 0 then w else Run(h, Next(h, w, steps[0]), steps[1..])
  }

  lemma {:induction false} RunKeeps(h: KeyHash, w: World, steps: seq<Step>)
    requires Inv(h, w) && ValidRun(h, w, steps)
    ensures Inv(h, Run(h, w, steps))
    decreases |steps|
  {
    if |steps| > 0 {
      StepKeeps(h, w, steps[0]);
      RunKeeps(h, Next(h, w, steps[0]), steps[1..]);
    }
  }

  /** A receipt, once committed, is what it says for ever. */
  lemma {:induction false} ReceiptsStand(h: KeyHash, w: World, steps: seq<Step>, key: CommandKey)
    requires Inv(h, w) && ValidRun(h, w, steps) && key in w.db.receipts
    ensures key in Run(h, w, steps).db.receipts && Run(h, w, steps).db.receipts[key] == w.db.receipts[key]
    decreases |steps|
  {
    if |steps| > 0 {
      StepKeeps(h, w, steps[0]);
      StepIsAtomic(h, w, steps[0]);
      if steps[0].CommitCall? {
        assert CallOk(h, w, steps[0].id);
      }
      ReceiptsStand(h, Next(h, w, steps[0]), steps[1..], key);
    }
  }

  /**
   Over any run of sends, resends, refusals, deaths and uncertain commits: a command's writes commit at most once, its
   receipt exists exactly when they did, every success of it carries the same result, and effects run only in the call
   that knows it committed.
   */
  lemma ExactlyOnce(h: KeyHash, w: World, steps: seq<Step>, key: CommandKey)
    requires Initial(w) && ValidRun(h, w, steps)
    ensures var v := Run(h, w, steps);
            && (forall i, j :: 0 <= i < j < |v.db.log| ==> !(v.db.log[i].key == key && v.db.log[j].key == key))
            && (key in v.db.receipts <==> exists i :: 0 <= i < |v.db.log| && v.db.log[i].key == key)
            && (forall id :: id in v.calls && ValidIdentity(v.calls[id].payload) && KeyOf(v.calls[id].payload) == key
                             && v.calls[id].phase.Done? && v.calls[id].phase.response.Answered? ==>
                             key in v.db.receipts && v.calls[id].phase.response.result == v.db.receipts[key].result)
            && (forall id :: id in v.calls && v.calls[id].ran + v.calls[id].pending != [] ==> KnownCommit(v.calls[id].phase))
            && (forall a, b :: a in v.calls && b in v.calls && a != b ==> !SameKnownCommit(v, a, b))
  {
    RunKeeps(h, w, steps);
    var v := Run(h, w, steps);
    forall id | id in v.calls ensures CallOk(h, v, id) {
    }
  }

  // ---------------------------------------------------------------- what a call is answered

  predicate IsDone(w: World, id: CallId, response: Response) {
    id in w.calls && w.calls[id].phase == Done(response)
  }

  /** A call that found the receipt of its intent and commits is answered from it, marked as a repetition. */
  lemma ReplayIsAnswered(h: KeyHash, w: World, id: CallId, fate: CommitFate)
    requires Inv(h, w) && Enabled(h, w, CommitCall(id, fate)) && w.calls[id].phase.Replaying?
    ensures var v, key := Next(h, w, CommitCall(id, fate)), KeyOf(w.calls[id].payload);
            && key in w.db.receipts && v.db == w.db
            && IsDone(v, id, if fate.Lands? then Answered(w.db.receipts[key].result, true) else Failed)
  {
    assert CallOk(h, w, id);
  }

  /** A call that applied and commits stores its receipt and its writes, and is answered unless the reply is lost. */
  lemma CommitIsAnswered(h: KeyHash, w: World, id: CallId, fate: CommitFate)
    requires Inv(h, w) && Enabled(h, w, CommitCall(id, fate)) && w.calls[id].phase.Inserted? && !fate.Fails?
    ensures var v, p, applied := Next(h, w, CommitCall(id, fate)), w.calls[id].payload, w.calls[id].phase.applied;
            && KeyOf(p) !in w.db.receipts
            && v.db == Db(w.db.receipts[KeyOf(p) := Receipt(p.commandFingerprint.value, applied.result)],
                          w.db.log + [Commit(KeyOf(p), applied.writes)])
            && IsDone(v, id, if fate.Lands? then Answered(applied.result, false) else Failed)
            && v.calls[id].pending == (if fate.Lands? then applied.effects else w.calls[id].pending)
  {
    assert CallOk(h, w, id);
  }

  /** Under the lock, the receipt decides. */
  lemma CheckDecides(h: KeyHash, w: World, id: CallId)
    requires Enabled(h, w, Check(id))
    ensures var v, p := Next(h, w, Check(id)), w.calls[id].payload;
            && v.db == w.db && v.calls[id].payload == p
            && (KeyOf(p) !in w.db.receipts ==> v.calls[id].phase.Fresh?)
            && (KeyOf(p) in w.db.receipts && w.db.receipts[KeyOf(p)].fingerprint == p.commandFingerprint.value ==>
                  v.calls[id].phase == Replaying(w.db.receipts[KeyOf(p)].result))
            && (KeyOf(p) in w.db.receipts && w.db.receipts[KeyOf(p)].fingerprint != p.commandFingerprint.value ==>
                  IsDone(v, id, ConflictingIntent))
  {
  }

  /** A refused command ends without a trace, retryable or not; a success goes on to its receipt. */
  lemma ApplyDecides(h: KeyHash, w: World, id: CallId, applied: Applied)
    requires Enabled(h, w, Apply(id, applied, false))
    ensures var v := Next(h, w, Apply(id, applied, false));
            && v.db == w.db
            && (applied.Threw? ==> IsDone(v, id, Failed))
            && (applied.Returned? && applied.result.success && !applied.result.error ==> v.calls[id].phase == AppliedNow(applied))
            && (applied.Returned? && (!applied.result.success || applied.result.error) ==>
                  IsDone(v, id, if applied.result.retryable then Unavailable else Refused(applied.result)))
  {
  }

  /** The next effect that waits is the one run. */
  lemma EffectIsRun(h: KeyHash, w: World, id: CallId)
    requires Enabled(h, w, RunEffect(id))
    ensures var call, after := w.calls[id], Next(h, w, RunEffect(id)).calls[id];
            after.ran == call.ran + [call.pending[0]] && [call.pending[0]] + after.pending == call.pending
  {
  }

  lemma RunCons(h: KeyHash, w: World, s: Step, rest: seq<Step>)
    requires Enabled(h, w, s) && ValidRun(h, Next(h, w, s), rest)
    ensures ValidRun(h, w, [s] + rest) && Run(h, w, [s] + rest) == Run(h, Next(h, w, s), rest)
  {
    assert ([s] + rest)[1..] == rest;
  }

  /** A new call takes its lock when nobody has it. */
  lemma SendsAndLocks(h: KeyHash, w: World, id: CallId, p: Payload)
    requires Inv(h, w) && id !in w.calls && ValidIdentity(p) && h(KeyOf(p)) !in w.locks
    ensures Enabled(h, w, Send(id, p)) && Enabled(h, Next(h, w, Send(id, p)), TakeLock(id))
    ensures var v := Next(h, Next(h, w, Send(id, p)), TakeLock(id));
            Inv(h, v) && Enabled(h, v, Check(id)) && v.db == w.db && v.calls[id].payload == p
  {
    StepKeeps(h, w, Send(id, p));
    StepKeeps(h, Next(h, w, Send(id, p)), TakeLock(id));
  }

  function Resend(id: CallId, p: Payload): seq<Step> {
    [Send(id, p)] + ([TakeLock(id)] + ([Check(id)] + ([CommitCall(id, Lands)] + [])))
  }

  /**
   In any state where nobody holds the lock, a resend of a committed command, left undisturbed, can run to its end and is
   answered what the receipt says; it commits nothing.
   */
  lemma ResendIsAnswered(h: KeyHash, w: World, id: CallId, p: Payload)
    requires Inv(h, w) && id !in w.calls && ValidIdentity(p) && h(KeyOf(p)) !in w.locks
    requires KeyOf(p) in w.db.receipts && w.db.receipts[KeyOf(p)].fingerprint == p.commandFingerprint.value
    ensures ValidRun(h, w, Resend(id, p)) && Run(h, w, Resend(id, p)).db == w.db
    ensures IsDone(Run(h, w, Resend(id, p)), id, Answered(w.db.receipts[KeyOf(p)].result, true))
  {
    SendsAndLocks(h, w, id, p);
    var sent := Next(h, w, Send(id, p));
    var locked := Next(h, sent, TakeLock(id));
    CheckDecides(h, locked, id);
    StepKeeps(h, locked, Check(id));
    var found := Next(h, locked, Check(id));
    ReplayIsAnswered(h, found, id, Lands);
    RunCons(h, found, CommitCall(id, Lands), []);
    RunCons(h, locked, Check(id), [CommitCall(id, Lands)] + []);
    RunCons(h, sent, TakeLock(id), [Check(id)] + ([CommitCall(id, Lands)] + []));
    RunCons(h, w, Send(id, p), [TakeLock(id)] + ([Check(id)] + ([CommitCall(id, Lands)] + [])));
  }

  function FirstSend(id: CallId, p: Payload, applied: Applied): seq<Step> {
    [Send(id, p)] + ([TakeLock(id)] + ([Check(id)] + ApplyAndCommit(id, applied)))
  }

  function ApplyAndCommit(id: CallId, applied: Applied): seq<Step> {
    [Apply(id, applied, false)] + ([InsertReceipt(id, false)] + ([CommitCall(id, Lands)] + []))
  }

  lemma AppliesAndCommits(h: KeyHash, w: World, id: CallId, applied: Applied)
    requires Inv(h, w) && id in w.calls && w.calls[id].phase.Fresh? && ValidIdentity(w.calls[id].payload)
    requires applied.Returned? && Succeeded(applied.result) && !applied.poisoned
    ensures ValidRun(h, w, ApplyAndCommit(id, applied))
    ensures var p, end := w.calls[id].payload, Run(h, w, ApplyAndCommit(id, applied));
            && IsDone(end, id, Answered(applied.result, false)) && end.calls[id].pending == applied.effects
            && end.db == Db(w.db.receipts[KeyOf(p) := Receipt(p.commandFingerprint.value, applied.result)],
                            w.db.log + [Commit(KeyOf(p), applied.writes)])
  {
    var made := Next(h, w, Apply(id, applied, false));
    StepKeeps(h, w, Apply(id, applied, false));
    var inserted := Next(h, made, InsertReceipt(id, false));
    StepKeeps(h, made, InsertReceipt(id, false));
    CommitIsAnswered(h, inserted, id, Lands);
    RunCons(h, inserted, CommitCall(id, Lands), []);
    RunCons(h, made, InsertReceipt(id, false), [CommitCall(id, Lands)] + []);
    RunCons(h, w, Apply(id, applied, false), [InsertReceipt(id, false)] + ([CommitCall(id, Lands)] + []));
  }

  /** A command without a receipt, left undisturbed, can run to its end: writes and receipt are stored, its result answered. */
  lemma FirstSendCommits(h: KeyHash, w: World, id: CallId, p: Payload, applied: Applied)
    requires Inv(h, w) && id !in w.calls && ValidIdentity(p) && h(KeyOf(p)) !in w.locks && KeyOf(p) !in w.db.receipts
    requires applied.Returned? && Succeeded(applied.result) && !applied.poisoned
    ensures ValidRun(h, w, FirstSend(id, p, applied))
    ensures var end := Run(h, w, FirstSend(id, p, applied));
            && IsDone(end, id, Answered(applied.result, false)) && end.calls[id].pending == applied.effects
            && end.db == Db(w.db.receipts[KeyOf(p) := Receipt(p.commandFingerprint.value, applied.result)],
                            w.db.log + [Commit(KeyOf(p), applied.writes)])
  {
    SendsAndLocks(h, w, id, p);
    var sent := Next(h, w, Send(id, p));
    var locked := Next(h, sent, TakeLock(id));
    CheckDecides(h, locked, id);
    StepKeeps(h, locked, Check(id));
    AppliesAndCommits(h, Next(h, locked, Check(id)), id, applied);
    RunCons(h, locked, Check(id), ApplyAndCommit(id, applied));
    RunCons(h, sent, TakeLock(id), [Check(id)] + ApplyAndCommit(id, applied));
    RunCons(h, w, Send(id, p), [TakeLock(id)] + ([Check(id)] + ApplyAndCommit(id, applied)));
  }

  // ---------------------------------------------------------------- effects

  /** The effects the call's `apply` deferred: nothing until it has run. */
  function Deferred(before: seq<string>, s: Step, id: CallId): seq<string> {
    if s.Apply? && s.id == id then (if s.applied.Returned? then s.applied.effects else []) else before
  }

  function DeferredBy(before: seq<string>, steps: seq<Step>, id: CallId): seq<string>
    decreases |steps|
  {
    if |steps| == 0 then before else DeferredBy(Deferred(before, steps[0], id), steps[1..], id)
  }

  /** A call carries what its `apply` deferred up to its commit, and runs it only once it knows the commit. */
  predicate EffectsOk(w: World, id: CallId, deferred: seq<string>) {
    id in w.calls ==>
      var call := w.calls[id];
      && (call.phase.AppliedNow? || call.phase.Inserted? ==> call.phase.applied.Returned? && call.phase.applied.effects == deferred)
      && call.ran + call.pending == if KnownCommit(call.phase) then deferred else []
  }

  lemma EffectRuns(w: World, id: CallId, deferred: seq<string>)
    requires id in w.calls && w.calls[id].pending != [] && EffectsOk(w, id, deferred)
    ensures var call := w.calls[id];
            EffectsOk(w.(calls := w.calls[id := call.(pending := call.pending[1..], ran := call.ran + [call.pending[0]])]), id, deferred)
  {
    var call := w.calls[id];
    assert call.pending == [call.pending[0]] + call.pending[1..];
    assert (call.ran + [call.pending[0]]) + call.pending[1..] == call.ran + call.pending;
  }

  lemma CommitReleases(h: KeyHash, w: World, id: CallId, fate: CommitFate, deferred: seq<string>)
    requires Enabled(h, w, CommitCall(id, fate)) && EffectsOk(w, id, deferred)
    ensures EffectsOk(CommittedCall(w, id, fate), id, deferred)
  {
  }

  lemma StepKeepsEffects(h: KeyHash, w: World, s: Step, id: CallId, deferred: seq<string>)
    requires Enabled(h, w, s) && EffectsOk(w, id, deferred)
    ensures EffectsOk(Next(h, w, s), id, Deferred(deferred, s, id))
  {
    if s.id == id {
      match s
      case RunEffect(_) => EffectRuns(w, id, deferred);
      case CommitCall(_, fate) => CommitReleases(h, w, id, fate, deferred);
      case _ =>
    } else {
      assert id in Next(h, w, s).calls ==> id in w.calls && Next(h, w, s).calls[id] == w.calls[id];
    }
  }

  lemma {:induction false} RunKeepsEffects(h: KeyHash, w: World, steps: seq<Step>, id: CallId, deferred: seq<string>)
    requires ValidRun(h, w, steps) && EffectsOk(w, id, deferred)
    ensures EffectsOk(Run(h, w, steps), id, DeferredBy(deferred, steps, id))
    decreases |steps|
  {
    if |steps| > 0 {
      StepKeepsEffects(h, w, steps[0], id, deferred);
      RunKeepsEffects(h, Next(h, w, steps[0]), steps[1..], id, Deferred(deferred, steps[0], id));
    }
  }

  /**
   Over every run: a call that knows its commit has run a prefix of the effects its `apply` deferred, in their order, and
   still has the rest to run; any other call has run none. Of all the sends of a command at most one knows its commit, so
   the effects run at most once, and exactly once when that call is through with them.
   */
  lemma EffectsRunOnce(h: KeyHash, w: World, steps: seq<Step>, id: CallId)
    requires Initial(w) && ValidRun(h, w, steps) && id in Run(h, w, steps).calls
    ensures var v := Run(h, w, steps);
            && v.calls[id].ran + v.calls[id].pending == (if KnownCommit(v.calls[id].phase) then DeferredBy([], steps, id) else [])
            && (KnownCommit(v.calls[id].phase) ==> v.calls[id].ran <= DeferredBy([], steps, id))
            && (KnownCommit(v.calls[id].phase) && v.calls[id].pending == [] ==> v.calls[id].ran == DeferredBy([], steps, id))
            && (forall other :: other in v.calls && other != id && KnownCommit(v.calls[id].phase) && v.calls[other].ran != [] ==>
                  KeyOfCall(v, other) != KeyOfCall(v, id))
  {
    RunKeepsEffects(h, w, steps, id, []);
    RunKeeps(h, w, steps);
    var v := Run(h, w, steps);
    forall other | other in v.calls && other != id && KnownCommit(v.calls[id].phase) && v.calls[other].ran != []
      ensures KeyOfCall(v, other) != KeyOfCall(v, id)
    {
      OtherCommandRan(h, v, id, other);
    }
  }

  lemma OtherCommandRan(h: KeyHash, w: World, id: CallId, other: CallId)
    requires Inv(h, w) && id in w.calls && other in w.calls && other != id
    requires KnownCommit(w.calls[id].phase) && w.calls[other].ran != []
    ensures KeyOfCall(w, other) != KeyOfCall(w, id)
  {
    assert CallOk(h, w, other) && CallOk(h, w, id);
    assert w.calls[other].ran + w.calls[other].pending != [];
  }

  function KeyOfCall(w: World, id: CallId): Option<CommandKey>
    requires id in w.calls
  {
    if ValidIdentity(w.calls[id].payload) then Some(KeyOf(w.calls[id].payload)) else None
  }
}
