# Competition Factory Server: the write path, modelled and proved

This project models the protocols by which the Competition Factory Server stores a tournament and keeps everything
derived from it in step, and proves what they keep over every run. Each SQL statement or transaction is one atomic step;
between two of them anybody else may step.

- **Projection outbox.** `ReadModel` is the queue consumer's rule for each row; `SpanInterleaving` shows that it does not
  matter how a span's rows are shuffled with other writers'. `Postgres` is a connection with its transaction, savepoints
  and aborted state. `OutboxTables` and `OutboxStorage` are the tables and the storage class's statements on them.
  `OutboxProtocol`, `OutboxInvariant`, `OutboxSteps` and `OutboxConvergence` are saves, deletes, span producers and
  rebuilds over any number of tournaments: the read model converges, and no demanded span is lost. Deletes do not take
  the tournament lock, so a delete that overlaps a save can leave the two apart. `OutboxRaces` takes every interleaving of
  a delete's two steps with a save's, and gives for each the exact condition under which they agree. Two concrete runs
  show them apart: a save between the delete's two steps, and a mutation that read its record before a delete and saves
  after it.
- **Durable commands.** `CommandTransaction` and `CommandReceipts` are one command on one connection, equal to one atomic
  action; `CommandProtocol` interleaves any number of calls statement by statement, with the hashed advisory lock, and is
  exactly-once. `Json` and `CanonicalIntent` are the fingerprint that tells two commands apart.
- **Tournament mutex.** `TournamentMutex` is the lock table; `MutexProtocol`, `MutexSafety`, `MutexRuns` and
  `MutexProgress` are any number of requests acquiring sorted id lists with timeouts: mutual exclusion, FIFO hand-over,
  and no schedule of turns that starves a request. A list with a repeated id waits behind itself; a lone request enters
  exactly when its list has no repetition.
- **Guarded saves.** `TournamentStorage` and `SaveRuns`: the owner-epoch fence, batches, the conditional wholesale save.
  Versions are compared in milliseconds, so a change is missed exactly when it falls within the millisecond of the
  version read. The check goes by the key a record is filed under and the write by the record's own id; the two differ
  exactly for a record filed under another id.
- **Derived state.** `Participation` and `ParticipationRuns` (the index and its fingerprint skip), `CacheTable` and
  `CacheRuns` (the side table of cache keys), `LoadProfile`, `LoadRuns` and `LoadBounds` (buffered telemetry; a flush
  that keeps failing can outgrow the one statement it is written by, and then never lands), `CalendarRow`, `Calendar`
  and `CalendarReads` (the calendar row projection, scoped and paged reads, updates), `AuditCounters` and `AuditRuns`
  (persisted failure counters).
- **Token families and mirrored queue.** `RefreshTokens` and `TokenFamilies`; `MutationMirror` and `MirrorRuns`.

`Options`, `Ordering` and `Rendering` hold the shared vocabulary: optional values, the order strings sort by, decimal
numbers and keys joined on `|`.

Where the code changes state step by step the model is a class whose methods are tied, by their postconditions, to
functions of the old state; the state machines are built from the same functions.

Assumptions, stated once:

- Every write gets a fresh stamp from `NOW()`. The fence compares full microseconds; `serverUpdatedAt` keeps milliseconds.
- SHA-256 is injective, so a digest is represented by the text it is taken of. Random tokens and UUIDs never repeat.
- The delta builders: the deltas of a save turn the projection of the version before into that of the new one and leave
  the latter fixed; a rebuild leaves a row alone or gives it its value in the version read; a span's body, applied to
  emptied tables, builds exactly the projection of its version. A row that is in both versions has the same columns in
  both, since a row is upserted column by column and no delta takes a column away.
- The tournament lock is a table in one process. Saves of a tournament are serialised only among the requests of that
  process; the outbox runs are those in which all of its saves go through it.
- Strings compare by code point; JavaScript compares UTF-16 code units, which differs only for characters outside the
  basic plane. Only that the order is total is used.

## Model

| member | source | states |
|---|---|---|
| ReadModel.ReplaySpan | src/storage/interfaces/projection-outbox-storage.interface.ts:29-40 | A span appended whole purges its region's tables for the tournament and then applies exactly its own rows, whatever was queued before |
| ReadModel.CutSpanDoesNothing | src/storage/interfaces/projection-outbox-storage.interface.ts:37-40 | A span cut short anywhere, its end marker missing, changes no read row |
| ReadModel.ReplayIncremental | src/storage/interfaces/projection-outbox-storage.interface.ts:42-54 | Incremental rows are applied in order on top of what the queue already gave |
| ReadModel.ReplayForeign | src/storage/interfaces/projection-outbox-storage.interface.ts:42-54 | Queue rows of one tournament never change the read rows of another |
| ReadModel.PrefixStable | src/storage/interfaces/projection-outbox-storage.interface.ts:49-53 | Rows already drained mean the same after fresh rows are appended, because a span is selected by its id |
| ReadModel.WritesSetColumns | src/storage/interfaces/projection-outbox-storage.interface.ts:8-19 | An upsert reaches the row with its primary key and creates it, an update every row its filter chooses and creates none; both set exactly the columns they name |
| ReadModel.DeletesTakeRows | src/storage/interfaces/projection-outbox-storage.interface.ts:8-17 | A delete takes exactly the rows its filter chooses, of `tournaments` with everything a snapshot owns |
| SpanInterleaving.SpanMayInterleave | src/storage/interfaces/projection-outbox-storage.interface.ts:49-53 | However a span's rows are shuffled with another writer's, the replay is that of the span standing whole at its begin marker |
| OutboxStorage.BuildInsert | src/storage/postgres/postgres-projection-outbox.storage.ts:243-259 | Each row's seven placeholders select that row's own values: the statement inserts exactly the chunk, in order |
| OutboxStorage.InsertChunks | src/storage/postgres/postgres-projection-outbox.storage.ts:240-267 | The statements together insert the deltas in order, none with more than 35,000 parameters; it fails exactly when one needed statement is refused |
| OutboxStorage.Enqueue | src/storage/postgres/postgres-projection-outbox.storage.ts:42-58 | The whole span or nothing in its own transaction; inside a command the whole span or nothing with the command's earlier writes intact |
| OutboxStorage.Request | src/storage/postgres/postgres-projection-outbox.storage.ts:120-148 | One coalesced request per named tournament, or nothing, on the save's connection or alone |
| OutboxStorage.FencedInsertRows | src/storage/postgres/postgres-projection-outbox.storage.ts:193-207 | The deltas are written only when the stored record is still the version read; otherwise nothing, and which of the three it was |
| OutboxStorage.EnqueueIfUnchanged | src/storage/postgres/postgres-projection-outbox.storage.ts:69-79 | Fence and deltas commit together or not at all |
| OutboxStorage.Complete | src/storage/postgres/postgres-projection-outbox.storage.ts:164-180 | Fence, span and deletion of exactly the request served commit together; a changed record leaves both queue and request |
| OutboxTables.CompletionServes | src/storage/postgres/postgres-projection-outbox.storage.ts:164-180 | A completion that is not refused as changed leaves no request when the stamp is the one served, keeps a request made again, and touches no other; changed, it leaves everything |
| OutboxTables.RequestsRecorded | src/storage/postgres/postgres-projection-outbox.storage.ts:126-135 | Each named id has a request under a stamp nobody has seen, with no attempts and no error; the others are as they were |
| OutboxTables.FenceTells | src/storage/postgres/postgres-projection-outbox.storage.ts:199-206 | Missing iff the record is gone, enqueued iff it is at the version read, and the deltas join the queue in that case only |
| OutboxTables.FailureCounted | src/storage/postgres/postgres-projection-outbox.storage.ts:182-187 | One more attempt and the first 2,000 characters of the error, under the same stamp |
| OutboxStorage.RecordFailure | src/storage/postgres/postgres-projection-outbox.storage.ts:182-187 | A failed build is counted on its request with the clipped error, and the request stays |
| OutboxSteps.StepKeeps | src/modules/factory/functions/private/executionQueue.ts:164-268 | Every save, delete (also one whose record another delete took), build, commit and failure keeps the outbox invariant for every tournament at once |
| OutboxConvergence.Convergence | src/storage/postgres/postgres-projection-outbox.storage.ts:164-207 | Over every run, a tournament with nothing owed, pending or failed, and no overlap of a delete with a save still unrepaired, has exactly the stored record's projection once the queue is replayed |
| OutboxConvergence.CleanConvergence | src/storage/postgres/postgres-projection-outbox.storage.ts:189-207 | With no failed write and no delete overlapping a save, the two agree whenever the lock is free and nothing is pending, however spans interleave with saves |
| OutboxConvergence.NoLostSnapshot | src/storage/postgres/postgres-projection-outbox.storage.ts:120-180 | A recorded demand for a span is still pending, or the last span was built from that version or a later one of the record, the very one stored when nothing was written since |
| OutboxConvergence.BuildServesRequest | src/modules/factory/projection/snapshotProducer.ts:19-60 | Whoever steps meanwhile, a build whose record is still the version it read can commit, and then its request is gone unless made again, the span covers the stored version, and the read model agrees with it |
| OutboxConvergence.FailureKeepsRequest | src/modules/factory/projection/snapshotProducer.ts:38-41 | A build that fails leaves its request pending under the same stamp, one attempt older |
| OutboxRaces.AgreesIffBuiltSinceDelete | src/storage/tournament-storage.service.ts:212-251 | However many deletes and saves overlap: once a delete's row has landed, the two agree if and only if what lands after it builds the stored projection out of nothing |
| OutboxRaces.DeleteOverlapsSave | src/storage/tournament-storage.service.ts:212-251 | Every interleaving of a delete's removal and queue row with a save's record and rows, any kind of save, steps of others between: by which record write and which queue write came last, exactly when the two agree |
| OutboxRaces.DeleteRaceExamples | src/storage/tournament-storage.service.ts:212-251 | Two concrete runs after which the read model lacks a stored record's row: a save between the delete's two steps, and a mutation after both |
| CommandTransaction.RequestContext.AfterCommandCommit | src/storage/postgres/commandTransaction.ts:18-22 | Inside a command an effect is deferred in order, outside it runs at once |
| CommandReceipts.ApplyOn | src/storage/postgres/commandTransaction.ts:12-15 | The writes of `apply` land on the command's own connection and are visible nowhere else before its commit |
| CommandReceipts.Execute | src/storage/postgres/commandReceipts.ts:62-127 | Statement by statement, with any statement refused and any fate of the COMMIT, the command is one atomic action and leaves the connection idle |
| CommandReceipts.AnswersRightly | src/storage/postgres/commandReceipts.ts:84-104 | Undisturbed, a resend of the same intent is answered the stored result as a repetition, another intent is refused, a success is stored with its writes, a refusal is retryable or returned, and nothing else leaves a trace |
| CommandReceipts.IdentityAccepted | src/storage/postgres/commandReceipts.ts:63-73 | A command id is accepted iff it has 8 to 128 letters, digits, `_` or `-` |
| CommandReceipts.CommandKeeps | src/storage/postgres/commandReceipts.ts:62-127 | A command never rewrites a receipt, its receipt exists exactly when its writes are in the log, and a success repeats the stored result |
| CommandProtocol.StepIsAtomic | src/storage/postgres/commandReceipts.ts:62-115 | Interleaved under the hashed advisory lock, each step leaves the database alone or changes it as one whole atomic command |
| CommandProtocol.CheckDecides | src/storage/postgres/commandReceipts.ts:84-91 | Under the lock a call goes on afresh, replays the stored result, or is refused, by what receipt there is |
| CommandProtocol.ApplyDecides | src/storage/postgres/commandReceipts.ts:92-98 | A refused command ends without a trace, retryable or returned; a success goes on to its receipt |
| CommandProtocol.ReplayIsAnswered | src/storage/postgres/commandReceipts.ts:88-91 | A call that found its receipt and commits is answered the stored result as a repetition |
| CommandProtocol.CommitIsAnswered | src/storage/postgres/commandReceipts.ts:99-105 | A call that applied and commits stores receipt and writes together and answers its own result |
| CommandProtocol.ResendIsAnswered | src/storage/postgres/commandReceipts.ts:74-127 | From any state where nobody holds the lock, a resend of a committed command can run to its end and is answered what the receipt says |
| CommandProtocol.FirstSendCommits | src/storage/postgres/commandReceipts.ts:74-127 | From any such state, a command without a receipt can run to its end, stored and answered |
| CommandProtocol.ExactlyOnce | src/storage/postgres/commandReceipts.ts:62-127 | Over any run of sends, resends, refusals, deaths and uncertain commits: the writes commit at most once, a receipt exists iff they did, all successes carry one result, effects only after a known commit |
| CommandProtocol.ReceiptsStand | src/storage/postgres/commandReceipts.ts:99-105 | A committed receipt is what it says for ever |
| CommandProtocol.EffectsRunOnce | src/storage/postgres/commandReceipts.ts:116-125 | Over every run, a call that knows its commit has run a prefix of the effects its `apply` deferred, all of them once it is through; every other call has run none, and no other send of the command has run any |
| CommandProtocol.EffectIsRun | src/storage/postgres/commandReceipts.ts:119-121 | The next effect that waits is the one run, and the rest keep waiting |
| Json.StringifyInjective | src/storage/postgres/commandReceipts.ts:26-36 | Two JSON values print alike only when they are the same value, keys in the same order |
| Json.PrintOneLine | src/storage/postgres/postgres-participation.storage.ts:54-69 | A printed value holds no line break, so printed rows can be joined by lines |
| Json.JoinLinesInjective | src/storage/postgres/postgres-participation.storage.ts:69-69 | Lists of non-empty lines can be told apart in their join |
| CanonicalIntent.SameIffCanonical | src/storage/postgres/commandReceipts.ts:16-25 | The recursive key sort identifies exactly the values that are equal up to key order at every depth |
| CanonicalIntent.SameAsCanonical | src/storage/postgres/commandReceipts.ts:16-25 | The key sort preserves meaning |
| CanonicalIntent.CanonicalIdempotent | src/storage/postgres/commandReceipts.ts:16-25 | Sorting twice is sorting once |
| CanonicalIntent.KeysMayMove | src/storage/postgres/commandReceipts.ts:15-25 | Two neighbouring members of an object may change places |
| CanonicalIntent.AtAnyDepth | src/storage/postgres/commandReceipts.ts:15-25 | What may be exchanged at the top may be exchanged inside an object or a list |
| CanonicalIntent.DefaultsAreIntents | src/storage/postgres/commandReceipts.ts:30-32 | One id is a list of one, an absent or empty id an empty list, an absent rollback flag a false one |
| CanonicalIntent.FingerprintsEqualIffSameIntent | src/storage/postgres/commandReceipts.ts:15-37 | Equal fingerprints if and only if tournament ids, methods and rollback flag are equal up to key order |
| CanonicalIntent.SaveFingerprintsEqualIffAsSent | src/storage/postgres/commandReceipts.ts:44-55 | A save's fingerprint is equal if and only if records and precondition are the same, keys in the same order |
| Ordering.SortedUnique | src/services/tournamentMutex.ts:78-78 | Sorting is determined by the elements alone |
| TournamentMutex.Mutex.Acquire | src/services/tournamentMutex.ts:26-55 | A free lock is taken at once; otherwise the resolver joins the end of the queue |
| TournamentMutex.Mutex.Release | src/services/tournamentMutex.ts:57-67 | The first in the queue is handed the lock, or the entry goes |
| TournamentMutex.Mutex.TimeOut | src/services/tournamentMutex.ts:46-51 | A timer takes out exactly its own resolver, wherever it queues |
| TournamentMutex.Mutex.ReleaseAll | src/services/tournamentMutex.ts:94-99 | The release loop is the ids released one after another, waking whom each release wakes |
| MutexRuns.HandOverKeeps | src/services/tournamentMutex.ts:57-63 | Handing a lock over keeps one holder per id, the queues in order and every waiting request queued |
| MutexRuns.MutualExclusion | src/services/tournamentMutex.ts:26-101 | Over every run: one holder per id, a finished request holds nothing, a running one all its ids, an entry exists iff the id is held, grants in arrival order minus timeouts |
| MutexProgress.DeadlockFreedom | src/services/tournamentMutex.ts:77-101 | With duplicate-free lists, from any state reached every request asking for its locks can be brought into its body with no timeout; and any schedule of turns runs out, and not before it has been there |
| MutexRuns.DuplicatesNeverEnter | src/services/tournamentMutex.ts:77-86 | A request whose list repeats an id never reaches its body |
| MutexRuns.EntersAloneIffDistinct | src/services/tournamentMutex.ts:77-86 | A lone request can enter its body if and only if its list repeats no id |
| TournamentStorage.Store.SaveTournamentRecord | src/storage/postgres/postgres-tournament.storage.ts:129-194 | One fenced upsert with its rejection or recovery counted |
| TournamentStorage.SavedOneLeaves | src/storage/postgres/postgres-tournament.storage.ts:129-194 | Written, under the writer's epoch with a fresh stamp and the counter reset, iff the record is complete and its row absent or of no later epoch; otherwise why not, and nothing written |
| TournamentStorage.FirstSaveIsWritten | src/storage/postgres/postgres-tournament.storage.ts:144-163 | A first save of a tournament is written whatever its epoch, and the same owner's next one replaces it |
| TournamentStorage.Store.SaveTournamentRecords | src/storage/tournament-storage.service.ts:123-150 | The loop is the records saved one after another up to the first refusal |
| TournamentStorage.Store.UnexpectedServerUpdatedAt | src/modules/factory/factory.service.ts:643-663 | The first named id whose stored version differs, if any |
| TournamentStorage.Store.SaveWholesale | src/modules/factory/factory.service.ts:606-632 | Check, save, and undo of a refused durable save, as one function of the state |
| TournamentStorage.BatchOutcome | src/storage/postgres/postgres-tournament.storage.ts:196-216 | A batch writes exactly the records before the first one the table refuses, under the writer's epoch with fresh stamps, and touches no other row |
| TournamentStorage.NoConflictIffAllAsExpected | src/modules/factory/factory.service.ts:643-663 | No conflict if and only if every named id among those saved has the version named; a conflict names one that has not |
| TournamentStorage.ConflictChangesNothing | src/modules/factory/factory.service.ts:606-636 | A save conflicts if and only if one named id is at another version, and then changes nothing at all |
| TournamentStorage.WholesaleOutcome | src/modules/factory/factory.service.ts:606-632 | Past the check only a refused record stops the save: a durable one is undone, a plain one keeps the records before it |
| SaveRuns.EpochNeverDecreases | src/storage/postgres/postgres-tournament.storage.ts:117-128 | Between deletions of a tournament its owner epoch never decreases, over every run |
| SaveRuns.LowerEpochChangesNothing | src/storage/postgres/postgres-tournament.storage.ts:144-160 | A writer behind the row's epoch leaves the row as it is and never reports success for it |
| SaveRuns.DeletedCanBeSavedAgain | src/storage/postgres/postgres-tournament.storage.ts:117-128 | A deletion takes exactly its rows away, and the next owner starts at any epoch |
| SaveRuns.RejectionsAreStreaks | src/storage/postgres/postgres-tournament.storage.ts:173-194 | The counter of a tournament is the number of rejections since its last write, with no entry for none |
| SaveRuns.ConditionalSaveSeesEveryChange | src/modules/factory/factory.service.ts:638-663 | After any run, a caller naming the version it read passes if and only if the row is the one read or was rewritten within the same millisecond; else its save conflicts and writes nothing |
| SaveRuns.StaleRowReplacedIffMisfiled | src/modules/factory/factory.service.ts:600-615 | A save that goes through replaces a row at another version than the one named if and only if a record with that id is filed under another key |
| SaveRuns.MisfiledExample | src/modules/factory/factory.service.ts:600-615 | One such save |
| LoadProfile.RenderInjective | src/modules/telemetry/load-profile.service.ts:107-107 | The joined key tells tournament, hour and class apart whatever the id contains |
| LoadProfile.LoadProfileService.Record | src/modules/telemetry/load-profile.service.ts:98-145 | A sample is merged into its bucket, or dropped when it would need a new one in a full buffer |
| LoadProfile.SampleIsCounted | src/modules/telemetry/load-profile.service.ts:98-144 | An accepted sample adds its fields, and raises the maxima, in the bucket of its tournament, class and hour, and in no other |
| LoadProfile.AcceptedIff | src/modules/telemetry/load-profile.service.ts:98-121 | A sample is refused only without a tournament, or when 5,000 other buckets are buffered |
| LoadProfile.LoadProfileService.Drain | src/modules/telemetry/load-profile.service.ts:152-156 | Everything buffered comes out, each key once |
| LoadProfile.LoadProfileService.FlushFailed | src/modules/telemetry/load-profile.service.ts:165-183 | Every drained bucket is merged back with what was recorded meanwhile |
| LoadRuns.Conservation | src/modules/telemetry/load-profile.service.ts:98-254 | Over every interleaving of records and overlapping flushes, buffered, in-flight and persisted totals are those of the accepted samples plus those of drains that landed unknown to the flush; the maxima are the true ones |
| LoadRuns.EverySampleIsHeld | src/modules/telemetry/load-profile.service.ts:98-188 | Over every run without a lost reply, the mutations counted for a tournament, hour and class are as many as its accepted samples |
| LoadRuns.FlushPersists | src/modules/telemetry/load-profile.service.ts:152-164 | A flush that fits can land, and then all that was buffered is added to the table |
| LoadRuns.ExactIffNoReplyLost | src/modules/telemetry/load-profile.service.ts:147-184 | The totals of a key are exact if and only if no drain holding it landed with its reply lost |
| LoadRuns.DrainsHaveDistinctKeys | src/modules/telemetry/load-profile.service.ts:186-228 | No multi-row upsert names a row twice |
| LoadProfile.LoadProfileService.FlushSucceeded | src/modules/telemetry/load-profile.service.ts:159-164 | A flush that lands resets the failure streak, and with it the count of dropped samples |
| LoadBounds.BufferBound | src/modules/telemetry/load-profile.service.ts:105-187 | With `n` failures since the last landed flush, the buffer and each flight hold at most `n + 1` times 5,000 buckets; without one every flush fits its statement |
| LoadBounds.RetryFitsIff | src/modules/telemetry/load-profile.service.ts:176-233 | After a failure the next flush fits one statement if and only if the merged buffer has at most 6,553 keys |
| LoadBounds.OversizedNeverLands | src/modules/telemetry/load-profile.service.ts:176-233 | More than 6,553 keys together stay together over every run, and a flush that carries them never lands |
| LoadBounds.OneFailureIsEnough | src/modules/telemetry/load-profile.service.ts:148-187 | A concrete run from a fresh service: one failed flush, then too many keys for any later one |
| Participation.ReplaceTournamentRows | src/storage/postgres/postgres-participation.storage.ts:85-163 | Rows and fingerprint change together or not at all, on the command's connection with the command intact, or in a transaction of its own |
| Participation.ReplacedHolds | src/storage/postgres/postgres-participation.storage.ts:76-163 | With no statement refused a replace runs; it leaves the de-duplicated rows and their fingerprint, or the rows as they are when that fingerprint is stored |
| Participation.RunsIff | src/storage/postgres/postgres-participation.storage.ts:76-163 | Only a refused statement that is needed stops a replace |
| Participation.DeleteTournamentRows | src/storage/postgres/postgres-participation.storage.ts:184-193 | Rows and fingerprint go together |
| Participation.UniqueKeepsLast | src/storage/postgres/postgres-participation.storage.ts:44-50 | De-duplication keeps, of each key, exactly its last row |
| Participation.RowKeyTellsApart | src/storage/postgres/postgres-participation.storage.ts:42-42 | Ids without a bar have the same joined key if and only if they are the same primary key |
| Participation.EveryPrimaryKeyKeptIffToldApart | src/storage/postgres/postgres-participation.storage.ts:42-50 | De-duplication keeps a row of every primary key if and only if no two different ones join to the same text |
| Participation.FingerprintIffSameRows | src/storage/postgres/postgres-participation.storage.ts:52-70 | Two lists have the same fingerprint if and only if they hold the same rows, in any order |
| ParticipationRuns.SkipRefinesRewriting | src/storage/postgres/postgres-participation.storage.ts:76-163 | Over every run, skipping on an unchanged fingerprint leaves the rows that deleting and inserting every time leaves |
| ParticipationRuns.SkipsIffNothingChanges | src/storage/postgres/postgres-participation.storage.ts:100-127 | After any run a replace finds nothing to do iff the stored rows are already the last row of each of its keys |
| ParticipationRuns.StoredRowsAreTheLastReplace | src/storage/postgres/postgres-participation.storage.ts:76-193 | After any run a tournament's rows are the last row of each key of its last landed replace, none once deleted, and a stored fingerprint is that of the stored rows in whatever order |
| RefreshTokens.RefreshTokenService.Issue | src/services/refresh-token.service.ts:50-62 | A token that starts a family of its own |
| RefreshTokens.RefreshTokenService.RotateToken | src/services/refresh-token.service.ts:70-105 | Each rejection and the rotation itself, with the second statement possibly never run |
| RefreshTokens.RefreshTokenService.Revoke | src/services/refresh-token.service.ts:108-112 | Logout revokes exactly the presented token and is idempotent |
| RefreshTokens.RevokedIsLoggedOut | src/storage/postgres/postgres-refresh-token.storage.ts:49-56 | A logout revokes the token now, keeps its successor and every other row, and a second one changes nothing |
| RefreshTokens.RotationHandsOver | src/services/refresh-token.service.ts:89-104 | A rotation revokes the presented token with its successor, which is fresh for 30 days in the same family and session |
| RefreshTokens.WhyRejected | src/services/refresh-token.service.ts:70-87 | Which of the four rejections it is, and that only a replay changes anything |
| RefreshTokens.OnlyTheNamedGo | src/storage/postgres/postgres-refresh-token.storage.ts:58-73 | A family's, a user's and the expired tokens go, each exactly |
| RefreshTokens.RefreshTokenService.RevokeAllForUser | src/services/refresh-token.service.ts:115-118 | Every unrevoked token of the user, and no other |
| RefreshTokens.RefreshTokenService.DeleteExpired | src/storage/postgres/postgres-refresh-token.storage.ts:70-73 | Exactly the expired rows go, and their number is reported |
| TokenFamilies.AtMostOneActive | src/services/refresh-token.service.ts:64-105 | Over every run a family has at most one unrevoked token that was handed out, and it is the latest |
| TokenFamilies.FamilyIsOneChain | src/services/refresh-token.service.ts:89-104 | The successor links of a family make one simple chain that never dangles, even after expired rows are deleted; user and provider are those it was issued for |
| TokenFamilies.DeadStaysDead | src/services/refresh-token.service.ts:70-118 | A family without an unrevoked token never has one again |
| TokenFamilies.LogoutEndsToken | src/services/refresh-token.service.ts:107-112 | After a logout the token is never active again over any later run, and presenting it never rotates |
| TokenFamilies.IssuedCanRotate | src/services/refresh-token.service.ts:49-105 | A token issued within its 30 days can be rotated, and hands its session on |
| TokenFamilies.RotationMovesOn | src/services/refresh-token.service.ts:89-104 | In every state reached a rotation spends the token presented and mints its family's usable one |
| TokenFamilies.ExpiredGo | src/storage/postgres/postgres-refresh-token.storage.ts:70-73 | Exactly the expired rows go |
| TokenFamilies.ReplayKillsFamily | src/services/refresh-token.service.ts:76-83 | Replaying a used token leaves no token of its family usable, then or later |
| TokenFamilies.RevokeAllEndsFamilies | src/services/refresh-token.service.ts:115-118 | After logging a user out everywhere none of the user's families is ever usable again |
| TokenFamilies.AcceptedIffActive | src/services/refresh-token.service.ts:70-105 | A presented token rotates if and only if it is known, unrevoked and unexpired, and answers its family's session |
| MutationMirror.MutationMirrorService.Enqueue | src/modules/tournament-sync/mutation-mirror.service.ts:84-90 | The mutation joins the end of the queue under the next sequence |
| MutationMirror.MutationMirrorService.DrainOnce | src/modules/tournament-sync/mutation-mirror.service.ts:100-133 | At most twenty entries in order up to the first failure, with arrivals in between; the backoff grows, resets or stays as it ended |
| MutationMirror.CleanDrain | src/modules/tournament-sync/mutation-mirror.service.ts:100-133 | When every post is delivered and acknowledged, the first twenty entries are sent in order, the rest stay queued, and what arrived meanwhile follows them |
| MutationMirror.NackedCounts | src/modules/tournament-sync/mutation-mirror.service.ts:117-119 | A failed post counts one attempt and its error on its own entry only |
| MirrorRuns.LoopIsTurns | src/modules/tournament-sync/mutation-mirror.service.ts:111-126 | The drain loop is the run's turns one after another, stopping at the first that is not acknowledged |
| MirrorRuns.UpstreamIsInOrder | src/modules/tournament-sync/mutation-mirror.service.ts:84-133 | Over every run with failed posts, lost answers, refused acknowledgements and crashes, what upstream applied, repetitions taken once, is a prefix of the enqueue order; the queue is exactly what is unacknowledged |
| MirrorRuns.NothingDropped | src/modules/tournament-sync/mutation-mirror.service.ts:112-126 | Nothing leaves the queue before upstream applied it |
| MirrorRuns.OnceIffAllAcknowledged | src/modules/tournament-sync/mutation-mirror.service.ts:65-68 | Upstream applied each acknowledged mutation once and nothing else if and only if every applied post was acknowledged |
| MirrorRuns.BackoffIsOfStreak | src/modules/tournament-sync/mutation-mirror.service.ts:196-202 | The backoff is 0 or min(3000·2^k, 60000) for the current streak of failed drains, and in force only while something is queued |
| AuditCounters.AuditService.ChainCounterWrite | src/modules/audit/audit.service.ts:35-44 | A write is chained on the last one of its action type |
| AuditCounters.AuditService.RecordFailure | src/modules/audit/audit.service.ts:114-132 | One more failure, reported as a milestone at 1, 10, 100, 1000 and every 50th |
| AuditCounters.AuditService.RecordRecovery | src/modules/audit/audit.service.ts:142-154 | Clears the count, or does nothing without one |
| AuditCounters.AuditService.WriteCount | src/storage/postgres/postgres-audit.storage.ts:121-143 | The upsert or delete of one write, if it took effect |
| AuditCounters.AuditService.Finalize | src/modules/audit/audit.service.ts:39-43 | A settled write takes the chain's entry away only if it is still the last of its action type |
| AuditRuns.WritesTakeEffectInOrder | src/modules/audit/audit.service.ts:28-44 | Over every run the writes of an action type run one at a time in call order, and the chain has an entry exactly while one is outstanding |
| AuditRuns.CallsAreCounted | src/modules/audit/audit.service.ts:114-154 | A failure counts one more and chains an increment; a recovery clears the count and chains the clear, or finds no count and does nothing |
| AuditRuns.OutstandingWritesCanLand | src/modules/audit/audit.service.ts:35-44 | From every state reached without a failed write the outstanding ones can all be run, and then table and memory agree |
| AuditRuns.DrainedAgrees | src/modules/audit/audit.service.ts:107-154 | Drained with no failed write, persisted and in-memory counts are equal, absent iff absent |
| AuditRuns.AgreesIffNoIncrementFailed | src/modules/audit/audit.service.ts:122-132 | Since the last recovery that took effect, or from the start, the two counts agree if and only if no increment failed |
| CacheTable.FiledUnderItsTournament | src/modules/factory/factory.controller.ts:117-120 | A key is filed under the tournament it was made for if and only if that id has no bar |
| CacheTable.MissIsCached | src/modules/factory/factory.controller.ts:115-151 | A miss with a value caches it and tracks the key iff its id is not empty, `undefined`, `null`, `NaN` or `false`; an error leaves no trace |
| CacheTable.HitIsServed | src/modules/factory/factory.controller.ts:136-143 | Until swept, a cached value is the answer |
| CacheTable.SparedIff | src/modules/factory/factory.controller.ts:189-222 | A key survives an invalidation iff it was re-seeded, is a roster key no topic touches, or is another entity's |
| CacheTable.FactoryController.TrackTournamentKey | src/modules/factory/factory.controller.ts:117-134 | A new key joins its tournament's set, the oldest going first beyond 200; refused ids are not tracked |
| CacheTable.FactoryController.CacheFx | src/modules/factory/factory.controller.ts:136-151 | A hit answers the cached value; a miss computes, and caches and tracks unless it is an error |
| CacheTable.FactoryController.InvalidateTournamentCache | src/modules/factory/factory.controller.ts:165-232 | Per tournament, the spared keys stay tracked and the others leave both the set and the cache |
| CacheRuns.SparedKeysRemain | src/modules/factory/factory.controller.ts:204-231 | Of the keys tracked for its tournaments an invalidation keeps exactly the warmed, roster-safe and unaffected per-entity ones, and touches no other key |
| CacheRuns.OldestGoesFirst | src/modules/factory/factory.controller.ts:126-133 | A full set gives up only its oldest key |
| CacheRuns.AgreementIffNoSparedKeyChanged | src/modules/factory/factory.controller.ts:165-232 | A mutation leaves the tracked cache in agreement if and only if, of the keys tracked and cached before it, none that its report neither re-seeds nor sweeps, and that no re-seeded key pushes out, changed |
| CacheRuns.RoomPushesNothingOut | src/modules/factory/factory.controller.ts:117-134 | Re-seeding within the 200-key cap pushes no tracked key out |
| CacheRuns.TrackedReadsAreFresh | src/modules/factory/factory.controller.ts:117-232 | Over every run whose reports cover what changed, a read of a tracked key answers what a fresh computation would, with at most 200 keys a tournament |
| CacheRuns.EveryReadIsFresh | src/modules/factory/factory.controller.ts:115-232 | Over every covering run, a read of any key that names a tournament and that the cap never pushed out answers what a fresh computation would |
| CalendarRow.Pick | src/storage/postgres/calendarTournamentRow.ts:86-90 | Exactly the listed fields that are there |
| CalendarRow.AssignDefined | src/storage/postgres/calendarTournamentRow.ts:161-165 | Defined values override, undefined and null ones change nothing |
| CalendarRow.BuildRow | src/storage/postgres/calendarTournamentRow.ts:121-158 | The row of an entry, its columns filled loop by loop |
| CalendarRow.BuildEntry | src/storage/postgres/calendarTournamentRow.ts:178-205 | The entry of a row, columns over identity over remainder |
| CalendarRow.EntryRoundTrip | src/storage/postgres/calendarTournamentRow.ts:121-205 | `fromRow` after `toRow` returns every field up to provider, id, calendar day, carried nulls and filled-in search text and flag |
| CalendarRow.DayIff | src/storage/postgres/calendarTournamentRow.ts:114-118 | A day is four digits, two and two, with dashes between |
| CalendarRow.DateKeepsDay | src/storage/postgres/calendarTournamentRow.ts:114-118 | A timestamp keeps its day, and a value that is no text has none |
| CalendarRow.DerivedColumns | src/storage/postgres/calendarTournamentRow.ts:121-158 | The event count is the number of events, and the offline flag the one under `TMX` |
| CalendarRow.IdAndSearchText | src/storage/postgres/calendarTournamentRow.ts:121-158 | The id is the entry's or else the tournament's, the search text the entry's or else the name in lower case |
| CalendarRow.EntryRoundTripIffNormal | src/storage/postgres/calendarTournamentRow.ts:167-205 | The round trip returns the very entry if and only if it is normal |
| CalendarRow.RowRoundTripIffProduced | src/storage/postgres/calendarTournamentRow.ts:121-205 | `toRow` after `fromRow` gives back the row if and only if it is one `toRow` can produce |
| CalendarRow.PlacesPartitionFields | src/storage/postgres/calendarTournamentRow.ts:15-57 | Columns, identity and remainder hold every other field exactly once |
| Calendar.BuildWhere | src/storage/postgres/postgres-calendar.storage.ts:125-173 | Every placeholder is bound, and the clause holds of a row if and only if the scope admits it |
| Calendar.LikePrefix | src/storage/postgres/postgres-calendar.storage.ts:152-156 | The LIKE pattern matches exactly the ids with the provisioner prefix |
| Calendar.CalendarStorage.UpsertTournament | src/storage/postgres/postgres-calendar.storage.ts:33-58 | The row is added, replaced with a new stamp, or left alone when identical |
| Calendar.CalendarStorage.QueryTournaments | src/storage/postgres/postgres-calendar.storage.ts:75-109 | No targets, no rows; else the window of the admitted rows in order, their total and the total of each provider |
| Calendar.GroupsAddUp | src/storage/postgres/postgres-calendar.storage.ts:84-95 | The grouped counts add up to the number of admitted rows |
| Calendar.CalendarStorage.AddToOrUpdateCalendar | src/storage/tournament-storage.service.ts:373-384 | The entry's row under its provider, or why nothing was written |
| Calendar.CalendarStorage.RemoveFromCalendar | src/storage/tournament-storage.service.ts:386-397 | The row goes only if it is this provider's |
| Calendar.CalendarStorage.ModifyProviderCalendar | src/storage/tournament-storage.service.ts:408-431 | The row of the stored entry with the updates spread over it |
| Calendar.GroupByProvider | src/modules/providers/providers.service.ts:188-204 | One group for each target, with its rows of the page in their order and its total |
| CalendarReads.PagesShowEveryRowOnce | src/storage/postgres/postgres-calendar.storage.ts:97-108 | Successive pages concatenate to exactly the rows the scope admits, each once and in order, at any page size |
| CalendarReads.BeforeMeans | src/storage/postgres/postgres-calendar.storage.ts:103-103 | Later tournaments first, those without a start last, the same day by id |
| CalendarReads.WhoSees | src/storage/postgres/postgres-calendar.storage.ts:125-173 | What each grant lets a user see, and that nothing else does |
| CalendarReads.GroupKeepsOrder | src/modules/providers/providers.service.ts:188-204 | A group keeps the page's order |
| CalendarReads.GroupOfOne | src/modules/providers/providers.service.ts:188-204 | An entry is in the group of its own provider and of no other |
| CalendarReads.HasMoreIffNextPage | src/modules/providers/helpers/calendarPaging.ts:73-85 | `hasMore` if and only if the next page has a row |
| CalendarReads.RegroupingCounts | src/modules/providers/providers.service.ts:188-204 | Regrouping shows each entry once for every time its provider is among the targets |
| CalendarReads.PageRegroupsWhole | src/modules/providers/providers.service.ts:130-140 | A page of a query for those targets, regrouped by them, is the same page |
| CalendarReads.RunKeeps | src/storage/tournament-storage.service.ts:373-431 | Over every run of saves, removals and updates there is one row a tournament, and each round-trips |
| CalendarReads.CalendarAnswers | src/storage/tournament-storage.service.ts:373-431 | Why nothing is written: no provider, no listable entry, no row to modify; otherwise success |
| CalendarReads.UpsertStamps | src/storage/postgres/postgres-calendar.storage.ts:33-58 | A changed row is written with the present stamp, a new one added, and every other row left in place |
| CalendarReads.SearchTextFollowsName | src/storage/tournament-storage.service.ts:420-426 | The search text follows a new name, and stays without one |
| CalendarReads.UnchangedRowIsLeftAlone | src/storage/postgres/postgres-calendar.storage.ts:44-56 | An upsert writes and moves the stamp if and only if it changes the row |
| CalendarReads.ModifyNothingIsNoOp | src/storage/tournament-storage.service.ts:399-431 | An update of nothing under the same provider leaves the table as it is, stamp included |
| CalendarReads.ModifyAppliesUpdates | src/storage/tournament-storage.service.ts:399-431 | An update sets exactly the fields it names, never the id, and keeps every other field, the creator and the flag |
| CalendarReads.SaveMovesCalendar | src/storage/tournament-storage.service.ts:360-384 | A save puts the tournament into its provider's calendar and no other, and reads back as its entry |
| CalendarReads.RemovesOnlyItsOwn | src/storage/tournament-storage.service.ts:386-397 | A removal succeeds iff the row is this provider's or absent, and then no row of it is left; another provider's stays and is reported |

## Left out

- OutboxConvergence.Convergence: assumes no outbox write of the tournament failed, and no overlap of a delete with a save left unrepaired by a later span or delete; where a write failed, the code relies on a rebuild. OutboxRaces.AgreesIffBuiltSinceDelete and OutboxRaces.DeleteOverlapsSave say exactly when the two agree after an overlap.
- OutboxRaces.DeleteOverlapsSave: a span or rebuild of the tournament that lands meanwhile is a third writer, left to OutboxRaces.AgreesIffBuiltSinceDelete; a wholesale save that leaves its span to the producer counts as one whose rows have not landed.
- OutboxConvergence.NoLostSnapshot: holds while each save's request step succeeded and the tournament is not deleted; a request that failed is logged and forgotten by the code.
- MutexProgress.DeadlockFreedom: turns are taken by the requests that are there and bodies end; how long a turn takes, and so which timers fire, is not modelled.
- MirrorRuns.UpstreamIsInOrder: enqueues are atomic, so sequence order is commit order; a drain whose own statement is refused ends the timer loop, and no liveness is claimed.
- TokenFamilies.AtMostOneActive: each rotation is atomic up to one interruption between its two statements; two rotations of one token at the same moment are not modelled.
- CacheRuns.EveryReadIsFresh: speaks of keys that name a tournament and stay within its cap. A key the cap drops or one filed under a refused id, and a value computed before a mutation but stored after its invalidation, live out the cache's time to live; whether a key determines its response is assumed.
- LoadRuns.Conservation: the buffer of a process that stops is lost, as the service documents; it is not a step.
- Calendar.CalendarStorage.UpsertTournament: rows are compared as values; a JSONB column would also treat two objects with differently ordered keys as identical.
- CalendarRow.EntryRoundTrip: text columns hold strings, and a day that matches the pattern is a date of the calendar; the database refuses others.
- SaveRuns.ConditionalSaveSeesEveryChange: check and write are one step, as among writers that take the tournament lock; a delete takes no lock and could fall between them.
- Records are represented by their projection, their document text or the fields a row needs; the tournament engine, the delta, snapshot and calendar-entry builders, validation and authorization of saves are not part of this model.
- The queue consumer's foreign-key cascades are modelled for rows deleted with a tournament and for the two tables purged with their parents; venues shared between tournaments and the public documents of a deleted tournament are left to the consumer.
- A mutation of several tournaments flushes its deltas in one span; the model flushes them tournament by tournament.
- The outbox switched off, the load profile switched off and the mirror without a database do nothing, and are left out.
- `runDurableCommand` without a command id, which is the plain call, and advisory-lock waiting times.
- HTTP controllers, guards, JWT, Redis and socket transport, file-system storage, audit rows and their pruning, provider archive counts, token expiry timers: input and output, or easy members.
