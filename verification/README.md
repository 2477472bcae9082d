# IceGuard verification

IceGuard makes lakehouse writes from short-lived functions restartable. This project models its four hard parts and
proves what they are for.

**The checkpointed writer.** A job is run by a sequence of invocations under one idempotency key. Each loads an
offset, writes chunk after chunk, saves the offset after each, and may roll back or die at any point, while a watchdog
thread sets a flag when time runs short. `WriterModel.dfy` is this protocol as a step system in which every call that
leaves the process is its own step, so that a crash may fall between any two, every save, load, delete and clear may
fail, and the watchdog interleaves freely. `WriterSafety`, `WriterCopies`, `WriterRollback` and `WriterWatchdog` prove
what all its runs keep; `WriterRuns` has runs that reach the bounds. `SafeWriter`, `Stores`, `Watchdog` and `S3Track`
are the classes with the fields and loops of the code; a ghost ledger ties every method to a run of the step system,
so the theorems hold of the objects (`SafeWriter.SafeWriter.Safe`).

**The two-phase-commit coordinator.** `CoordinatorModel` has a step for each persist and each participant call;
`CoordinatorSafety` and `CoordinatorTrail` prove agreement, the earning of commit passes, the status trail and the
shape of the votes; `CoordinatorRecovery` says what a lost persist or a death can lead to; `Coordinator` is the class,
tied to the steps by its ledger, with its document stored as JSON.

**The leader lease.** `LeaseModel` lets any number of contenders sample, load, stamp, write and verify in any order
under one clock that never runs backwards, and die at any point; `LeaseExclusion` says exactly which races let two in;
`LeaderLock` is the class on lock texts.

**Delta replay and the orphan scanner.** `DeltaLog` replays the log into the committed set, `S3Uri` builds and takes
apart s3:// URIs, `OrphanScanner` lists, selects and deletes. `Models` and `SchemaEvolution` are the persisted
documents as JSON values.

## Assumptions

- One stable idempotency key per job, one writer at a time, `total_records` and `checkpoint_interval` (positive) fixed
  for the job, and a checkpoint store always configured.
- A job starts without a checkpoint, on a table that may already hold any files. Where copies are counted, none of
  those files holds a record of the job.
- `track_paths` names only files its own invocation added. Complete tracking is a separate assumption, made where a
  row says so.
- An exception out of `batch_writer` or `track_paths` ends the invocation like a crash.
- One live coordinator object per transaction id, with the same participants on every coordinator of that id. For
  agreement and earned passes, the persist that opens a pass lands unless losing it would leave nothing misleading
  (`SpentTwice` and `LostOpenerDisagrees` say exactly when losing it does harm); the status trail assumes a working
  store. Runs that break each assumption are among the rows.
- S3 is a map whose operations work or fail; whether one works is an arbitrary choice.

## Where the code and its documents differ

The code is followed.

- `docs/formal-verification.md:19` says the stored offset never decreases for a key. It does, inside an invocation
  that rolls back after a chunk save (`OffsetCanDrop`, `StoredOffsetDrops`); from one invocation's end to the next it
  never does (`StoredOffsetMonotone`).
- `docs/TUTORIAL.md:638` shows a rollback that keeps its progress. A rollback returns to the offset it resumed from
  and deletes what it wrote (`RollbackRestoresFiles`), so rollbacks alone never finish a job that does not fit in one
  invocation (`RollbacksMakeNoProgress`).
- `src/iceguard/enums.py:25-28` shows no way out of COMMITTED and ABORTED. `prepare()` restarts from any status
  (`StatusTrail`).
- `src/iceguard/watchdog.py:70` promises that no callback follows disarming. A thread past its loop test can still
  call back (`DisarmRace`); after `disarm()` has returned that takes a stall of more than the 0.6 s it waits for the
  thread.
- The final save of a rollback fails open like any other, and then records can be lost for good (`LostFinalSave`,
  `HarmfulLoss`, `LostSaveLosesRecords`).
- The lease's put carries a deadline computed before it is sent (`src/iceguard/coordinator_leader.py:66-67`), and a
  release deletes whatever is there (lines 71-78), so a third contender or a release can let two owners in
  (`LatePutLetsBothIn`, `ReleaseLetsBothIn`).
- Relative Delta paths are resolved against the bucket, so the committed files of a table that is not at the root of
  its bucket do not match their listed URIs (`RelativeAddNamesFile`).

## Model

| member | source | states |
|---|---|---|
| WriterSafety.NoRecordLost | src/iceguard/safe_writer.py:173-266 | Over every run of invocations of one job on a table that may already hold any files, a crash allowed between any two steps and every load, chunk save, mirror, delete and clear allowed to fail, as long as rollback saves land: whatever offset either store can hand out, every record below it is in a stored file; after a success every record of the job stays stored; a finished rollback leaves the offset it resumed from |
| WriterSafety.EarlierFilesSurvive | src/iceguard/safe_writer.py:196-204 | A file stored while no invocation is live, those that predate the job included, is never removed or changed by any later run, whatever fails |
| WriterSafety.ManifestAlwaysEmpty | src/iceguard/safe_writer.py:242-244 | Every checkpoint any run can reach, stored, mirrored or in memory, has an empty manifest |
| WriterSafety.DoomedIsMine | src/iceguard/safe_writer.py:174-175 | The list a rollback hands to the adapter has exactly the paths this invocation tracked |
| WriterModel.DedupOrder | src/iceguard/safe_writer.py:202 | Order-preserving removal of duplicates: every path once, each at its first place, after exactly the paths that come before that place |
| WriterModel.DeathAnywhere | src/iceguard/safe_writer.py:104-278 | The process may die at any point of an invocation; files and both stores stay as they are, and the next invocation may begin |
| WriterCopies.CompleteAndBounded | src/iceguard/safe_writer.py:227-278 | When `write` first succeeds, on a table that held no record of the job, with complete tracking and landed rollback saves and deletes, every record of the job is stored at least once and at most 1 + (crashed invocations) times |
| WriterCopies.ExactlyOnce | src/iceguard/safe_writer.py:227-278 | When moreover loads and saves land and crashes fall only where the last checkpoint saved is the current offset, each record of the job is stored exactly once and no other record at all |
| WriterCopies.CopiesSplit | src/iceguard/safe_writer.py:255-257 | The copies of a record are those from earlier invocations and at most one from the live one |
| WriterRollback.RollbackEffect | src/iceguard/safe_writer.py:173-204 | With landed deletes a rollback, interleaved with the watchdog in any way, removes the tracked files and changes no other; each store holds the resume offset if its save landed and its old document if not |
| WriterRollback.RollbackRestoresFiles | src/iceguard/safe_writer.py:196-204 | With complete tracking the table after a rollback is the table the invocation found |
| WriterRollback.LostFinalSave | src/iceguard/safe_writer.py:189-195 | Exactly when the first rollback whose final save may be lost keeps a store covered: that save landed there, or the files that stay cover the document the store still holds |
| WriterRollback.HarmlessLoss | src/iceguard/safe_writer.py:189-195 | After any crashes: losing a final save, in either store, does no harm if the checkpoint it should have replaced is not above the offset resumed from |
| WriterRollback.HarmfulLoss | src/iceguard/safe_writer.py:189-195 | Before the first success, after any number of crashes at a saved offset, with landed loads and saves: losing a final save loses records iff that store holds a checkpoint above the offset resumed from |
| WriterRollback.LossWithoutCrashes | src/iceguard/safe_writer.py:189-195 | Before any crash or success, whatever loads and saves failed: losing a store's final save loses records iff that store holds a checkpoint above offset 0 |
| WriterRuns.LostSaveLosesRecords | src/iceguard/safe_writer.py:189-202 | A concrete run in which the final save is lost: what remains is a checkpoint of offset 10 and no file at all |
| WriterRollback.StoredOffsetMonotone | src/iceguard/safe_writer.py:117-120 | With landed loads and saves the stored offset never decreases from one invocation's end to a later one's until success deletes it |
| WriterRollback.StoredOffsetDrops | src/iceguard/safe_writer.py:178-193 | Exactly which step lowers the stored offset: the final save of a rollback that follows a chunk save |
| WriterRollback.RollbacksMakeNoProgress | src/iceguard/safe_writer.py:178-193 | With landed rollback saves, whatever else fails: before any crash or success every invocation ends with offset 0 in both stores, and if none has crashed the one that succeeds resumed from 0, so a job that does not fit in one invocation is never finished by rollbacks alone |
| WriterRuns.OffsetCanDrop | src/iceguard/safe_writer.py:259-266 | A run with a fault-free store in which the stored offset of one key falls from 10 to 0 |
| WriterRuns.CrashDuplicates | src/iceguard/safe_writer.py:255-259 | The bound on copies is reached for every number of crashes: for each n a run with n crashes, each between a chunk and its checkpoint, that then succeeds with record 0 stored n + 1 times |
| WriterWatchdog.WatchdogSafe | src/iceguard/watchdog.py:45-67 | In every run the callback fires at most once per invocation, the flag is set only by it and only after a reading at or below the threshold, and at most one batch_writer call starts after the flag is set |
| WriterWatchdog.OneLateBatch | src/iceguard/safe_writer.py:246-266 | Between two batch_writer calls of one run that both start with the flag already set lies a new invocation |
| WriterWatchdog.FlagDecides | src/iceguard/safe_writer.py:246-278 | Exactly when an invocation whose flag is set can still succeed: it is clearing its checkpoint, or at the loop head with nothing left |
| WriterWatchdog.DisarmRace | src/iceguard/watchdog.py:55-74 | Exactly when a callback can still run after disarming: the thread is reading the clock or about to call back |
| Chunking.ChunksTile | src/iceguard/safe_writer.py:246-259 | The chunks of the loop are a contiguous ordered cover of [resume, total), each of at most interval records and all but the last of exactly that many |
| Chunking.TilingUnique | src/iceguard/safe_writer.py:246-259 | There is no other such cover |
| Chunking.ChunkCount | src/iceguard/safe_writer.py:246-259 | There are ceil((total - resume) / interval) chunks |
| Chunking.EachRowPicked | src/iceguard/spark_write.py:100-109 | The filters of the chunks select exactly the 1-based rows of the remaining 0-based records |
| Chunking.NoRowPickedTwice | src/iceguard/spark_write.py:106-109 | No row is selected by two chunks |
| SafeWriter.SafeWriter.Enter | src/iceguard/safe_writer.py:104-143 | Enters at the loop head with the offset of the checkpoint the load finds, or rolls back at once when the watchdog already fired |
| SafeWriter.SafeWriter.LoadCheckpoint | src/iceguard/safe_writer.py:110-122 | The checkpoint is what the bridge, or without one the store, answers: S3 first, the mirror when S3 gives nothing, none when a load fails; the resume offset is its offset |
| SafeWriter.SafeWriter.Write | src/iceguard/safe_writer.py:227-278 | On success batch_writer was called on exactly the chunks tiling [resume, total), one save each, and the job ends Succeeded; on a rollback or an exception on a prefix of them; after a tracked rollback with landed deletes the table is as it was on entry; with a working store the checkpoint is gone on success and at the resume offset after a rollback |
| SafeWriter.SafeWriter.WriteChunk | src/iceguard/safe_writer.py:254-266 | One pass: batch, tracking, save, second look at the flag; the offset moves to the chunk's end, or the invocation rolls back or crashes |
| SafeWriter.SafeWriter.RunBatch | src/iceguard/safe_writer.py:255 | The new files hold exactly the records of [start, end) and no old file is changed, or the batch raises part-way |
| SafeWriter.SafeWriter.TrackChunk | src/iceguard/safe_writer.py:256-257 | After tracking, the tracked paths are exactly the files this invocation added |
| SafeWriter.SafeWriter.PersistCheckpoint | src/iceguard/safe_writer.py:152-171 | Memory moves to the chunk's end; the checkpoint is sent to each store once and held there iff that put worked |
| SafeWriter.SafeWriter.StoreCheckpoint | src/iceguard/safe_writer.py:167-170 | One put goes to each store, and each holds the checkpoint if its put worked and what it held before if not |
| SafeWriter.SafeWriter.LoopTop | src/iceguard/safe_writer.py:246-252 | The first look at the flag: continue with nothing changed, or roll back |
| SafeWriter.SafeWriter.HandleRollback | src/iceguard/safe_writer.py:173-204 | Ends the invocation rolled back: the resume offset was sent to each store once, and at most the tracked files are gone, all of them if the deletes worked. Path j of the deduplicated list is gone exactly if it is an s3:// URI and delete number j works; no other file is |
| SafeWriter.SafeWriter.SaveFinal | src/iceguard/safe_writer.py:176-195 | The final checkpoint goes to the stores before any delete, at the offset resumed from |
| SafeWriter.SafeWriter.DeleteUncommittedFiles | src/iceguard/adapters.py:53-60 | Each path is tried once, whatever became of the ones before: path j is gone exactly if it is an s3:// URI and delete number j works, and no other file is |
| SafeWriter.SafeWriter.Finish | src/iceguard/safe_writer.py:268-275 | Disarms, deletes the checkpoint, clears the mirror, in that order, each once, and the job has succeeded |
| SafeWriter.SafeWriter.Safe | src/iceguard/safe_writer.py:173-278 | Whatever methods were called on the job so far, with crashes in between: if rollback saves landed, both stored checkpoints are covered by the table's files, and after a success so is the whole job |
| SafeWriter.Ledger.IsRun | src/iceguard/safe_writer.py:104-278 | The recorded history of an object is a run of the step system, so every theorem above is about it |
| Stores.CheckpointStore.Save | src/iceguard/checkpoint_store.py:54-70 | The call stores the document iff it works, and says nothing either way |
| Stores.CheckpointStore.Load | src/iceguard/checkpoint_store.py:72-88 | None both for a missing document and for a failed read |
| Stores.CheckpointStore.Delete | src/iceguard/checkpoint_store.py:96-107 | Removes the document iff the call works |
| Stores.DurableCheckpointBridge.Save | src/iceguard/durable.py:33-43 | S3 and then the mirror; each lands or not on its own |
| Stores.DurableCheckpointBridge.Load | src/iceguard/durable.py:45-65 | S3 wins; the mirror is asked only when S3 gives nothing |
| Stores.DurableCheckpointBridge.ClearDurableCheckpoint | src/iceguard/durable.py:67-78 | Only the first clear method the context offers is called |
| Stores.Table.Delete | src/iceguard/adapters.py:53-60 | One attempt: the file goes exactly if its path is an s3:// URI and this call works, whatever the earlier ones did |
| Watchdog.WatchdogThread.InvokeCallbackOnce | src/iceguard/watchdog.py:45-53 | Says yes the first time only |
| Watchdog.WatchdogThread.Run | src/iceguard/watchdog.py:55-67 | On any sequence of readings: the callback is invoked iff one is at or below the threshold, and none is taken after the first such one |
| S3Track.Tracker.TrackPaths | src/iceguard/s3_track.py:20-26 | Returns, sorted and once each, the listed paths not seen before, and remembers them |
| S3Track.DiffsDisjoint | src/iceguard/s3_track.py:20-26 | No path is reported by two calls |
| S3Track.DiffsCover | src/iceguard/s3_track.py:20-26 | Together the calls report exactly what was listed since the tracker was built |
| S3Track.DeletingTrackedRestores | src/iceguard/s3_track.py:10-28 | Exactly when deleting everything tracked restores the first listing: nothing listed then has gone since |
| CoordinatorSafety.TerminalAgreement | src/iceguard/coordinator.py:193-274 | Over any run of prepare, commit, abort, crash and recover, half-failed commits included: when the stored status is COMMITTED or ABORTED the last phase-two callback delivered to each participant offering it matches |
| CoordinatorRecovery.LostOpenerDisagrees | src/iceguard/coordinator.py:193-274 | Exactly when opening a pass allows some continuation to end in a stored verdict that contradicts what was told: the persist of COMMITTING is lost over a stored ABORTED, or that of ABORTING over a stored COMMITTED, and some participant offers both callbacks |
| CoordinatorRecovery.AgreementUnlost | src/iceguard/coordinator.py:193-274 | When no participant offers both callbacks, terminal agreement holds whatever persists and loads fail |
| CoordinatorRecovery.DeathWhileCommitting | src/iceguard/coordinator.py:202-208 | Once the process has died with COMMITTING stored, no run without a new `prepare` stores COMMITTED or delivers another commit, whatever persists and loads fail |
| CoordinatorRecovery.CommittedThenAborted | src/iceguard/coordinator.py:251-270 | A run with a working store in which the only participant commits, the process dies, and recovery tells it to abort |
| CoordinatorSafety.EarnedAndSpentOnce | src/iceguard/coordinator.py:141-243 | Every commit callback belongs to a pass, every pass rests on a round in which each participant was polled and none refused, timed out or raised, rounds of successive passes strictly increase, and no participant is told twice within a pass. An answer refuses exactly when it spells NO, in any letter case |
| CoordinatorModel.CallVote | src/iceguard/coordinator.py:101-118 | An answer counts as NO exactly when it is a text of an N and an O, each in either letter case; every other answer, and having no vote method, counts as YES |
| CoordinatorTrail.SpentTwice | src/iceguard/coordinator.py:202-215 | Exactly when starting a commit pass allows some continuation to spend one round twice: the persist of COMMITTING is lost over a stored PREPARED |
| CoordinatorTrail.CommitStartEarns | src/iceguard/coordinator.py:204-215 | Exactly when starting a pass leaves every pass earned and every stored PREPARED unspent |
| CoordinatorTrail.RoundOrderRun | src/iceguard/coordinator.py:53-55 | Whatever persists and loads fail, a remembered PREPARED comes from no earlier a round than a stored one |
| CoordinatorTrail.StatusTrail | src/iceguard/coordinator.py:141-270 | Every stored status follows the one before in one explicit relation, and only `prepare` leaves COMMITTED or ABORTED |
| CoordinatorTrail.DeathAnywhere | src/iceguard/coordinator.py:90-99 | The coordinator may die at any point; document and callbacks stay as they are, and the next one knows only the document |
| CoordinatorTrail.VerdictAbsorbs | src/iceguard/coordinator.py:251-257 | Without a new `prepare` a stored verdict stays, and no participant is called again |
| CoordinatorTrail.VerdictRests | src/iceguard/coordinator.py:238-270 | A stored verdict finds the coordinator at rest and in agreement with it |
| CoordinatorTrail.VotesAreAPrefix | src/iceguard/coordinator.py:151-191 | Whatever persists fail: `prepare` starts from the entries it loads; a refusal is stored as a prefix of YES votes, the one NO if there is one, then the entries as loaded; PREPARED is stored with a YES from everyone and names and second phases as loaded; no entry is gained or lost; every document has one entry for each participant under its name, and a first round starts from blank ones |
| CoordinatorTrail.NoAbortCallback | src/iceguard/coordinator.py:193-197 | A participant without an abort callback can be left having last heard commit under a stored ABORTED |
| CoordinatorTrail.LostPersistsBreakAgreement | src/iceguard/coordinator.py:53-55 | With lost persists a second round can commit while ABORTED is stored |
| CoordinatorTrail.LostCommittingSpendsTwice | src/iceguard/coordinator.py:210-215 | If the persist of COMMITTING is lost and the process dies, one round pays for two commit passes |
| Coordinator.Coordinator.Prepare | src/iceguard/coordinator.py:141-191 | PREPARED with every entry answered YES in place after a round in which everyone was in favour; otherwise the last answer alone is to blame, and the state is ABORTED with the votes heard and everyone told, or PREPARING with the entries as loaded when a callback raised; the document is persisted at each stage and, with a working store, is the state. It ends voted down exactly when some answer spells NO |
| Coordinator.Coordinator.CollectVotes | src/iceguard/coordinator.py:151-182 | Entry i of the result is entry i as loaded, answered with vote i; the loop stops at the first answer that is not in favour |
| Coordinator.Coordinator.Refuse | src/iceguard/coordinator.py:164-182 | The votes so far are stored, then every abort callback is delivered and ABORTED is stored |
| Coordinator.Coordinator.FinalizeAbort | src/iceguard/coordinator.py:120-139 | Ends ABORTED with every abort callback delivered |
| Coordinator.Coordinator.NotifyAbort | src/iceguard/coordinator.py:193-200 | Every participant with an abort callback is told, whatever the others raise |
| Coordinator.Coordinator.Commit | src/iceguard/coordinator.py:202-249 | COMMITTED with phase two complete and everyone told to commit; or ABORTED with everyone told to abort after a failure; or refused with nothing changed |
| Coordinator.Coordinator.CommitEach | src/iceguard/coordinator.py:217-233 | The callbacks are called in order until one fails: exactly the participants up to that one have been told, and nobody after it |
| Coordinator.Coordinator.Abort | src/iceguard/coordinator.py:251-270 | A known verdict is left alone; anything else ends ABORTED with everyone told |
| Coordinator.Coordinator.Recover | src/iceguard/coordinator.py:90-99 | The object takes the stored state exactly when the load works and there is one |
| Coordinator.DocumentRoundTrip | src/iceguard/models.py:75-131 | The JSON stored for a transaction reads back as the statuses, votes and phases that were stored, whatever its other fields hold |
| Coordinator.DocumentStore.SaveDocument | src/iceguard/coordinator.py:53-55 | The JSON of the state is stored iff the call works, and says nothing either way |
| Coordinator.DocumentStore.LoadDocument | src/iceguard/coordinator.py:83-88 | What the stored JSON says, or none when the call fails |
| Coordinator.Coordinator.Sound | src/iceguard/coordinator.py:53-274 | Whatever methods were called with crashes in between: terminal agreement and earned passes hold of the real store |
| LeaseExclusion.OnlyThisRace | src/iceguard/coordinator_leader.py:46-63 | Any number of contenders, deadlines computed before the put is under way: if A's put is granted and B, having sampled the clock before A's deadline, first writes after it, then B wrote after A verified, and B loaded before A wrote, or a third contender's put stamped before A's landed in between, or a release deleted the lock in between |
| LeaseExclusion.OnlyThisRaceOfTwo | src/iceguard/coordinator_leader.py:46-67 | With two contenders and no release: B loaded before A wrote and wrote after A verified |
| LeaseExclusion.LatePutLetsBothIn | src/iceguard/coordinator_leader.py:65-67 | Three contenders: a put under way since before a lease was granted lands on it with its older deadline, and two owners lead though the second loaded after the first wrote |
| LeaseExclusion.ReleaseLetsBothIn | src/iceguard/coordinator_leader.py:69-80 | A release that found its own lock deletes a rival's fresh one, and two owners lead though no two acquires overlap |
| LeaseExclusion.AtMostOneLeader | src/iceguard/coordinator_leader.py:46-84 | If no two calls overlap and loads work, at most one contender holds an unexpired lease in every reachable state, with releases, renewals, failed writes, writes that land though their call raises, and contenders that die inside a call |
| LeaseExclusion.OverlapLetsBothIn | src/iceguard/coordinator_leader.py:58-63 | Two overlapping acquires that both return True |
| LeaseExclusion.FailedLoadLetsBothIn | src/iceguard/coordinator_leader.py:48-63 | With one failed load even calls that do not overlap can both return True |
| LeaseExclusion.HeldSince | src/iceguard/coordinator_leader.py:65-67 | After a landed write a lock that is still there belongs to someone who wrote no earlier, with the deadline that writer had stamped; without a delete it is still there |
| LeaseExclusion.LoadDecides | src/iceguard/coordinator_leader.py:48-58 | What a load leads to, in full: an own lease, run out or not, to a renewal; another's that still runs to False; anything else, a failed load included, to a claim |
| LeaseExclusion.RenewalLeads | src/iceguard/coordinator_leader.py:46-54 | In any run with any contenders: an attempt whose load finds its own lease and whose put returns is granted; until its next own step the contender leads exactly while the clock is before the new deadline, and a leader whose old lease still runs when the put lands has led in every state since it began |
| LeaseExclusion.RenewedLeaderStays | src/iceguard/coordinator_leader.py:82-84 | A run in which a leader renews before its deadline, and after that deadline still leads and turns a contender away |
| LeaseExclusion.DeadHolderKeepsLock | src/iceguard/coordinator_leader.py:48-56 | A contender that dies after its put keeps the others out one second before its deadline |
| LeaseExclusion.DeadHolderExpires | src/iceguard/coordinator_leader.py:48-63 | The lock of a contender that died after its put keeps nobody out from its deadline on |
| LeaderLock.LeaseRoundTrip | src/iceguard/coordinator_leader.py:40-44 | A written lock text parses back to its owner and expiry exactly for owners without separator and leading whitespace, for every expiry |
| LeaderLock.ParsesAs | src/iceguard/coordinator_leader.py:40-44 | Every lock text, with white space around it: without a bar it is nobody's with expiry 0; else the owner is what precedes the first bar, and what follows must be digits |
| LeaderLock.Contest.constructor | src/iceguard/coordinator_leader.py:35 | Every lease lasts what was asked for, raised to 5 seconds |
| LeaderLock.S3LeaderLock.Acquire | src/iceguard/coordinator_leader.py:46-63 | On lock texts, the others acting between any two steps, the put included: its own steps are sample, load, stamp, write, verify or the part of it that brings it to rest, and it is True exactly when the step system grants this attempt. By the lock at its load: an own one, run out or not, is renewed with one more call, and the outcome is True if that put works; another's that still runs gives False with no more calls; anything else leads to a claim, True exactly if put and verifying load work and the lock is then its own |
| LeaderLock.S3LeaderLock.WriteLease | src/iceguard/coordinator_leader.py:65-67 | The deadline is computed, others may act, and then the put lands, or raises, landed or not |
| LeaderLock.S3LeaderLock.Release | src/iceguard/coordinator_leader.py:69-80 | One load, and one delete exactly when that load works and finds this owner's lock; if the delete works no lock is left |
| LeaderLock.S3LeaderLock.SoleLeader | src/iceguard/coordinator_leader.py:17-22 | While this contender leads and calls have not overlapped, nobody else does |
| DeltaLog.ReplayReconciles | src/iceguard/format_metadata.py:47-76 | Delta Transaction Log Protocol, section "Action Reconciliation": a path is in the result iff some add of it has no remove on its line or later |
| DeltaLog.ReplaySplits | src/iceguard/format_metadata.py:47-76 | Replaying a log cut anywhere is replaying its tail from its head's result |
| DeltaLog.SkippingIsHarmless | src/iceguard/format_metadata.py:49-53 | Exactly when skipping unreadable lines leaves the verdict on a path: a later line speaks of it or the skipped ones did not change it |
| DeltaLog.CommittedPaths | src/iceguard/format_metadata.py:45-76 | The double loop over sorted files and lines raises iff a readable log file has a malformed line; otherwise an object is in the answer exactly when some line of some readable .json file adds it, by its URI or by its key after any slashes, and no remove of it is on that line, later in that file, or in a file with a later name |
| DeltaLog.NormalizesToNamed | src/iceguard/format_metadata.py:65-66 | The normalised path is an object's URI exactly when the path is that URI, or is no s3:// URI and, after any slashes in front, is the object's key in the table's bucket |
| DeltaLog.LogPlace | src/iceguard/format_metadata.py:43-44 | The log of a table lies under _delta_log/ in its directory or bucket, however many slashes its path ends in |
| DeltaLog.LogKeyOrder | src/iceguard/format_metadata.py:45 | String order of 20-digit file names is version order |
| DeltaLog.SortedIsVersionOrder | src/iceguard/format_metadata.py:45 | So the sorted files are replayed in version order |
| DeltaLog.RelativeAddNamesFile | src/iceguard/format_metadata.py:65-66 | A relative add names the data file it means exactly for a table at the root of its bucket |
| DeltaLog.ListCommittedFiles | src/iceguard/adapters.py:175-185 | The objects the log leaves added, in the sense of the previous rows, or the seed exactly when there is no log to read or reading it raised |
| S3Uri.UriRoundTrip | src/iceguard/s3_ops.py:17-26 | A listed URI parses back to its bucket and key (RFC 3986 section 3) exactly for keys with no ?, #, tab or line break and no leading slash |
| S3Uri.ParsedBucketIsPlain | src/iceguard/s3_ops.py:19-22 | Every bucket the parser returns satisfies the condition of the round trip |
| S3Uri.OnlyS3Uris | src/iceguard/s3_ops.py:19-21 | What parses has s3 or S3 before its first colon, and two slashes and a possible bucket after it |
| S3Uri.NoColonNoUri | src/iceguard/s3_ops.py:19-21 | A text without a colon does not parse |
| S3Uri.FrontIgnored | src/iceguard/s3_ops.py:19 | Control characters and spaces in front make no difference |
| S3Uri.DirectoryKey | src/iceguard/s3_ops.py:23-26 | As a directory prefix the same bucket and key are read, with one slash added to a non-empty key that ends in none |
| S3Uri.TablePathParses | src/iceguard/s3_ops.py:17-26 | The URI of a table directory with a plain key is read as that directory with its slash |
| OrphanScanner.SelectedExact | src/iceguard/orphan_scanner.py:80-86 | Each orphan is selected as often as it is listed and nothing else is |
| OrphanScanner.SelectedSplits | src/iceguard/orphan_scanner.py:80-86 | Selecting batch by batch selects the same, whatever the batches |
| OrphanScanner.TargetOfListed | src/iceguard/s3_ops.py:81-90 | The delete of a listed Parquet object goes to that object exactly when its key is plain |
| OrphanScanner.TargetIff | src/iceguard/s3_ops.py:81-90 | A delete is sent to an object exactly when the URI is an s3:// URI that is read as it and its key is not empty and ends in no slash |
| OrphanScanner.TargetsAreDisposable | src/iceguard/orphan_scanner.py:72-86 | With plain keys the objects named by a scan are exactly the uncommitted Parquet objects under the prefix last written at least 3600 seconds for each hour of the retention ago |
| OrphanScanner.OrphanDeleteHitsOther | src/iceguard/s3_ops.py:83-90 | The delete of an orphan whose key continues after a question mark goes to the object named by what precedes it |
| OrphanScanner.HitIff | src/iceguard/orphan_scanner.py:103-119 | The objects hit are exactly the targets of landed deletes; with no failure, of all attempts |
| OrphanScanner.CountsAll | src/iceguard/orphan_scanner.py:98-120 | deleted + failed + skipped is the number of URIs |
| OrphanScanner.OrphanScanner.ListParquetCandidates | src/iceguard/s3_ops.py:29-54 | The candidates are the objects under the prefix whose key ends in .parquet, in key order, once each, with their URI, their age (3600 times the hours is the seconds since the last write) and their size |
| OrphanScanner.OrphanScanner.Scan | src/iceguard/orphan_scanner.py:76-96 | For every batch size: the plain filter, the exact count and the exact byte sum |
| OrphanScanner.OrphanScanner.ResolveDelete | src/iceguard/orphan_scanner.py:62-70 | Deleted, failed or skipped; storage changes only at the parsed object and only when deleted |
| OrphanScanner.OrphanScanner.DeleteOrphans | src/iceguard/orphan_scanner.py:98-120 | One attempt for each URI in order, exact counters, and storage loses exactly the objects hit: only objects some s3:// URI of the list means, none of them a directory, and all of these while storage works |
| OrphanScanner.OrphanScanner.ScanOrphans | src/iceguard/__init__.py:135-158 | For any committed set the adapter answers, with plain keys: nothing is deleted but Parquet objects past retention under the table path that are not in it, and all of them when no delete failed, which is always so while storage works; a failed listing deletes nothing. Age and retention are compared in seconds |
| OrphanScanner.OrphanScanner.ScanDeltaOrphans | src/iceguard/__init__.py:135-158 | For a Delta table whose log can be listed and is well formed, with plain keys: nothing is deleted that some add in the log names, by URI or by key, and no remove on that line or later does; everything else past retention is when no delete failed |
| SchemaEvolution.CheckpointRoundTrip | src/iceguard/models.py:37-48 | A saved checkpoint loads back with every field; an older version becomes 1 and a newer one is refused, so loading undoes saving exactly for version 1 |
| SchemaEvolution.MigrationSettles | src/iceguard/schema_evolution.py:12-38 | Migration yields version 1 or an error, touches only its three fields, and done again changes nothing |
| SchemaEvolution.MigrateCheckpointDict | src/iceguard/schema_evolution.py:12-38 | The step-by-step edit equals the migrated document |
| SchemaEvolution.LoadedIsStable | src/iceguard/schema_evolution.py:41-92 | Whatever loads has version 1 and survives another save and load unchanged |
| SchemaEvolution.LegacyLoads | src/iceguard/schema_evolution.py:14-19 | A document without version, partition info or both loads as version 1 with an empty partition info |
| SchemaEvolution.Refused | src/iceguard/schema_evolution.py:53-70 | A document that lacks any of the eight required fields, or is of a newer version, is refused |
| SchemaEvolution.EntryDefaults | src/iceguard/schema_evolution.py:23-31 | What a manifest entry does not say is read as an empty text or 0 |
| SchemaEvolution.OtherEntriesSkipped | src/iceguard/schema_evolution.py:22-23 | A manifest entry that is no object makes no difference, wherever it stands |
| Models.TransactionRoundTrip | src/iceguard/models.py:75-131 | Every transaction state parses back from its document, votes and flags included |
| Models.TransactionRefused | src/iceguard/models.py:107-131 | A transaction document that lacks one of its seven fields, or has a status text that is none of the seven names, is refused |
| Models.ParticipantDefaults | src/iceguard/models.py:108-118 | A participant entry without a vote has none; one that lacks another field is refused |
| Models.IntTruncates | src/iceguard/schema_evolution.py:14 | `int` of a number with a fraction drops the fraction |
| Models.Falsy | src/iceguard/models.py:113-114 | The seven JSON values that count as false |
| Text.PaddedOrder | src/iceguard/format_metadata.py:45 | Zero-padded numbers of one width sort as text as they do as numbers |
| Text.PaddedValue | src/iceguard/format_metadata.py:45 | A zero-padded number reads back as that number |
| Text.LessIff | src/iceguard/format_metadata.py:45 | Text order: a proper prefix first, else the smaller character where two texts first differ |
| Text.StripPadded | src/iceguard/coordinator_leader.py:41 | `strip` removes the white space around a text, all of it and nothing else |

## Left out

- LeaseRoundTrip: `int()` is modelled on texts of ASCII digits; other texts Python accepts (signs, underscores, white space around the number, other digits) are errors here, and the code never writes them.
- UriRoundTrip: bucket names with square brackets are always rejected (Python accepts some), and the Unicode normalisation check of `urlparse` is not modelled.
- CallVote: `str.upper` is ASCII only, and the answer is a text; only the letters of NO matter to the code.
- AtMostOneLeader: a put that lands only after its call has raised, or after its contender has died, is not modelled (one that lands and then raises is); the clock is the same for all contenders.
- DisarmRace: the join of up to 0.6 s in `disarm` (src/iceguard/watchdog.py:74) is not modelled; it narrows the window for a callback after `disarm()` has returned and does not close it.
- DeleteUncommittedFiles: tracked paths stand for the files themselves; that a listed URI names its object is `UriRoundTrip`.
- Write: calling `write` twice on one writer, and the new random key on every call when none is given (src/iceguard/safe_writer.py:87).
- Write: `start` of the watchdog, its 20 ms pause and its failure to start; the thread may run or not between any two steps.
- Write: in the class the watchdog runs at the loop's looks at the flag and between the files of a batch, and the process dies only inside a batch; the step system, for which the theorems are stated, allows both between any two steps.
- Enter: a corrupted stored checkpoint raises while entering (src/iceguard/checkpoint_store.py:89-94); nothing is written then.
- CheckpointRoundTrip: JSON text is library code; documents are JSON values. NaN and infinities are not among them. What `int(text)`, `str(x)` and `dict(x)` do on unusual values is left open, and every statement holds whatever they do.
- DocumentRoundTrip: names, timestamps, heartbeats and timeouts are arbitrary at each save; the class and `CoordinatorModel` keep only status, names of participants, votes and phases.
- Recover: a stored transaction document that does not parse raises; a document for another participant list is not considered.
- NotifyAbort: thread pools; a timed-out callback has still run before the coordinator goes on, as the pool waits for it.
- Scan: the custom `list_candidates` and `delete_uri` hooks; committed sets of Iceberg and Hudi tables come in as a parameter.
- ListCommittedFiles: a log client with its own listing, and the text of log lines; each line is blank, no JSON, malformed or an action.
- ScanOrphans: writers active between the listing and the deletes.
- Metrics, OpenTelemetry, dead-letter queue, command line, `protect()`, configuration checks and health checks: plumbing with no state of their own that the protocols read.
- Hudi and Iceberg path discovery, boto3, Spark and catalog internals: library behaviour. Spark rows are a fixed sequence numbered from 1.
