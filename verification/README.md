# Recovery: a verified model

This project models the `recovery/` package and the two stores below it, and proves what they
promise. `dafny verify dfyconfig.toml` (Dafny 4.11) checks the whole project.

**The transaction engine** (`Paths`, `RecoveryTypes`, `Engine`, `EngineSafety`, `EngineRollback`, `EngineTheorems`,
`EngineOutcomes`, `EnginePrefix`, `Stacked`, `Service`, `Planning`, `Executor`). An operation is a reviewed list of
file replacements, creations and deletions. `Engine.Step` performs one primitive: a journal save,
a staged write, a rename, a move, a removal, a reload, a read. Each primitive succeeds, is
refused, takes effect and still reports an error, or is cut off by cancellation; a run whose fates
are used up has crashed there. `Executor.Process` is the same engine as code with fields, loops and
error paths, and each of its methods is proved to end where `Engine.Execute` ends. The invariant
of `EngineSafety` says what the durable status alone promises of the files, and `EngineOutcomes` what each call
comes to when nothing, or one primitive, fails.

**The fleet** (`Fleet`, `FleetSafety`, `FleetProtocol`, `FleetTheorems`, `FleetOutcomes`, `FleetRepairs`, `BatchStore`,
`Batches`, `BatchTheorems`, `BatchOutcomes`). Any number of controller processes share one batch row, which is saved
by comparing revisions. A call is lost, executed late, or executed with its response lost; every target is an engine
as above, and operators act on targets directly. `FleetOutcomes` and `FleetRepairs` follow one controller that nobody
disturbs, by how each target behaves: it cannot be inspected, loses its call, declines it, or serves it. `Batches`
puts any number of batches over one table: a batch enters it with its claims in one transaction, and its controllers
read and save their row through `BatchStore.Answer`.

**Managed SSH** (`Ssh`, `SshSafety`, `SshTheorems`, `SshOutcomes`, `GuardStore`, `SshGuards`, `SshConfig`, `SshWriting`).
Apply, confirm, recover, watchdog and startup run one at a time under the executor lock, and are cut by crashes and
reboots; heartbeats run beside them; clock and boot belong to the environment. `SshOutcomes` says what each request
begins, and where it ends while nothing, or one primitive, fails. `SshGuards` shows that the guard column of the machine
is the pending column of the table, request by request.

**Native snapshots** (`Snapshot`), **the NGINX grammar** (`NginxParser`, `NginxScan`, `NginxWriting`, `NginxTokens`,
`NginxShape`, `NginxCanonical`, `NginxChange`), **exact arithmetic** (`Rational`, `RationalText`, `Quantity`,
`QuantityUnits`, `QuantityLaws`, `Capacity`, `RepairBudget`) and **the migration of model settings** (`ModelBindings`,
`LegacyModels`, `ModelMigration`, `MigrationTheorems`) are sequential code, written as methods over fields and loops,
each proved against an independent statement.

## What the proofs turned up

- Restoring a file keeps its modification time only to the microsecond: `docs/recovery.md` line 143
  says that the time is preserved, `writeAt` truncates it. The model follows the code
  (`EngineTheorems.RestoredMetadata`).
- The installed entries do not always stay a prefix of the operation: a restoration carries on past
  an entry it could not restore (`EnginePrefix.PrefixBreaks`). They do exactly as long as no step undoes
  a really different entry while some later entry is not back (`EnginePrefix.FilesArePrefix`).
- A confirmed SSH operation can still be undone by the watchdog or a restart: the commit is stored
  but its guard is not cleared, and an operator's recovery is then cut short
  (`SshTheorems.ConfirmedAndUndone`; `SshTheorems.ConfirmedButRolledBack` says exactly when).
- Migrating model settings can overwrite an existing connection, which loses its endpoint, when it
  bears the name chosen for a saved credential that it holds already
  (`MigrationTheorems.EndpointIsLost`; `MigrationTheorems.ConnectionsAreKept` says exactly when).
- A second migration is not a no-op when the provider is empty and the safety model is nothing but
  white space (`MigrationTheorems.SecondRunBindsTheJudge`; `MigrationTheorems.SecondRun` says exactly when).

## Model

| member | source | states |
|---|---|---|
| `Paths.PlacesDisjoint` | recovery/engine.go:174-206 | staging, quarantine and artifact files of an operation never coincide with one another or with a path that may be a target |
| `Paths.StagingNameInjective` | recovery/engine.go:675-675 | staging names of different operations, entries or purposes differ |
| `Paths.Pad4Injective` | recovery/engine.go:325-327 | the four-digit padding of indexes never makes two of them equal, however large |
| `Planning.DrawUp` | recovery/engine.go:212-343 | a request is turned into entries exactly when it is acceptable, service and SSH scope included; each entry records the file as it is read and what is asked: the requested content with the mode and owner of the original, or with the asked mode and the account, or nothing |
| `Planning.RequestIsCarriedOut` | recovery/engine.go:212-563 | drawn up, prepared and applied undisturbed, an accepted request leaves at every path what it asks for, and a managed service runs it |
| `Planning.AcceptedChange` | recovery/engine.go:236-335 | every accepted change finds what it expects, on the devices and within the limits that it must, and outside what is protected |
| `Planning.PlainIsAccepted` | recovery/engine.go:236-335 | nothing else is asked of a request that goes through no adapter |
| `Planning.AcceptedIsValid` | recovery/engine.go:212-343 | an accepted request, for files or for a service, is a valid plan from which every result about prepared operations starts |
| `Planning.ManagedIsAlone` | recovery/service.go:68-95 | a managed configuration is changed only alone, as one replacement, through the adapter of its own service |
| `EngineSafety.SetFrame` | recovery/engine.go:191-193 | writing one file of an operation leaves every other file of it as it was |
| `EngineSafety.StepKeeps` | recovery/engine.go:440-563 | every primitive, whatever becomes of it, keeps the invariant between status, files, service and control |
| `EngineSafety.JournalAgreesWithFiles` | recovery/engine.go:725-882 | over any calls cut anywhere, the durable status tells which files are installed, restored or untouched |
| `EngineRollback.RecoverOutcome` | recovery/engine.go:765-797 | with other writers about, recovery puts back every entry at its original or output, touches nothing else, and ends recovered exactly when nothing clashed |
| `EngineRollback.LoopRun` | recovery/engine.go:765-786 | the reverse loop restores each entry independently, continues past failures and remembers them |
| `EngineTheorems.CrashAnywhere` | recovery/engine.go:643-685 | cut apply and recovery at any primitives any number of times: one undisturbed recovery puts every target back |
| `EngineTheorems.RecoverFinishes` | recovery/engine.go:725-798 | one undisturbed recovery from any durable state that was prepared |
| `EngineTheorems.RecoveredIsFinal` | recovery/engine.go:727-730 | the recovered status is absorbing: no later call changes files, status or service |
| `EngineOutcomes.ApplyCommits` | recovery/engine.go:488-563 | an undisturbed apply of a prepared operation reports success, commits, has installed every output, and a managed service runs it |
| `EngineOutcomes.ApplyFails` | recovery/engine.go:488-563 | an apply in which any one primitive fails in any way reports failure and ends in the stated status; a service that had begun is put back and runs its original, and files are left as unknown |
| `EngineOutcomes.ApplyRefused` | recovery/engine.go:440-510 | on any disk: every apply that is not permitted, current and prepared over untouched targets and sound artifacts changes nothing |
| `EngineOutcomes.PrepareFinishes` | recovery/engine.go:337-379 | an undisturbed preparation ends ready exactly when no artifact of the operation is there yet, with every original and candidate preserved and no target touched |
| `EngineOutcomes.RestoreFails` | recovery/engine.go:765-798 | a restoration in which one primitive fails ends as failed and has still put back every entry below that one |
| `EngineOutcomes.RecoverRefused` | recovery/engine.go:697-745 | which recoveries change nothing, and which of them report success |
| `EngineOutcomes.ReconcileOutcome` | recovery/engine.go:865-882 | reconciliation makes an open preparation failed and every other open status unknown, and changes nothing else |
| `EngineOutcomes.StrangersAreLeft` | recovery/engine.go:643-861 | on any disk, no call, however it goes, touches a target that holds neither the original nor the output |
| `EnginePrefix.PrefixBreaks` | recovery/engine.go:769-777 | one failed read while restoring the last entry leaves it installed above restored ones |
| `EnginePrefix.StepDecidesPrefix` | recovery/engine.go:440-882 | every primitive decides the shape: putting a really different entry back leaves a prefix exactly when all above it is back and all below it is a prefix, and nothing else changes the shape |
| `EnginePrefix.PutBackDecides` | recovery/engine.go:765-786 | the same for one entry put back, on any disk whatever its shape |
| `EnginePrefix.StepKeepsPrefixUnlessBreaks` | recovery/engine.go:765-786 | a step loses the shape exactly when it undoes a really different entry while some later entry is not back |
| `EnginePrefix.FilesArePrefix` | recovery/engine.go:511-563 | over any calls cut anywhere: the installed entries are a prefix of the operation in every durable state if and only if no step is such an undo |
| `EnginePrefix.SessionDecidesPrefix` | recovery/engine.go:725-798 | from any disk, prefix or not: which sessions end in the shape |
| `EnginePrefix.ShapeIsRegained` | recovery/engine.go:725-798 | however it was lost, one undisturbed recovery gives the shape back |
| `EngineTheorems.RestoredMetadata` | recovery/engine.go:821-861 | what a restored file keeps: content, mode and owner always, its time exactly when in whole microseconds, everything when it was quarantined |
| `Stacked.StackedUndo` | recovery/engine.go:566-577 | operations committed on top of one another, with any overlap, recovered in reverse order give every path its first content and metadata |
| `Stacked.SessionConfined` | recovery/engine.go:643-685 | no run of an operation changes a file outside its targets and its own staging and asset files |
| `Service.ServiceOutcomes` | recovery/service.go:312-320 | an apply that returns leaves the candidate installed and running, the original installed and running, a recorded failure, or an untouched file |
| `Service.AtMostOneRollback` | recovery/engine.go:549-563 | no run begins more than one automatic rollback |
| `Executor.Process.Apply` | recovery/engine.go:440-563 | the apply code ends in the world, and with the reply, that the machine has; undisturbed on a prepared operation it returns success with every output installed and committed |
| `Executor.Process.ApplyOne` | recovery/engine.go:643-685 | installing one entry does what the machine does to the files, and reports it |
| `Executor.Process.Recover` | recovery/engine.go:697-798 | the same for recovery, with its reverse loop; undisturbed it returns success with every original back |
| `Executor.Process.UndoOne` | recovery/engine.go:800-861 | undoing one entry does what the machine does to the files |
| `Executor.Process.RestoreAll` | recovery/engine.go:765-786 | the reverse loop with its failure list goes where the machine goes |
| `Executor.Process.Prepare` | recovery/engine.go:337-379 | the same for preserving backups and candidates; undisturbed it ends ready, or as failed exactly when an artifact is there already |
| `Executor.Process.Reconcile` | recovery/engine.go:865-882 | the same for reconciliation, which writes no file |
| `FleetOutcomes.BatchCommits` | recovery/fleet.go:314-393 | from a ready batch whose targets are ready and serve their calls, undisturbed: the batch commits, every outcome is dispatched and committed, every target has installed its operation, and each was sent one apply |
| `FleetOutcomes.RolloutEnds` | recovery/fleet.go:348-393 | the course of a rollout after the first inspection: everything before the first entry that does not commit has committed; nothing is sent to that entry exactly when it is not ready or not reached; a lost call makes the batch unknown, a declined one stops it; later entries are untouched |
| `FleetOutcomes.ApplyBatchEnds` | recovery/fleet.go:314-393 | the same from the request on: a first inspection that any target fails changes nothing |
| `FleetRepairs.RecoverBatchEnds` | recovery/fleet.go:440-510 | the course of a batch recovery, last entry first: how far it gets, how it is saved, what is sent to each entry and what becomes of it |
| `FleetRepairs.BatchIsRecovered` | recovery/fleet.go:440-510 | when every dispatched entry is reached, and is back or below the ceiling with a target that serves, the batch is recovered with one recover call for each entry that was not back |
| `FleetRepairs.ReconcileBatchEnds` | recovery/fleet.go:395-439 | what reconciliation records of every entry, the verdict on the whole, and that it sends nothing |
| `FleetRepairs.LaunchRefused` | recovery/fleet.go:314-460 | the statuses in which each request is refused without an effect |
| `BatchOutcomes.BatchIsPrepared` | recovery/fleet.go:220-281 | a batch is stored exactly when its identity is fresh, its manifest fits, and its operations are ready, on distinct targets and claimed by nobody; it then starts ready, undispatched and with every claim |
| `BatchOutcomes.OffersAreCommitted` | recovery/fleet.go:220-393 | from the offers to the end: ready operations on idle targets that serve are put together and all commit |
| `FleetTheorems.FleetRecoveryIsFinal` | recovery/fleet.go:440-510 | once a batch is saved as recovered, every dispatched target keeps its originals whatever is in flight or comes later, and no other target was ever sent anything |
| `FleetTheorems.AtMostOnceDispatch` | recovery/fleet.go:345-390 | within one batch at most one apply per entry, only after a durable dispatch, in order; a committed batch has committed everywhere |
| `BatchTheorems.AtMostOnceAcrossBatches` | recovery/fleet.go:220-393 | over all batches, controllers, crashes and concurrent savers: of each operation of each target at most one apply is ever sent, by the batch that holds its claim, with its dispatch on record |
| `BatchTheorems.BatchesShareNothing` | recovery/fleet.go:194-280 | two batches never name the same operation of the same target, and no batch names one twice |
| `BatchTheorems.BatchRunsAlone` | recovery/fleet.go:141-172 | among any others, each batch runs exactly as it would alone, so every result about one batch holds of each of many |
| `BatchTheorems.SaveAgrees` | state/store_batch.go:52-67 | the row that the controllers have after a save is the row that the table has, granted or refused |
| `BatchTheorems.HappenKeeps` | recovery/fleet.go:194-280 | preparing a batch and every event of every batch keeps table, rows, claims and log in agreement |
| `BatchTheorems.RecoveryIsFinalAmongBatches` | recovery/fleet.go:440-510 | recovery of a batch is final whatever other batches do |
| `FleetTheorems.SendsInOrder` | recovery/fleet.go:345-390 | an apply is sent when its dispatch is on record and every earlier entry has committed |
| `FleetTheorems.RepairIsBounded` | recovery/fleet.go:480-485 | recover calls to an entry never exceed its recorded repairs, nor those the limit of the plan |
| `FleetTheorems.RepairsInReverse` | recovery/fleet.go:462-507 | a recover call is sent to an entry only when every later dispatched entry has been put back |
| `FleetTheorems.ReconcileOnlyReads` | recovery/fleet.go:395-439 | reconciliation changes no dispatch and no repair, and sends nothing |
| `FleetTheorems.DoKeeps` | recovery/fleet.go:314-510 | every event of controllers, network, targets and operators keeps the fleet invariant, on which all results about any run rest |
| `FleetProtocol.SaveKeeps` | recovery/fleet.go:141-153 | a guarded save by a process whose proposal is sound keeps the fleet invariant, acknowledged or not |
| `FleetProtocol.ApplyUsesPermission` | recovery/fleet.go:357-364 | the permission to apply an entry is held by one process of all and used once |
| `FleetProtocol.RecoverUsesPermission` | recovery/fleet.go:486-493 | the same for each recorded repair |
| `FleetSafety.TargetEventKeeps` | recovery/engine.go:440-882 | whatever targets, network and operators do keeps the fleet invariant, and undoes nothing that is final |
| `BatchStore.Store.SaveRecoveryBatch` | state/store_batch.go:28-73 | a save takes effect in full exactly when it is granted, malformed and oversized documents refused, and otherwise not at all |
| `BatchStore.Store.InsertClaims` | state/store_batch.go:39-46 | claims are inserted exactly when they are distinct and none is taken |
| `BatchStore.ClaimsArePermanent` | state/store_batch.go:28-73 | whatever savers run: claims stay, plans never change, revisions grow, and the log is the history of each row |
| `BatchStore.OneSaverWins` | state/store_batch.go:52-61 | of two savers that read the same revision at most one is granted |
| `BatchStore.ClaimIsExclusive` | state/store_batch.go:42-46 | a second batch that claims a target operation is refused for good |
| `BatchStore.GuardIsRevision` | state/store_batch.go:52-67 | the comparison of revision and plan is the whole guard: the next event is never taken |
| `SshSafety.DoKeeps` | recovery/ssh.go:202-514 | every event of operators, supervisor, clock and power keeps the SSH invariant, on which all results about any run rest |
| `SshOutcomes.CommitConfirm` | recovery/ssh.go:202-420 | commit-confirm as a whole: an undisturbed application that is confirmed within its window ends committed with the new configuration; one that is not is rolled back by the first tick after the window to the original file and listener; either way the guard is cleared and nothing else has changed |
| `SshOutcomes.WatchdogActs` | recovery/ssh_supervisor_linux.go:217-259 | in every reachable idle host the tick of a live listener acts exactly when its reference has expired and its operation is not a failed restoration: it begins a rollback unless the operation is settled, and then it clears the guard |
| `SshOutcomes.WatchdogRestores` | recovery/ssh_supervisor_linux.go:244-259 | that rollback, undisturbed, ends recovered with the original file and listener and no guard |
| `SshOutcomes.WatchdogClears` | recovery/ssh_supervisor_linux.go:236-238 | a settled operation only loses its guard |
| `SshOutcomes.StartupActs` | recovery/ssh_supervisor_linux.go:67-99 | what a start does first, by what is pending and its status |
| `SshOutcomes.StartupRestores` | recovery/ssh_supervisor_linux.go:78-166 | an undisturbed start over an unsettled operation ends recovered, launches the original once, and clears the guard |
| `SshOutcomes.StartupServes` | recovery/ssh_supervisor_linux.go:67-166 | a start with nothing to restore serves the file that is there, and clears a settled guard |
| `SshOutcomes.ApplyAwaits` | recovery/ssh.go:202-336 | an undisturbed application leaves the new configuration running, awaiting confirmation under a guard that expires one window after the request |
| `SshOutcomes.ApplyRefused` | recovery/ssh.go:202-271 | in every other state the request changes nothing |
| `SshOutcomes.ConfirmDecides` | recovery/ssh.go:343-420 | after a pause of any length a confirmation commits if and only if the last sample is before the deadline in the arming boot; otherwise it changes nothing |
| `SshOutcomes.ConfirmCommits` | recovery/ssh.go:343-420 | an undisturbed confirmation before the deadline ends committed with the guard cleared |
| `SshOutcomes.OperatorRestores` | recovery/ssh.go:422-514 | an operator's undisturbed recovery ends recovered, or, without a listener, with the original file back and the rest left to the next start |
| `SshOutcomes.ConflictIsLeft` | recovery/ssh.go:463-484 | a file that is neither original nor output is left alone, and the rollback ends as failed |
| `SshOutcomes.TrialFails` | recovery/ssh.go:271-341 | an application in which one primitive fails: its status, and the guard that it leaves for the watchdog |
| `SshOutcomes.RollbackFails` | recovery/ssh.go:463-514 | a rollback or restart in which one primitive fails: its status, the guard that it keeps unless it has recovered, and the listener that it takes down |
| `SshTheorems.PendingIsKept` | recovery/ssh.go:272-298 | from arming to the first durable commit or recovery the guard row holds exactly that operation's reference |
| `SshTheorems.OneArmed` | recovery/engine.go:150-159 | at most one operation of the whole target is pending |
| `SshTheorems.LaunchesAreLegit` | recovery/ssh_supervisor_linux.go:67-118 | every start of a listener reads the original configuration or one confirmed by then |
| `SshTheorems.ConfirmedInTime` | recovery/ssh.go:343-420 | a commit is made from the awaiting status, in the arming boot, with its last clock sample before the deadline |
| `SshTheorems.DecisionsExclude` | recovery/ssh_supervisor_linux.go:217-259 | no operation is both confirmed and automatically rolled back, unless an operator began to recover it after confirmation |
| `SshTheorems.ConfirmedButRolledBack` | recovery/ssh_supervisor_linux.go:78-99 | exactly when a confirmed operation can still be rolled back without an operator |
| `SshTheorems.ConfirmedAndUndone` | recovery/ssh.go:413-419 | a run in which what was confirmed is undone by the startup path |
| `SshTheorems.FailureIsSticky` | recovery/ssh_supervisor_linux.go:239-243 | without an operator, a failed restoration keeps its status and is never retried |
| `SshSafety.ClearKeeps` | state/store_guard.go:57-66 | a guard is cleared only for a settled operation, and what is then in place is legitimate |
| `GuardStore.Store.ArmRecoveryGuard` | state/store_guard.go:38-51 | arming goes exactly from nothing pending to this operation, and leaves the lease and every other row alone |
| `GuardStore.Store.ClearRecoveryGuard` | state/store_guard.go:53-66 | a receipt clears exactly the operation it names, and leaves the lease and every other row alone |
| `GuardStore.Store.PutRecoveryGuard` | state/store_guard.go:20-26 | a heartbeat replaces the lease or begins a row, and leaves what is pending and every other row alone |
| `GuardStore.Store.RecoveryGuardArmed` | state/store_guard.go:9-16 | the answer says whether some operation of the target is pending |
| `GuardStore.PendingSurvives` | state/store_guard.go:18-66 | a pending operation survives every run of requests without its own receipt |
| `GuardStore.ArmedOnce` | state/store_guard.go:38-66 | after arming, whatever follows: nothing can be armed there before its own receipt is presented, and that receipt works once |
| `GuardStore.PendingWasArmed` | state/store_guard.go:38-51 | nothing becomes pending but by being armed |
| `SshGuards.RunIsStored` | recovery/ssh.go:272-300 | over every run of the SSH machine, heartbeats included, its guard column is what the guard table holds after the requests of that run |
| `SshGuards.PendingIsStored` | recovery/ssh_supervisor_linux.go:156-212 | from arming to settling, the row in the table holds exactly the armed reference, through every heartbeat and restart |
| `SshGuards.ArmedShows` | recovery/engine.go:150-159 | the test for a pending operation reads the same in the table and in the machine |
| `SshConfig.Parse` | recovery/ssh_config.go:45-92 | a text is accepted exactly when it is small, without NUL, and its directive map is the required one with one sound port |
| `SshConfig.ValidateManagedSSHChange` | recovery/ssh_config.go:94-107 | from both texts: an accepted change alters the port alone, and every such change is accepted |
| `SshConfig.OrderDoesNotMatter` | recovery/ssh_config.go:61-80 | the order of lines is of no account |
| `SshConfig.WrittenIsRead` | recovery/ssh_config.go:60-72 | reading lines and fields inverts writing them down |
| `SshWriting.TextIsRead` | recovery/ssh_config.go:60-72 | a text says what its statements say, whatever blank lines, comments and white space lie around and between their words |
| `SshWriting.EveryTextIsWritten` | recovery/ssh_config.go:60-72 | every text is such a writing |
| `SshWriting.CaseDoesNotMatter` | recovery/ssh_config.go:69-76 | keys may be written in any letter case |
| `SshConfig.StatementsConcat` | recovery/ssh_config.go:60-66 | a text says what its parts say, one after the other |
| `Snapshot.Runner.RunSnapshot` | recovery/snapshot.go:328-407 | a call cut anywhere leaves one of the allowed configurations and loses neither the original nor the checkpoint; one that returns leaves the complete result; an undisturbed one returns |
| `Snapshot.Runner.RunAll` | recovery/snapshot.go:328-407 | over any calls cut anywhere: at most one clone and one exchange, nothing lost, and a final status means the complete result |
| `Snapshot.Runner.ExchangeOnce` | recovery/snapshot.go:531-556 | a resumed run never exchanges a second time |
| `Snapshot.Runner.CreateCheckpoint` | recovery/snapshot.go:438-483 | a checkpoint is one clone with one receipt of its identity |
| `Snapshot.Runner.RestoreSnapshot` | recovery/snapshot.go:498-584 | a restore that returns has exchanged once and verified both trees |
| `Snapshot.CheckpointIsRestorable` | recovery/snapshot.go:253-319 | a committed checkpoint can be restored whatever became of the live tree, and brings back what was checkpointed |
| `NginxParser.Parser.Parse` | recovery/nginx_config.go:52-85 | the code with its shared index returns what the grammar function returns and only moves forward |
| `NginxParser.Parser.ParseDirective` | recovery/nginx_config.go:66-82 | one directive with its block, read as the grammar function reads it |
| `NginxParser.ParserInvertsFlatten` | recovery/nginx_config.go:45-90 | parsing and flattening are inverse: accepted token lists are the flattenings of well-formed trees nested at most four deep |
| `NginxParser.ParsedIsFlattened` | recovery/nginx_config.go:52-85 | what is accepted is well formed and flattens back to what was read |
| `NginxParser.FlattenedIsParsed` | recovery/nginx_config.go:52-85 | every well-formed tree is read back as it is |
| `NginxTokens.Tokenize` | recovery/nginx_config.go:208-268 | the scanning loop yields the tokens that the text was written with, bare or in quotes, with any white space and comments, and refuses every text that is written in no such way |
| `NginxWriting.ReadAsWritten` | recovery/nginx_config.go:208-268 | a text is read as given items if and only if it is a well-formed writing of them |
| `NginxWriting.WrittenIsScanned` | recovery/nginx_config.go:208-268 | whatever is well written is read as exactly what was written |
| `NginxWriting.ScannedWasWritten` | recovery/nginx_config.go:208-268 | whatever is read had been written so |
| `NginxTokens.ScanWord` | recovery/nginx_config.go:227-256 | one word, quoted or bare, ends where the token function ends it |
| `NginxScan.NoQuotedDelimiter` | recovery/nginx_config.go:257-261 | a token equals a delimiter exactly when it was written as bare punctuation |
| `NginxScan.ReadableIffValid` | recovery/nginx_config.go:208-268 | exactly the token lists of sayable words within the limit can be written down |
| `NginxScan.SaidIsScanned` | recovery/nginx_config.go:208-268 | every valid token list, written out with quotes, is read back as it is |
| `NginxShape.Validator.Validate` | recovery/nginx_config.go:93-190 | the check with its counters computes the shape and counts what it says |
| `NginxShape.ValidateNGINX` | recovery/nginx_config.go:188-196 | a tree has a shape exactly when it is accepted and each attested directive occurs once |
| `NginxShape.AcceptedChangeAltersReviewedValues` | recovery/nginx_config.go:22-35 | two accepted configurations have the same shape exactly when they differ in reviewed values only |
| `NginxShape.AcceptedIsAttested` | recovery/nginx_config.go:191-197 | an accepted configuration holds exactly one PID file, one notice log and one attested health header |
| `NginxCanonical.CanonicalIsAccepted` | recovery/nginx_config.go:93-197 | the least configuration, with any reviewed values in range, is accepted |
| `NginxChange.ChangeIsReviewed` | recovery/nginx_config.go:22-35 | from the characters on: an accepted change relates two well-formed, attested trees equal up to reviewed values |
| `NginxChange.ValidateNGINXChange` | recovery/nginx_config.go:22-35 | the whole check from both texts: accepted exactly when both have a shape and it is the same |
| `Rational.RoundRational` | recovery/quantity.go:166-193 | rounding by truncated division meets floor, ceiling, exact and ties-to-even, for negatives too |
| `Rational.RoundsItsValue` | recovery/quantity.go:166-193 | rounding a ratio is rounding its real value |
| `Rational.RoundingIsMonotone` | recovery/quantity.go:166-193 | every policy orders its results as it finds its arguments |
| `Rational.RoundingIsUnique` | recovery/quantity.go:166-193 | every policy determines its result |
| `Rational.RoundingIsDual` | recovery/quantity.go:166-193 | the floor of the opposite is the opposite of the ceiling; ties-to-even is symmetric |
| `Rational.RoundingIgnoresScale` | recovery/quantity.go:166-193 | only the value of a ratio matters, not how it is written |
| `Quantity.DecimalsAreAccepted` | recovery/quantity.go:52-60 | accepted values are exactly an optional minus, digits, and an optional point with digits, of at most 64 characters |
| `Quantity.RatioIsExact` | recovery/quantity.go:60-74 | the parsed ratio is the number that the decimal denotes |
| `Quantity.ParseDecimal` | recovery/quantity.go:52-75 | a value is parsed exactly when it passes, to the number it denotes |
| `Quantity.QuantityBase` | recovery/quantity.go:77-88 | a quantity becomes its exact measure in the base unit of its dimension |
| `Quantity.Calculate` | recovery/quantity.go:94-164 | the exact result is spelled out in lowest terms whenever there is one; an integer is given exactly when it rounds that result as asked, fits 64 bits and is what was expected |
| `QuantityUnits.UnitsDoNotMatter` | recovery/quantity.go:77-88 | operands multiplied out into other units of their dimensions give the same answers |
| `QuantityUnits.InUnitIsSame` | recovery/quantity.go:77-88 | a quantity written in a finer unit is accepted and has the same dimension and measure |
| `QuantityUnits.PartsOfWritten` | recovery/quantity.go:52-75 | what is written of a decimal is read back as the same decimal |
| `QuantityLaws.AnswerUndone` | recovery/quantity.go:94-164 | an exact answer taken up as an operand of the opposite operation gives back the first operand |
| `QuantityLaws.OperationLaws` | recovery/quantity.go:104-133 | addition and multiplication commute, have their neutral elements, and one distributes over the other |
| `QuantityLaws.UnitLadder` | recovery/quantity.go:38-50 | the units by one another, decimal and binary |
| `RationalText.LowestIs` | recovery/quantity.go:143-143 | dividing out the greatest common divisor leaves the same ratio, in lowest terms |
| `Capacity.StagingCapacity` | recovery/capacity_unix.go:97-119 | the cost is whole blocks for both files and eight more, and is refused exactly when it leaves the signed 64-bit range |
| `Capacity.CostIsBounded` | recovery/capacity_unix.go:97-119 | the cost is unique and lies from eight to under ten blocks above the sizes |
| `Capacity.CheckCapacity` | recovery/capacity_unix.go:34-85 | the grouping loop passes exactly when reserve and all costs of each device fit what was least available there |
| `RepairBudget.Operation.ReserveModelRepair` | recovery/repair_budget.go:13-48 | a slot is taken exactly below the smaller of the planned and the current ceiling, zero standing for two |
| `RepairBudget.Operation.ReserveAll` | recovery/repair_budget.go:13-48 | over any run of reservations under any ceilings, with other checks in between, neither slots nor granted repairs exceed the planned ceiling nor any bound on the current ones |
| `LegacyModels.OldPrimary` | config/models.go:99-111 | without bindings, the primary role is the main model of the global provider, with its key and endpoint |
| `LegacyModels.OldJudge` | config/models.go:112-122 | the judge, and the classifier with it, has a model of its own only when the old fields name one that is not the main model |
| `LegacyModels.OldWorkers` | config/models.go:123-139 | planning, execution and curation follow their own old name, and the primary role without one |
| `LegacyModels.OldVerifier` | config/models.go:121-122 | verification follows execution |
| `LegacyModels.PrefixIsDropped` | config/config.go:133-150 | a provider in front of a model is dropped once, but for the two router aliases |
| `LegacyModels.OldNameIsRead` | config/models.go:220-229 | an old name is read as provider and model, or as a model of the global provider |
| `ModelMigration.Config.EnsureModelBindings` | config/models.go:287-332 | the migration binds every role as it stood, materializes connections, clears the old fields and gives each saved key a place |
| `ModelMigration.Config.MaterializeConnections` | config/models.go:292-307 | every connection that the settings name, explicitly or by old fields, is made explicit |
| `ModelMigration.Config.KeepKeys` | config/models.go:308-331 | whatever the order of the keys, each goes where it would go alone |
| `ModelMigration.Config.SavedName` | config/models.go:319-326 | the search for a name ends and yields the first usable candidate |
| `MigrationTheorems.MeaningIsPreserved` | config/models.go:168-192 | a role that resolved resolves to the same connection name and model, to the same connection exactly when its place was not taken, and no longer through the legacy fields |
| `MigrationTheorems.ConnectionsAreKept` | config/models.go:311-330 | every connection survives, unchanged exactly when no saved credential replaces it |
| `MigrationTheorems.EndpointIsLost` | config/models.go:319-327 | a family of settings in which a connection loses its endpoint |
| `MigrationTheorems.KeysAreHeld` | config/models.go:308-331 | every nonempty saved key of a supported provider is held by a connection afterwards |
| `MigrationTheorems.SecondRun` | config/models.go:287-332 | a second run changes nothing, except that it binds a blank judge to the primary model |
| `MigrationTheorems.SecondRunBindsTheJudge` | config/models.go:113-117 | a configuration for which a second run does change something |

## Left out

- System calls: exclusive creation, atomic rename and exchange, directory sync and locks are
  primitives with the effects their callers rely on; a primitive is all or nothing, so a torn
  staging file is not modelled.
- Races between a final recheck and the rename that follows it: the two are one step. The
  creation of the quarantine directory is part of the move into it.
- Digests: a content stands for its SHA-256 and its length, and a manifest for its digest.
- Process identity, health checks, syntax checks and the SSH transport: their outcomes are chosen
  by the environment.
- Times: plan age and approval expiry are the `current` argument of a request; only the SSH
  deadline is modelled as a clock.
- Journal revisions within one process: an acknowledgement that is lost makes the later saves of
  the same call fail, which the control points express directly.
- `Planning.AcceptedIsValid`: takes the random operation identity to be unused, since the code
  only draws it at random, and a managed service to run the configuration in place, which the code
  does not compare either. What an adapter itself reviews is one verdict of the request.
- `BatchTheorems.AtMostOnceAcrossBatches`: the operations of different batches on one target run on
  files of their own here; `Stacked.StackedUndo` treats operations that overlap. Claims of another
  controller's database are not seen, as in the code.
- `BatchOutcomes.BatchIsPrepared`: host configuration, remote identity and digest, and the aggregate impact of a batch
  are decided by the environment before operations are offered.
- `FleetOutcomes.RolloutEnds`: each target behaves in one of five ways during the run, and serves a call without a
  failure or not at all; a target that fails half-way is treated by `EngineOutcomes.ApplyFails` and, for every
  interleaving, by the safety results.
- `FleetTheorems.DoKeeps`: the controllers are machines over values, one primitive a step, since
  the results are about the interleavings of several processes with a network; the local lock of a
  controller is not used, for comparing revisions suffices.
- `SshSafety.DoKeeps`: likewise a machine over values, for its results span several processes,
  crashes and reboots; nobody else writes the configuration file.
- `Snapshot.Runner.RunSnapshot`: nobody else writes to the subvolumes; inventories stand for trees.
- `SshConfig.Parse`: letters outside ASCII that stay outside it in lower case are left as they are,
  since no directive has them; bytes that are not UTF-8 are not modelled.
- `NginxShape.Validator.Validate`: works on the tree that the parser returns; the health URL is
  given by its host and path.
- `ModelMigration.Config.EnsureModelBindings`: the settings are one record that the method updates;
  the order in which names and keys are visited is left open, as the order of a map is.
- Fleet limits, impact measurement and transport configuration, SSH leases and evidence of new
  connections, snapshot namespaces and capacity: checks whose outcome the environment decides.
- Model-driven code, command line, console, memory views and retrieval: not part of this model.
