# Unlinger: a verified model of its cleanup, installation and control protocols

This project models the parts of Unlinger in which a mistake would cost a user's processes
or data, and proves what holds over whole runs. Verify it with `dafny verify dfyconfig.toml`.

**Cleanup executor** (`Cleanup*.dfy`). `CleanupExecutor.Execute` is the executor as a class
that updates its receipt, journal and maps step by step. Snapshots, lookups, the
revalidator, clocks, the journal, waits, signals and the stop flag are arbitrary functions
of everything that happened before, and the trace that `Execute` returns is proved to be
their answers. `CleanupMonitor` is a reference automaton that never looks at the executor;
the executor's contract says that the automaton finds its trace lawful and that the last
calls decide the result. `CleanupTrace`, `CleanupSignals`, `CleanupOrder`, `CleanupEnding`
and `CleanupTheorems` read plain statements about the trace off that contract, also for
runs in which the journal fails: what each effect rests on, the graces between the stages,
what a stop leaves to do, and why a run ended as it did. Plans for which the environment obliges
end Cleared, so the guarantees are not met by giving up.

**Install, accept, roll back** (`Install*.dfy`). `InstallTypes` lists every single durable
write with what the disk alone must say before it; no program counter is kept, so a run may
be cut between any two writes. The other modules but `InstallService` prove what holds in
every run. `InstallService` is the code: each operation makes only allowed writes, any of
which may fail or be the last, with launchd and the daemons acting in between. Four
behaviours of the code are results of their own:

* A backup that was published but not committed makes every later operation refuse, for
  ever and without touching anything (`RollbackInstallTransaction`, `Serve`).
* A rollback that starts before the backup and is cut after writing its intent sees its own
  `RollbackInProgress` on the next pass, takes the database for the candidate's and leaves
  it in evidence (`EarlyReentryStrands`; `GivesBackExactly` has the exact condition).
* On that path the database files are renamed one by one. A cut between two renames
  followed by a restart of the prior daemon can destroy a file that was left behind. At
  such a cut the rest of the transaction is safe if and only if everything is in evidence
  already or no LaunchAgent can be loaded (`KeptFromCutExactly`). From its opening a
  transaction is safe if and only if there is no LaunchAgent, and the main file is there or
  nothing is at stake (`KeptFromOpeningExactly`): a live daemon may always write a sidecar
  first, and sidecars without a main file are never backed up.
* The request for enforcement is a row of the database. It survives restarts, and the
  daemon arms itself by it after its first scan. Mode changes keep requests and runtime
  under a durable intent at every cut (`EnforceFloor`, `SetModeLocked`). A rollback that
  stops a silent daemon without a disarm does not: it keeps the floor if and only if the
  database did not ask for the prior generation when the transaction was opened
  (`FloorKeptExactly`). A finished rollback of a generation that was loaded is at the floor,
  because it was seen report-only before the record went. One that was not loaded is left
  selected over a database that may still ask for it, and arms itself at its next start
  (`FinishedFloorExactly`, `ExposedArms`).

**Control plane** (`Control*.dfy`). `ControlRuns` interleaves operator commands, observation
cycles, deliveries on any authority ever frozen, and the cache and storage leases;
`ControlTheorems` is about all such runs, and `ControlGates` says field by field when each
gate is open. `ControlPlane.Control` is the locked status with
its revision counter: each method is one critical section, takes one event of a run, and
says what that means for frozen authority and for leases. `ControlEngine` runs one cycle on
it with all other threads in between. The delivery gate never reads the pause field;
`DeliverySafety` shows why nothing is delivered during a pause all the same. `GatedCleanup`
puts the cleanup executor behind that gate.

**Algorithms**. `Crc`, `CrcDetection`, `CacheFile`: the table-driven CRC-32 against the
bit-by-bit one, its published check value, and what damage it cannot miss. `CacheNames`, `CacheRemoval`: scanning the
compile-cache bucket and removing a frozen plan. `Graph`: process-graph traversals on
graphs that may be cyclic. `Descriptors`: reading a whole list through a bounded buffer.
`Folding`, `Sorting` and `Wrappers` hold what is not about Unlinger.

## Model

| member | source | states |
|---|---|---|
| `CleanupExecutor.Execute` | crates/unlinger-core/src/cleanup.rs:582-863 | For every environment: every event of the trace is the environment's own answer; receipt rows are the journal's completed rows in order; Ok and Runtime leave no PREPARED row open, AttemptOpen leaves exactly the one it names; every call is lawful for the monitor, in its turn and in its place, graces, windows and stop polls included; the last call decides the result and its reason; a Cleared result has a terminal absence proof and the right label; the escalation discipline holds for the rows and for what was sent under a row left open; primaries are terminated in the first stage. An environment that obliges gets result Cleared |
| `CleanupExecutor.Execution.SignalTarget` | crates/unlinger-core/src/cleanup.rs:1149-1258 | PREPARED, then fresh evidence, then at most one signal, then exactly one row for the intent or an open attempt; in an obliging environment the target is settled, and dead after a KILL |
| `CleanupExecutor.Execution.CompletePrepared` | crates/unlinger-core/src/cleanup.rs:1260-1291 | either the row is durable and on the receipt, or the attempt stays open under that row's id and the receipt is unchanged |
| `CleanupExecutor.Execution.ValidateStage` | crates/unlinger-core/src/cleanup.rs:1069-1088 | success means every listed frozen target matches exactly, every omitted one was looked up as not running, and the revalidator said Eligible if anything survives |
| `CleanupExecutor.Execution.ObserveLiveness` | crates/unlinger-core/src/cleanup.rs:1099-1138 | each frozen target is either an exact survivor or was looked up as not running on this snapshot; unlisted survivors are reported missing |
| `CleanupExecutor.Execution.RunStage` | crates/unlinger-core/src/cleanup.rs:623-748 | one pass in plan order keeps the escalation discipline; the missing-TERM exit is reached only after a reappearance |
| `CleanupExecutor.Execution.Escalate` | crates/unlinger-core/src/cleanup.rs:623-748 | the three stages run only while something survives, each followed by its own grace, waited out in full before the next snapshot; in an obliging environment everything is dead afterwards |
| `CleanupExecutor.Execution.RevivalWindows` | crates/unlinger-core/src/cleanup.rs:750-777 | going on means that every window was waited out in full and ended in a Gone verdict on a snapshot taken after it |
| `CleanupExecutor.Execution.ProveGone` | crates/unlinger-core/src/cleanup.rs:778-805 | going on means exact absence of every frozen target and a Gone verdict on one snapshot |
| `CleanupExecutor.Execution.FreezeAll` | crates/unlinger-core/src/cleanup.rs:614-621 | every candidate is frozen while no row has been opened, so before anything is signalled; only such freezes count for the monitor |
| `CleanupExecutor.Execution.ExecuteArtifact` | crates/unlinger-core/src/cleanup.rs:887-948 | a removal happens under its own PREPARED row, on an artifact frozen before any row was opened, after the terminal proof; it counts as completed only once the path is proved absent |
| `CleanupExecutor.Execution.ReconcileArtifacts` | crates/unlinger-core/src/cleanup.rs:806-823 | all artifacts reconciled, or the run ends with the residue reason |
| `CleanupExecutor.Execution.WaitInterrupted` | crates/unlinger-core/src/cleanup.rs:1043-1057 | false only for a wait that ran to its deadline with no stop before or after it |
| `CleanupTrace.SignalsAreAuthorised` | crates/unlinger-core/src/cleanup.rs:1149-1258 | every signal of a lawful trace follows its own PREPARED row, still open and unused, and a later snapshot in which every listed frozen target matches exactly, every omitted one was looked up as not running, and the revalidator said Eligible |
| `CleanupTrace.NothingAfterStop` | crates/unlinger-core/src/cleanup.rs:1165-1240 | after a stop poll returned true there is no signal and no removal |
| `CleanupTrace.UnlinksAreAuthorised` | crates/unlinger-core/src/cleanup.rs:887-948 | every removal is of an artifact frozen before any row was opened, follows an absence proof after all revival windows, and its own PREPARED row is still open and unused |
| `CleanupOrder.StagesArePaced` | crates/unlinger-core/src/cleanup.rs:623-748 | a PREPARED signal row stands after exactly as many stage starts, and exactly the graces, that come before its stage: none before a PrimaryTerm row, the primary grace before a MemberTerm row, the primary and the member grace before an ExactKill row |
| `CleanupOrder.SignalIsPaced` | crates/unlinger-core/src/cleanup.rs:623-748 | when a signal leaves, exactly the graces of the stages before its own have been waited out, to their deadline |
| `CleanupOrder.GraceBeforeNextStage` | crates/unlinger-core/src/cleanup.rs:646-695 | between a signal and any row of a later stage stands a wait for the grace of the signal's stage, to its deadline |
| `CleanupOrder.GraceBeforeProof` | crates/unlinger-core/src/cleanup.rs:623-805 | between a signal and the snapshot that proves absence stands the wait for its grace, and every revival window after that |
| `CleanupOrder.EffectsFollowPolls` | crates/unlinger-core/src/cleanup.rs:1149-1258 | the call right before every signal, removal or wait is a stop poll that said go on |
| `CleanupOrder.RowsFollowPolls` | crates/unlinger-core/src/cleanup.rs:1149-1258 | a PREPARED row directly follows its clock reading and the stop poll before that, with at most the recheck of its artifact in between |
| `CleanupOrder.PollsFollow` | crates/unlinger-core/src/cleanup.rs:1043-1057 | an opened row and a finished wait are followed at once by a stop poll |
| `CleanupEnding.TheLastCallTells` | crates/unlinger-core/src/cleanup.rs:582-863 | what the last call of any run says about its result: which answer ends the run, in which state and with which reason |
| `CleanupEnding.StopEndsTheRun` | crates/unlinger-core/src/cleanup.rs:1165-1240 | once a poll says stop at most the open row is completed, as cancelled, and the run ends as drained unless that row cannot be completed |
| `CleanupEnding.SurvivorsOutlivedTheGrace` | crates/unlinger-core/src/cleanup.rs:728-748 | a run that blames survivors took the deciding snapshot after all three graces, did nothing afterwards, and names exactly the targets that were listed or then found running |
| `CleanupEnding.KillGraceWaited` | crates/unlinger-core/src/cleanup.rs:728-735 | between every KILL and the snapshot that decides stands the wait for the kill grace |
| `CleanupEnding.ArtifactsInPlanOrder` | crates/unlinger-core/src/cleanup.rs:806-823 | artifact rows are the artifacts of the plan in its order, without a gap, and all of them in a Cleared receipt |
| `CleanupEnding.RemovedIsLookedFor` | crates/unlinger-core/src/cleanup.rs:887-948 | a completed removal is followed by a look at the path, which found it absent if the receipt is Cleared |
| `CleanupEscalation.AppendDisciplined` | crates/unlinger-core/src/cleanup.rs:623-748 | one more row at the next place of the stage keeps: one TERM and one KILL per target, stage and plan order, every KILL after a Delivered or AlreadyExited TERM |
| `CleanupSignals.NoSignalTwice` | crates/unlinger-core/src/cleanup.rs:623-748 | no target is sent the same signal twice, also when the journal fails |
| `CleanupSignals.KillsFollowTermsSent` | crates/unlinger-core/src/cleanup.rs:703-727 | every KILL leaves after a TERM for its target was journalled as delivered or already exited, also when the journal fails afterwards |
| `CleanupSignals.LeadersGoFirst` | crates/unlinger-core/src/cleanup.rs:297-311 | a PrimaryTerm row is for a controller, or for a browser root if there is no controller; such a leader gets a MemberTerm row only after somebody who was gone came back |
| `CleanupTheorems.ClearedMeansAbsent` | crates/unlinger-core/src/cleanup.rs:132-201 | a receipt that projects a cleared process tree, even with state Failed and residue, rests on an absence proof after every revival window, unless the revalidator itself used an artifact reason |
| `CleanupTheorems.ClearedIsProved` | crates/unlinger-core/src/cleanup.rs:750-805 | a Cleared receipt rests on an absence proof: every revival window waited out and ended in a Gone verdict, then exact absence and a last Gone verdict; and on its last snapshot every target is absent and was looked up as not running |
| `CleanupTheorems.NoKillWithoutTerm` | crates/unlinger-core/src/cleanup.rs:703-712 | if an identity once found not running never comes back, the missing-TERM exit is unreachable |
| `CleanupTheorems.ReceiptTellsEffects` | crates/unlinger-core/src/cleanup.rs:1149-1291 | a finished receipt records a delivery, removal or unknown effect exactly when the trace holds one |
| `CleanupTheorems.FailCloseIsComplete` | crates/unlinger-daemon/src/engine.rs:847-871 | the daemon keeps enforcing exactly when nothing is uncertain and nothing was done, or the state is Cleared, or only residue is left; and where something was done the tree was proved absent |
| `CleanupTheorems.FailsCloseExactly` | crates/unlinger-daemon/src/engine.rs:847-871 | the daemon fails closed exactly when delivery is in doubt, or something was done and the run neither cleared the tree nor left residue only |
| `CleanupTheorems.OutcomesExactly` | crates/unlinger-core/src/cleanup.rs:132-201 | which receipts are projected as cleared, cleared with residue and revived, by their rows, state and reason |
| `CleanupTheorems.EffectsHaveRows` | crates/unlinger-core/src/cleanup.rs:1149-1291 | in every lawful prefix an effect happened exactly when a row, or the open bracket, records it |
| `CleanupPlan.FromConfirmed` | crates/unlinger-core/src/cleanup.rs:234-294 | a plan exists exactly for admissible reports and holds the report's own targets; every refusal is due exactly when the checks before it pass and its own fails, and names the first offending target |
| `InstallInvariant.InvKept` | crates/unlinger-cli/src/service.rs:406-606 | every single durable write and every outside event keeps the invariant: selection per phase, committed backup present and equal to the prior database's snapshot, a runtime armed only where its database asks for its generation |
| `InstallInvariant.OnlyLeaksExpose` | crates/unlinger-cli/src/service.rs:2396-2472 | the only writes after which a selected generation may arm itself without an Enforce intent are a rollback's, over a database that still asks for the prior generation |
| `InstallRuns.InvThroughout` | crates/unlinger-cli/src/service.rs:406-606 | the invariant holds at every cut of every run |
| `InstallRuns.RollbackConverges` | crates/unlinger-cli/src/service.rs:2396-2481 | once DatabaseBackedUp is durable, or a rollback bound to restore, however many passes are cut, the one that finishes restores plist and manifest at the report-only floor and gives back the committed snapshot, or no database if none was committed |
| `InstallStarts.RollbackRestartsPrior` | crates/unlinger-cli/src/service.rs:2441-2465 | in every run, a rollback whose prior generation was loaded removes its record only after a load of the restored plist under that record, over a database that does not ask for it |
| `InstallStarts.ReadyWasStarted` | crates/unlinger-cli/src/service.rs:495-503 | in every run, a record becomes CandidateReady only after a load of its own candidate since it became CandidateSelected |
| `InstallRuns.GivesBackExactly` | crates/unlinger-cli/src/service.rs:2424-2439 | in every run, a rollback that completes gives the prior database back exactly when its record had committed a backup, or did not call for a restore, or there was none |
| `InstallRuns.BackupOutlivesNeed` | crates/unlinger-cli/src/service.rs:531-606 | a committed backup stays, unchanged, until the transaction is Accepted or removed |
| `InstallRuns.AcceptanceIsFinal` | crates/unlinger-cli/src/service.rs:531-606 | after Accepted is durable no later operation or crash selects an older generation, and the record stays Accepted until it is removed |
| `InstallRuns.EnforceFloor` | crates/unlinger-cli/src/service.rs:1372-1459 | in every run without a leak, cut anywhere: a runtime is armed, and the selected generation asked to be, only under a durable Enforce intent for that generation; the request survives restarts and re-arms the daemon by itself |
| `InstallRuns.EnforceIntentIsPrior` | crates/unlinger-cli/src/service.rs:406-520 | with a transaction on disk an Enforce intent is the recorded prior manifest, not yet replaced |
| `InstallRuns.FloorWithoutRollback` | crates/unlinger-cli/src/service.rs:1372-1459 | every run that is not rolling back, mode changes included, never arms without a durable intent, at any cut |
| `InstallEnforcement.FloorKeptExactly` | crates/unlinger-cli/src/service.rs:2571-2641 | while the record is on disk, every run of a transaction keeps the enforcement floor if and only if at its opening, offline or not, the database does not ask enforcement for the generation to go back to |
| `InstallEnforcement.AskedBreaksFloor` | crates/unlinger-cli/src/service.rs:2619-2639 | the failing run: stopped without a disarm, manifest at report-only, restarted, armed again by its first scan |
| `InstallEnforcement.UnaskedKeepsFloor` | crates/unlinger-daemon/src/store.rs:1247-1302 | while neither the live nor the prior database asks for the prior generation, no run of the transaction arms without an intent |
| `InstallRuns.RemovalExposesExactly` | crates/unlinger-cli/src/service.rs:2441-2472 | in every run, the removal of the record ends a rollback with the prior generation exposed exactly when it was not loaded before and the database it gets back still asks for it |
| `InstallEnforcement.FinishedFloorExactly` | crates/unlinger-cli/src/service.rs:2441-2472 | all finished rollbacks of a transaction keep the floor if and only if the prior generation was loaded, so that it was seen report-only before the record went, or the database did not ask for it at the opening |
| `InstallEnforcement.FinishedExposed` | crates/unlinger-cli/src/service.rs:2441-2468 | the lasting failure: not loaded, asked for, rolled back to report-only, record gone |
| `InstallEnforcement.ExposedArms` | crates/unlinger-daemon/src/store.rs:1377-1412 | the next start of an exposed generation arms it without an intent |
| `InstallRuns.FollowsThroughout` | crates/unlinger-cli/src/service.rs:238-247 | what a transaction keeps from one cut to any later one: its recorded prior selection, its committed backup, its direction |
| `InstallConservation.Conservation` | crates/unlinger-cli/src/service.rs:2424-2439 | at every cut of every run that lets no daemon write into a half-moved database, the prior database is live, in evidence, or in the committed snapshot |
| `InstallConservation.SingleFileConservation` | crates/unlinger-cli/src/service.rs:3060-3110 | the same with no condition on the run, for a database that is a single file |
| `InstallExact.KeptFromOpeningExactly` | crates/unlinger-cli/src/service.rs:406-520 | every run of a transaction keeps whatever its prior database has become, if and only if at its opening there is no LaunchAgent to load, and the main file is there or every file is in evidence already |
| `InstallExact.KeptFromCutExactly` | crates/unlinger-cli/src/service.rs:3098-3105 | at a cut where the prior database is final and has no snapshot, every further run of the transaction keeps it if and only if all of it is in evidence or there is no LaunchAgent to load |
| `InstallCuts.ALoadableDaemonCanLose` | crates/unlinger-cli/src/service.rs:3098-3105 | wherever a daemon can be loaded, some run of an opened transaction loses its database |
| `InstallCuts.OverwrittenWhileSplit` | crates/unlinger-cli/src/service.rs:3098-3105 | at every cut with a file neither in evidence nor in a snapshot, a daemon that comes back can overwrite it |
| `InstallCuts.SidecarCanBeLost` | crates/unlinger-cli/src/service.rs:3098-3105 | for every database with a sidecar: a run in which a cut between two renames lets the restarted prior daemon overwrite the sidecar left behind |
| `InstallCuts.OrphansCanBeLost` | crates/unlinger-cli/src/service.rs:2954-2963 | from every opened transaction over sidecars without a main file: they are not backed up and the candidate can overwrite them |
| `InstallCuts.EarlyReentryStrands` | crates/unlinger-cli/src/service.rs:2474-2481 | for every database: a rollback begun before the backup and cut after its intent completes without giving it back; all its files are left in evidence |
| `InstallService.Service.RollbackInstallTransaction` | crates/unlinger-cli/src/service.rs:2396-2472 | one pass: refuses without touching anything exactly when a published backup is not committed; a finished pass leaves no transaction and no backup, the prior selection at the floor, the database the record allows, and exposure only of a generation that was not loaded and whose database asks for it; undisturbed it finishes exactly when not stuck, no legacy daemon enforces and the prior generation would not arm itself again, and then the prior generation runs if it was loaded and nothing runs otherwise |
| `InstallService.Service.Restart` | crates/unlinger-cli/src/service.rs:2451-2458 | done means that the restored plist was loaded after the lock was given up, and seen report-only: its database does not ask for it; undisturbed it is then what runs |
| `InstallService.Service.Drain` | crates/unlinger-cli/src/service.rs:2571-2641 | a managed daemon that answers is disarmed and drained, which drops its request; one that does not is stopped all the same in a rollback, and refused in an installation; a legacy daemon that is silent or enforces is refused |
| `InstallService.Service.MarkRollbackInProgress` | crates/unlinger-cli/src/service.rs:2474-2509 | the intent is durable only if the committed backup is as the record says; the restore flag is set for every phase in which the candidate may have touched the database |
| `InstallService.Service.PreserveFailedDatabase` | crates/unlinger-cli/src/service.rs:3060-3110 | every present database file is renamed into one fresh evidence directory, one at a time |
| `InstallService.Service.RestoreDatabaseBackupFiles` | crates/unlinger-cli/src/service.rs:3027-3058 | the live database becomes exactly the committed snapshot |
| `InstallService.Service.Reselect` | crates/unlinger-cli/src/service.rs:2441-2465 | plist and manifest become the recorded ones at the report-only floor |
| `InstallService.Service.RecoverIncompleteInstall` | crates/unlinger-cli/src/service.rs:2372-2394 | finishes, holds or rolls back as the phase says; a ready candidate is held untouched, a stuck one refused untouched |
| `InstallService.Service.FinalizeAcceptedLease` | crates/unlinger-cli/src/service.rs:2752-2766 | removes the rollback material and then the record, and leaves the selection alone, from any partly finished state |
| `InstallService.Service.BackupDatabase` | crates/unlinger-cli/src/service.rs:2954-3005 | the published backup is the snapshot of the offline database, or absent if there is no main file; a snapshot that cannot be published is removed (`PublishOrDiscard`) |
| `InstallService.Service.Install` | crates/unlinger-cli/src/service.rs:406-520 | refuses Enforce and any undecided transaction; success leaves a ready report-only candidate with its rollback material and a record of the selection as it was; a LaunchAgent loaded without a process counts as loaded; undisturbed it succeeds from every restorable state in which no legacy daemon enforces, and then the candidate is what runs |
| `InstallService.Service.StartCandidate` | crates/unlinger-cli/src/service.rs:499-504 | undisturbed, the candidate runs and its record is CandidateReady; the record is never advanced without a load of the candidate |
| `InstallService.Service.InstallOrRecover` | crates/unlinger-cli/src/service.rs:505-520 | an installation whose steps fail is undone at once: if nothing else goes wrong and the rest can be rolled back, nothing of the transaction is left |
| `InstallService.Service.AcceptCandidate` | crates/unlinger-cli/src/service.rs:531-588 | success means the candidate is selected and no transaction is left; undisturbed it succeeds on a ready candidate |
| `InstallService.Service.RollbackCandidate` | crates/unlinger-cli/src/service.rs:590-606 | success means a finished rollback of a transaction that was not accepted; undisturbed it succeeds exactly then, unless stuck |
| `InstallService.Service.SetModeLocked` | crates/unlinger-cli/src/service.rs:1372-1459 | the Enforce intent is durable before arming, the report-only one only after the request is gone; however it ends and wherever it is cut, nothing is armed or asked to be without an intent; undisturbed it succeeds exactly when the selected generation runs with its database, or has a manifest, and the selected plist is what runs then |
| `InstallService.Service.ArmOrContain` | crates/unlinger-cli/src/service.rs:1439-1456 | an attempt to arm that fails leaves the generation at report-only: manifest and database, if nothing else goes wrong |
| `InstallService.Service.Settle` | crates/unlinger-cli/src/service.rs:1403-1421 | a runtime found armed under a report-only intent is no longer asked to be armed before anything else is done |
| `InstallService.Service.EmergencyRestart` | crates/unlinger-cli/src/service.rs:1654-1688 | stop, lock, drop the request offline, start again: done means the database asks for nothing and the selected plist was loaded again; undisturbed it runs; at every cut a world without exposure stays so |
| `InstallService.Service.RestoreReportOnly` | crates/unlinger-cli/src/service.rs:1487-1583 | done means the database does not ask for the manifest's generation, by a confirmed disarm or an emergency restart |
| `InstallService.Service.SetMode` | crates/unlinger-cli/src/service.rs:705-712 | recovers first; a held or stuck transaction refuses the change; without an undecided transaction nothing is armed or asked to be without an intent, at any cut |
| `InstallService.Service.Serve` | crates/unlinger-cli/src/service.rs:406-712 | any operations in any order, cut anywhere, form a run; a stuck transaction stays as it is forever |
| `ControlTheorems.DeliverySafety` | crates/unlinger-daemon/src/engine.rs:381-536 | a delivery happens only in Enforce, not draining, unpaused, armed for the running generation if managed, under the epoch in force ever since its cycle read the lifecycle, with no policy command acknowledged since its cycle read the revision |
| `ControlTheorems.NothingDeliveredAfter` | crates/unlinger-daemon/src/ipc.rs:1339-1385 | whatever was frozen before a pause, resume, retry, protect, unprotect, disarm, drain or failure is never delivered after it |
| `ControlTheorems.EpochIsContinuous` | crates/unlinger-daemon/src/ipc.rs:2588-2619 | an epoch in force at two moments was in force, and the mode Enforce, all the time between |
| `ControlTheorems.EpochStaysDead` | crates/unlinger-daemon/src/ipc.rs:2666-2674 | an issued epoch that is no longer in force never comes back |
| `ControlTheorems.RevokedForever` | crates/unlinger-daemon/src/ipc.rs:1152-1176 | after a pause, disarm, drain or fail-close no lease issued before it may ever continue, whatever is resumed or armed later |
| `ControlTheorems.OnlyRevocationStopsALease` | crates/unlinger-daemon/src/ipc.rs:1275-1295 | a lease that may continue is stopped by a revocation or its own release and by nothing else, scans and process cleanups included |
| `ControlTheorems.LeasesThroughout` | crates/unlinger-daemon/src/ipc.rs:253-283 | at every moment the activity flag is the disjunction of the three owners, and cache and storage leases do not coexist |
| `ControlTheorems.OwnerStaysUntilItFinishes` | crates/unlinger-daemon/src/ipc.rs:1181-1198 | in every run a cache or storage owner stays until it finishes with its own token, whatever finishes with older tokens come in between |
| `ControlGates.LeasesStartOnlyWhenIdle` | crates/unlinger-daemon/src/ipc.rs:2634-2648 | in every run a storage or cache lease starts only while the daemon is healthy, ready, enforcing under an epoch, armed for its generation if managed, neither draining nor paused, and nobody scans or cleans |
| `ControlGates.LeaseRestsOn` | crates/unlinger-daemon/src/ipc.rs:1152-1176 | in every run, whoever may continue was issued its lease while the daemon worked and was idle; the daemon works now, the epoch stood all the time between and nothing was revoked |
| `ControlGates.GateOpensWhenIdle` | crates/unlinger-daemon/src/ipc.rs:2634-2648 | on a tidy status the gate is open exactly when the daemon works, unpaused, and nobody scans or cleans |
| `ControlGates.MayContinueExactly` | crates/unlinger-daemon/src/ipc.rs:1152-1176 | a lease may continue exactly when it is the owner's, not cancelled, and the daemon works, unpaused, under its epoch |
| `ControlGates.SignalGateExactly` | crates/unlinger-daemon/src/ipc.rs:2619-2633 | a signal passes exactly under the epoch in force, not draining, armed for the running generation if managed |
| `ControlRuns.SoundKept` | crates/unlinger-daemon/src/ipc.rs:1125-1385 | every critical section keeps the bookkeeping and: while a frozen revision stands, nothing is paused |
| `ControlEngine.Engine.RunCycle` | crates/unlinger-daemon/src/engine.rs:381-536 | one cycle on the control plane with every other thread acting between any two steps: each delivery is safe; undisturbed, an armed unpaused daemon delivers every signal |
| `ControlEngine.Engine.Freeze` | crates/unlinger-daemon/src/engine.rs:381-536 | lifecycle, revision, pause expiry and status are read in turn; undisturbed, an armed unpaused daemon freezes an authority that holds |
| `ControlPlane.Control.Pause` | crates/unlinger-daemon/src/ipc.rs:1745-1764 | rejects zero, too long and overflowing durations; acknowledged, it voids all frozen authority and stops both leases |
| `ControlPlane.Control.Resume` | crates/unlinger-daemon/src/ipc.rs:1765-1771 | acknowledged, it voids all frozen authority; a lease that was over stays over |
| `ControlPlane.Control.ChangePolicy` | crates/unlinger-daemon/src/ipc.rs:1850-1885 | retry, protect and unprotect, exactly when the store accepted them, void all frozen authority and leave the leases alone |
| `ControlPlane.Control.Arm` | crates/unlinger-daemon/src/ipc.rs:1772-1809 | succeeds exactly for the exact identity of a healthy, ready daemon that does not drain and is either report-only with nothing armed or enforcing already for this generation, with the store's consent, as one event of the run; an epoch that is in force stays, and one offered in vain is never used |
| `ControlPlane.Control.Disarm` | crates/unlinger-daemon/src/ipc.rs:1810-1834 | succeeds exactly for the exact identity; voids all frozen authority, stops both leases, and leaves a failed daemon unhealthy |
| `ControlPlane.Control.BeginDrain` | crates/unlinger-daemon/src/ipc.rs:1835-1849 | succeeds exactly for the exact identity; voids all frozen authority and stops both leases |
| `ControlPlane.Control.ExpirePause` | crates/unlinger-daemon/src/ipc.rs:1901-1920 | clears exactly a pause that has run out, which is no policy command: the revision stays |
| `ControlPlane.Control.FailClosed` | crates/unlinger-daemon/src/ipc.rs:1035-1095 | voids all frozen authority and stops both leases, whether or not the store could record the failure |
| `ControlPlane.Control.CompleteSuccessfulCycle` | crates/unlinger-daemon/src/ipc.rs:914-1032 | publishes readiness only from a lifecycle that was not Failed; a failed or misplaced completion voids all frozen authority and stops both leases |
| `ControlPlane.Control.StartStorageCleanup` | crates/unlinger-daemon/src/ipc.rs:1125-1150 | a lease is issued exactly when the daemon works and is idle and the PREPARED record is durable; never while paused, scanning or draining; it may continue and keeps every other one out |
| `ControlPlane.Control.StartCache` | crates/unlinger-daemon/src/ipc.rs:1241-1273 | the owner is published exactly when the daemon works and is idle, the record durable and the worker created; never while paused, scanning or draining; it may continue and keeps every other one out |
| `ControlPlane.Control.FinishStorage` | crates/unlinger-daemon/src/ipc.rs:1181-1198 | afterwards this token may not continue and every other lease is as it was; it succeeds exactly for the owner or when there is none |
| `ControlPlane.Control.FinishCache` | crates/unlinger-daemon/src/ipc.rs:1297-1314 | afterwards this token may not continue and every other lease is as it was; it succeeds exactly for the owner or when there is none |
| `ControlPlane.Control.BeginProcess` | crates/unlinger-daemon/src/ipc.rs:1316-1332 | one process cleanup at a time; it keeps new leases out and neither stops nor revives one |
| `ControlPlane.Control.StillAuthorises` | crates/unlinger-daemon/src/engine.rs:504-518 | the cycle goes on exactly when what it read first and last agrees, the revision stands and no pause is running |
| `ControlPlane.Control.BeginCleanupAttemptIfArmed` | crates/unlinger-daemon/src/ipc.rs:1350-1368 | an authority is frozen for a worker exactly when gate, epoch and revision still hold |
| `ControlPlane.Control.DeliverSignalIfArmed` | crates/unlinger-daemon/src/ipc.rs:1370-1385 | delivers exactly when gate, epoch and revision match; and then enforcing, not draining, unpaused, under an epoch unbroken since its cycle read it, with nothing acknowledged since its cycle read the revision |
| `GatedCleanup.ExecuteCleanup` | crates/unlinger-daemon/src/engine.rs:743-805 | a cleanup by a worker behind the gate keeps the executor's guarantee; each of its signals and removals that left is a safe delivery of the run that the other threads extend with it; and a poll that finds it drained, cancelled or without authority ends it: at most the open row is completed, and nothing leaves after a cancellation |
| `GatedCleanup.EffectsAreDeliveries` | crates/unlinger-daemon/src/engine.rs:231-288 | every effect in a trace of the gated runtime is such a delivery |
| `GatedCleanup.RunCycle` | crates/unlinger-daemon/src/engine.rs:371-541 | one observation cycle that freezes an authority and runs the executor under it: every effect is a safe delivery of its own in the control plane's run, in order; undisturbed, an armed unpaused daemon starts the work |
| `Crc.UpdateCrc` | crates/unlinger-daemon/src/node_compile_cache.rs:468-473 | one table lookup per byte computes the bit-by-bit reflected CRC-32 of section 8 of RFC 1952 |
| `Crc.CrcTable` | crates/unlinger-daemon/src/node_compile_cache.rs:452-467 | each entry is eight bit steps of its index |
| `Crc.TableIdentity` | crates/unlinger-daemon/src/node_compile_cache.rs:468-473 | eight bit steps of a word are the table entry of its low byte, exclusive-or the word shifted down by eight |
| `Crc.RunningConcat` | crates/unlinger-daemon/src/node_compile_cache.rs:436-446 | the CRC of a whole is the CRC of its parts in turn, wherever it is split |
| `Crc.CheckValue` | crates/unlinger-daemon/src/node_compile_cache.rs:446-473 | the CRC of the nine bytes "123456789" is CBF43926 and that of no bytes is 0, which fixes the polynomial, the bit order, the initial word and the complement |
| `CrcDetection.BurstDetected` | crates/unlinger-daemon/src/node_compile_cache.rs:452-473 | any damage confined to four consecutive bytes changes the CRC, whatever surrounds it and however long the data is |
| `CrcDetection.Absorbed` | crates/unlinger-daemon/src/node_compile_cache.rs:468-473 | up to four bytes fed one by one are one word mixed in at once |
| `CacheFile.ValidateCacheFile` | crates/unlinger-daemon/src/node_compile_cache.rs:415-450 | accepts only genuine files, by magic number, lengths and CRC-32, however reads split the payload; without faults or cancellation it accepts exactly those |
| `CacheFile.OpenFile.Drain` | crates/unlinger-daemon/src/node_compile_cache.rs:434-445 | the running CRC of everything up to the end of the file |
| `CacheFile.OpenFile.DrainBuffer` | crates/unlinger-daemon/src/node_compile_cache.rs:434-445 | each buffer is read only after a poll that did not stop, and ends the file exactly when nothing is left; a stop is Unsafe, a failed read an I/O error |
| `CacheFile.SampleIsGenuine` | crates/unlinger-daemon/src/node_compile_cache.rs:415-450 | a file of 29 bytes written out byte by byte, with the nine check bytes as payload, is genuine exactly at its own length |
| `CacheFile.DamageIsRejected` | crates/unlinger-daemon/src/node_compile_cache.rs:415-450 | an accepted file whose payload is changed within four consecutive bytes, one included, is rejected |
| `CacheRemoval.Process.ScanEntries` | crates/unlinger-daemon/src/node_compile_cache.rs:358-413 | an accepted scan holds exactly the published names, sorted, each vetted, in a bucket whose other names are all of safe temporary files, within 2 GiB; Busy means that a safe, genuine file moved while it was read; a steady bucket is accepted in whatever order it is listed, and one with a moving file is Busy |
| `CacheRemoval.Process.ScanFile` | crates/unlinger-daemon/src/node_compile_cache.rs:388-412 | an entry was opened safe, genuine and unmoved |
| `CacheRemoval.Process.RemoveFiles` | crates/unlinger-daemon/src/node_compile_cache.rs:274-337 | effects are an authorised prefix of the frozen plan; Busy means none, and that a file moved or the bucket differs from the plan; Completed means all, with exact count and byte sum within 2 GiB; none comes before a complete scan found the plan unchanged; a steady bucket is Completed if it holds the plan and Busy if it holds anything else, and so is one with a moving file; a stop or a changed binding at the start is Failed |
| `CacheRemoval.Process.RemoveEntry` | crates/unlinger-daemon/src/node_compile_cache.rs:299-331 | an unlink follows its own recheck at once; it is refused exactly when the recheck fails, and an unlink that failed is DeliveryUnknown |
| `CacheRemoval.UnlinkedIsSafe` | crates/unlinger-daemon/src/node_compile_cache.rs:299-331 | field by field, what each unlink rests on: polls that did not stop, current bindings, and the planned identity as a regular file of this user with one link that others may not write, opened and then looked up again by its name |
| `CacheRemoval.ScannedIsPublished` | crates/unlinger-daemon/src/node_compile_cache.rs:358-413 | every scanned entry is a name of eight hexadecimal digits with at least a header, and the scan holds at most 65536 entries and 2 GiB |
| `CacheNames.HexNameSpelled` | crates/unlinger-daemon/src/node_compile_cache.rs:474-479 | published names are exactly the words of eight lower-case hexadecimal digits |
| `CacheNames.TemporaryNameSpelled` | crates/unlinger-daemon/src/node_compile_cache.rs:372-378 | temporary names are exactly such a word, a dot, and six letters or digits |
| `CacheRemoval.SortedListing` | crates/unlinger-daemon/src/node_compile_cache.rs:358-365 | every order of listing the same names gives the same plan |
| `Graph.FromSnapshot` | crates/unlinger-core/src/graph.rs:29-53 | refuses exactly the snapshots that repeat a PID, naming the first repeat; the child lists are the parent links read backwards |
| `Graph.DescendantPids` | crates/unlinger-core/src/graph.rs:75-92 | on any graph, cyclic or not: exactly the recorded PIDs whose parent links lead to the root, strictly sorted |
| `Graph.AncestorPids` | crates/unlinger-core/src/graph.rs:95-107 | the proper ancestors, nearest first, each once, ended by PID 0, a gap or a repeat |
| `Graph.HasAncestor` | crates/unlinger-core/src/graph.rs:110-112 | true exactly for proper ancestors |
| `Graph.TraversalsAgree` | crates/unlinger-core/src/graph.rs:75-112 | descendants and ancestors agree on every line that does not pass through PID 0, and always if PID 0 has no record |
| `Graph.TraversalsDifferExactly` | crates/unlinger-core/src/graph.rs:75-112 | a descendant lacks an ancestor exactly when that ancestor lies beyond PID 0 on its line |
| `Graph.TraversalsDiffer` | crates/unlinger-core/src/graph.rs:95-107 | with a record for PID 0 they can differ |
| `Graph.LineageHasCycle` | crates/unlinger-core/src/graph.rs:115-127 | true exactly when the lineage never ends |
| `Descriptors.ReadCompleteList` | crates/unlinger-macos/src/descriptors.rs:11-33 | at most eight reads, and none exactly if 65536 entries or more are declared; the result is the first reply shorter than its buffer, every earlier one having filled it; a stable list is returned whole exactly when it is shorter than the smaller of 65536 and 128 first capacities, the first one being 64 above the declared count and capped |

## Left out

- Resource figures on receipts (memory before, after and reclaimed), artifact kinds and incident ids: they are carried along and decide nothing.
- The process fingerprint is an arbitrary function of the identity; collisions are not modelled.
- Reason strings are a datatype with one case for any other string; the revalidator may return any of them, also the executor's own.
- The policy revision, epochs, tokens and generation numbers are unbounded; 64-bit wrap-around of the revision counter is not modelled.
- Public frontend mutations (`commit_public_mutation`) and their replay: the revision they install comes from the store.
- The SQLite store: attempt tables, receipts, lifecycle rows and projections. Its lifecycle calls appear as replies with the promises named in `ControlTypes`.
- Of the daemon's lifecycle row only the request for enforcement is part of the database model; a request that boot does not carry over is one more write that drops it.
- Startup recovery, boot of a managed daemon, and preserving a restart intent before readiness: they run before any lease or authority exists.
- Cache and storage workers poll their lease and then act outside the lock; only the lease is modelled, not what one worker does between two polls.
- launchctl, plutil, sockets, permissions, fsync and plist text. A plist is a managed generation or a legacy mode; validation of files that the CLI itself wrote can fail at any time but is not computed.
- Uninstall and the explicit report-only restart: both begin with the recovery that is modelled.
- The runs that lose a database or break the floor are runs of single writes and outside events; they are not replayed through the `Service` class.
- The schema version recorded with a backup is not compared; reading it may fail like any other step.
- The gap between the last identity check and `unlinkat` against hostile writers with the same user id, which the code disclaims.
- Discovery of the producer and of the cache directories; whether they are still the same is one arbitrary answer per poll.
- A file that keeps growing while it is read: the bytes one open file delivers are a finite sequence.
- The analyzer, rules, roster, history, public projections, argument parsing and printing.
- The Swift app, probes and bundle scripts.
