# SSHDock verification model

A Dafny model of the parts of SSHDock that are hardest to get right, with proofs of what they
promise. `dafny verify dfyconfig.toml` checks the whole project.

## What is modelled

**Push-to-deploy queue.** `Tables` holds the rows and what each transaction makes of them,
`Executor` one deployment attempt as a machine that does one store statement or external call
per step, and `PushProtocol` the whole as a transition system: receives with their hooks, ref
update, recovery pass and attachment, lock-free redeploys, the worker, and the restart pass of
the daemon. A receive can be killed and the daemon can crash between any two steps, and every
call may fail. `PushInvariant`, `PushFrames`, `PushSteps` and `PushSafety` state and prove the
invariant, `PushTheorems`, `PushOutcomes` and `Reservations` what it means for every run, and
`WitnessRun` gives a run that ends with two attempts deploying. `Outcome`, `ExecutionRecords` and
`ExecutionTables` tell from the rows and the calls how an execution comes out and what it leaves in
every table. `SqliteStore`, `DeploymentExecutor`, `DaemonRestart`,
`PendingRecovery`, `QueuedWorker`, `Receive` and `Redeploy` are the same operations in the form
the program has them: objects with fields, loops and error returns, proved equal to the functions
the protocol is made of; `ProtocolRuns` shows that what the loops do are runs of the protocol.

**Deployment log.** `DeploymentLogs` is the bounded append, `DeploymentLogStream` the polling
follower, connected to the runs of the protocol; `RunLogs` says what a log holds after a run.

**Redaction.** `Redaction` is the replacement of values and what the streaming writer holds back,
`RedactionTheorems` when the two agree and that no value shows, `RedactingWriter` the operations on
a configuration.

**Volume archives.** `VolumeNames` normalizes names, `VolumePaths` and `Utf8` say by positions and
bytes which names are taken, `VolumeTree` counts a tree of abstract names, `VolumeArchive` is the
pass over decoded tar headers.

**Routing intent.** `Addresses` is the canonical form of public addresses, `AddressSpellings` the
ways to write one, `Routing` the stored domains, what operations may do to them, the routes they stand for and the recorded failures;
`RoutingStore` holds the tables and what Caddy serves, `RoutingService` has the operations.

**Smaller pieces.** `Timestamps` (the text rows are ordered by) and `TimestampTexts`, `CommandSplit`
and `CommandGrammar`, `AppName` and `AppSuggestion`, `Ordering` (what `order by` and `limit` return), `Results`, `Texts`.

## Premises

- One daemon runs at a time. The app lock spans hook, ref update, post-receive and attachment,
  excludes the worker's recovery of that app, and dies with its holder (`internal/deploycoord/coord.go:30-44`).
- The old id given to the pre-receive hook is the real `main`, or a zero id if there is none,
  and differs from the new id, which is not zero. `main` moves through pushes only.
- Attempt ids are fresh. The clock reading of a reservation is later than those of earlier
  attempts at the same app commit and of the logs the app keeps.
- Reserved attempts carry an app, a release and a commit.
- Each transaction and each single statement is one atomic step. Outcomes of Git, Docker,
  Caddy, the network and of store calls are parameters: the theorems are for all of them.
- The hash in a domain id is injective. Text is bytes in logs, redaction and volume names, and
  Unicode scalar values in commands and names.

## Where code and documentation differ

- The documentation has the daemon run queued deployments one at a time. It executes one at a
  time, but if the final status write of an attempt fails the row stays deploying while the next
  one is claimed, until a restart. `PushOutcomes.OneDeployingIffClaimsLand` gives the exact
  condition, and `WitnessRun.TwoCanBeDeploying` a run from the empty tables.
- The documentation rejects a second push while one is pending. The code lets it replace a pending
  push that Git never accepted; `Reservations.ReservedIff` says exactly when.
- The streaming writer is meant to agree with one-shot redaction. For values that overlap it does
  not; `RedactionTheorems.ChunkingNeverMattersIff` and `RedactionTheorems.OverlappingValueLeaks`.

## Model

| member | source | states |
|---|---|---|
| `PushTheorems.AcceptedPushIsNeverDiscarded` | internal/store/sqlite.go:299-327 | in every run, with crashes and kills between any two steps: once Git moved main for a push, no later reservation discards its attempt, and while it is active main stays at its commit |
| `PushTheorems.MainTellsAcceptance` | internal/gitrecv/pending_recovery.go:18-47 | in every reachable state a pending push has main at its commit if and only if Git accepted that very reservation; this is what entitles recovery to queue it |
| `PushTheorems.QueuedPushWasAccepted` | internal/store/sqlite_deployment_queue.go:150-179 | accepted and queued events of a push are there together or not at all, and only if its own ref update happened |
| `PushTheorems.OneActiveAttempt` | internal/store/sqlite.go:272-385 | under every interleaving of pushes, lock-free redeploys, recovery, claims, executions and restarts an app has at most one pending or deploying attempt |
| `PushTheorems.ExecutedAtMostOnce` | internal/store/sqlite_deployment_queue.go:83-145 | over every run with any number of daemon crashes each attempt is executed at most once, and only if its queued event exists |
| `PushTheorems.ExecutedGrows` | internal/store/sqlite_deployment_queue.go:83-145 | the execution count the previous row speaks of is a history: it never decreases, so nothing is forgotten by a crash |
| `PushTheorems.TerminalIsAbsorbing` | internal/deployment/executor.go:206-218 | a succeeded or failed attempt row is never changed or removed again, whatever runs afterwards |
| `PushTheorems.RunsTrack` | internal/store/sqlite.go:299-327 | over every run an accepted push or a redeploy keeps its row and identity, does not return to pending, and its log content only grows at the end and is frozen once the attempt is over |
| `PushTheorems.DeployingIsInHandOrLost` | cmd/sshdockd/daemon.go:72-108 | while a daemon runs, the deploying attempts are exactly those it has in hand and those that came to their status write since it started with that write failing |
| `PushSafety.LastStepLoses` | internal/deployment/executor.go:206-223 | after the last step of an execution its attempt is still deploying if and only if the call that writes its status fails, on the success branch and on the failure branch |
| `PushOutcomes.DeployingIsInHandOrMissed` | cmd/sshdockd/daemon.go:72-108 | the same told from the claims: while a daemon runs, the deploying attempts are those in its hand and those claimed since its start whose rows and call outcomes, as they are when claimed, make the status write fail, whatever is interleaved |
| `PushTheorems.OneDeployingIffNothingLost` | cmd/sshdockd/daemon.go:72-94 | the executing daemon has at most one deploying attempt if and only if no status write failed since it started |
| `PushOutcomes.OneDeployingIffClaimsLand` | cmd/sshdockd/daemon.go:72-94 | the executing daemon has exactly one deploying attempt if and only if every earlier claim since it started lands: by its rows and outcomes it gets past Compose and the success write goes through, or it does not and the failure write does |
| `PushOutcomes.LandingClaimsAreNotMissed` | internal/deployment/executor.go:206-269 | claims whose two status writes go through never count as missed, so with them there is one deploying attempt at a time |
| `PushTheorems.LostStatusLeavesTwoDeploying` | internal/deployment/executor.go:218-223 | in every reachable state in which the status write fails while another attempt is queued, the next claim leaves two attempts deploying |
| `WitnessRun.StatusCanBeLost` | internal/deployment/executor.go:206-223 | such a state is reached from the empty tables: two redeploys, a start of the daemon, a claim and the steps of an execution up to a failing success write |
| `WitnessRun.TwoCanBeDeploying` | cmd/sshdockd/daemon.go:72-94 | so the documented single deploying attempt is false of the code: a run from the empty tables ends with two attempts deploying |
| `PushTheorems.SucceededReleaseStays` | internal/store/sqlite.go:216-235 | over every run a succeeded release never becomes deploying or failed and does not change at all |
| `PushTheorems.SucceededReleaseWasComposed` | internal/deployment/executor.go:206-208 | a release is succeeded only if an attempt at its own app and commit, executed once, had an error-free Compose run and output flush |
| `PushTheorems.PostReceiveFindsOwn` | internal/gitrecv/post_receive_queue.go:52-75 | the lookup of post-receive by app and commit finds the reservation of its own pre-receive, whatever redeploys interleave |
| `PushTheorems.ReceiveFollowsOwn` | internal/gitrecv/receive.go:157-182 | a receive whose recovery pass went through attaches to its own attempt if its ref update happened and to nobody otherwise, never to more than one, and that attempt is queued |
| `PushTheorems.ClaimTakesOldest` | internal/store/sqlite_deployment_queue.go:94-104 | no queued pending attempt started before the one a claim takes |
| `PushSafety.StepKeepsInv` | internal/gitrecv/receive.go:133-198 | every step of receives, hooks, recovery, redeploys, the worker and the restart pass, including kills and crashes, keeps the invariant |
| `PushSafety.RunsKeepInv` | internal/gitrecv/receive.go:133-198 | the invariant holds after every run from a state that has it |
| `PushSafety.AttachesOwn` | internal/gitrecv/receive_attachment.go:10-45 | with the invariant, the attachment step sees exactly the attempt of its own receive, and its branch for more than one accepted attempt is unreachable |
| `Reservations.ReservedIff` | internal/store/sqlite.go:272-327 | in every reachable state a reservation goes through if and only if the app exists and is free: an active attempt blocks it unless it is a pending push Git never accepted and not at the expected commit |
| `Reservations.ReservationTakesOver` | internal/store/sqlite.go:329-385 | afterwards the new attempt is the only active one of its app with an empty log, the app is deploying, only a redeploy is queued at once, and all other attempts are as before |
| `SqliteStores.SqliteStore.QueueDeployment` | internal/store/sqlite.go:260-262 | the transaction is the reservation function or an error that leaves rows, logs, events and app status as they were |
| `SqliteStores.SqliteStore.QueueRedeployment` | internal/store/sqlite.go:264-270 | only a pending redeploy is taken, anything else is refused without effect; taken, it is the reservation function, with the same error and no effect if that refuses |
| `SqliteStores.SqliteStore.ReserveDeployment` | internal/store/sqlite.go:272-385 | statement by statement with rollback: equal to the reservation function on success and without effect on any error |
| `SqliteStores.SqliteStore.FindDeploymentByAppCommit` | internal/store/sqlite_deployment_queue.go:13-32 | the chronologically latest attempt of the app at the commit, although the query orders text |
| `SqliteStores.SqliteStore.ListUnqueuedPendingDeployments` | internal/store/sqlite_deployment_queue.go:60-81 | exactly the pending pushes without a queued event, each once, oldest first |
| `SqliteStores.SqliteStore.ListDeploymentsByStatus` | internal/store/sqlite_deployment_queue.go:34-58 | exactly the attempts with the status, each once, oldest first |
| `SqliteStores.SqliteStore.ClaimNextPendingDeployment` | internal/store/sqlite_deployment_queue.go:83-145 | the oldest pending attempt that has a queued event becomes deploying with an empty error column, and nothing else changes; none exactly if there is none |
| `SqliteStores.SqliteStore.RecordDeploymentQueued` | internal/store/sqlite_deployment_queue.go:150-179 | both events are there afterwards, events already there stay, nothing else changes |
| `SqliteStores.SqliteStore.AppendDeploymentLog` | internal/store/deployment_log.go:40-82 | the append of the log specification on the row of app and attempt; empty output always succeeds without effect |
| `SqliteStores.SqliteStore.CreateRelease` | internal/store/sqlite.go:127-140 | one release per id and per app commit; a second one is refused without effect |
| `SqliteStores.SqliteStore.MarkReleaseStatusUnlessSucceeded` | internal/store/sqlite.go:224-235 | sets the status unless the release is succeeded; a missing release is no error |
| `SqliteStores.SqliteStore.EndDeployment` | internal/store/sqlite.go:411-460 | status and message of one row; an error exactly if the row is missing or the call fails |
| `SqliteStores.SqliteStore.UpdateAppStatus` | internal/store/sqlite.go:103-125 | status of one app; an error exactly if the app is missing or the call fails |
| `SqliteStores.SqliteStore.CreateEvent` | internal/store/sqlite.go:572-583 | a second event with the same id is refused without effect |
| `Tables.TextOrderIsChronological` | internal/store/sqlite_deployment_queue.go:103-104 | ordering rows by stripped timestamp text and id is ordering them by time and id |
| `Tables.RetentionKeepsNewest` | internal/store/deployment_log.go:97-110 | an app keeps exactly the smaller of 20 and the number of its logs, every log kept is newer than every log dropped, and other apps lose none |
| `Tables.EventTextsDiffer` | internal/store/sqlite_deployment_queue.go:99-102 | event ids built from an attempt id and a suffix are equal only for the same attempt and suffix, so a queued event speaks of one attempt |
| `Tables.ReleaseIdsDiffer` | internal/app/id.go:10-12 | release ids of apps without underscores in their names are equal only for the same app and commit |
| `Tables.ReleaseIdsCanMeet` | internal/app/id.go:10-12 | the condition is needed: with an underscore in a name, which a DNS label does not have, two apps could share a release id |
| `Timestamps.SortKeyIsChronological` | internal/store/sqlite.go:1074-1078 | for all instants of years 0 to 9999 the UTC text without its trailing Z orders as time does (RFC 3339, section 5.1, without its equal-precision condition) |
| `Timestamps.UnstrippedTextMisorders` | internal/store/sqlite.go:1075-1077 | with the Z left on, a whole second sorts after its own fractions |
| `TimestampTexts.TextReadsBack` | internal/store/sqlite.go:1074-1078 | the stored text reads back: year, month, day, hour, minute and second in their places with their separators, a fraction of 1 to 9 digits without a trailing zero exactly of the nanoseconds and only if there are some, and Z (RFC 3339, section 5.6); what is ordered by is that text without Z |
| `Ordering.SelectFirst` | internal/store/sqlite_deployment_queue.go:103-104 | order by with limit 1: the member before all others |
| `Ordering.SelectOrdered` | internal/store/sqlite_deployment_queue.go:67-67 | order by: all members once, in order |
| `Ordering.TopIsBounded` | internal/store/deployment_log.go:104-105 | limit k: at most k members, each before every member left out |
| `Ordering.TopIsFull` | internal/store/deployment_log.go:104-105 | and exactly the smaller of k and the number there is |
| `Ordering.LexLessIff` | internal/store/sqlite_deployment_queue.go:103-104 | text order: a beginning is before what it begins, else the first difference decides |
| `DeploymentLogs.AppendsAreBounded` | internal/store/deployment_log.go:40-82 | after any sequence of appends the log is exactly the first limit-minus-marker bytes of all output, plus the marker if and only if there was more |
| `DeploymentLogs.AppendsNeverPassLimit` | internal/store/sqlite.go:20-23 | the log never passes 10 MiB, reaches it exactly if truncated, and is truncated exactly if output was longer than what fits |
| `DeploymentLogs.AppendExtends` | internal/store/deployment_log.go:112-127 | an append only adds bytes at the end of what is there, so readers may keep what they have |
| `RunLogs.KeptLogIsBounded` | internal/store/deployment_log.go:40-82 | in every reachable state the kept log of an attempt is exactly the bounded form of the lines whose turn came in its execution and finalizing: the started line, each chunk of Compose output, the end line |
| `RunLogs.ClaimedLogHolds` | internal/deployment/executor.go:166-188 | over every run, whatever is interleaved: after a claim the kept log is the bounded form of a beginning of the lines promised by the outcomes on the rows found at the claim, and of all of them once the execution is over without a crash |
| `Outcome.StartReachesGoodIff` | internal/deployment/executor.go:86-194 | an execution gets past Compose if and only if each call up to there goes through on the rows it finds: app there, release found under the expected id or creatable, log kept, no started event yet, checkout, preparation, every output line appended, no error from Compose and the flush |
| `Outcome.ExecutionEnds` | internal/deployment/executor.go:86-223 | for every pattern of failing calls an execution changes its own row only, by one status write: succeeded exactly if everything up to Compose and the flush goes through, failed otherwise, unchanged and reported if the write fails; no error is reported exactly if moreover every outcome can be recorded |
| `Executor.GoodEndsSucceeded` | internal/deployment/executor.go:196-223 | past Compose the error column is empty exactly if every outcome write went through and found its row, and then release, app and event show it |
| `Executor.BadEndsFailed` | internal/deployment/executor.go:249-269 | whatever else could not be recorded, a landed status write leaves the attempt failed, and an error that was there is reported |
| `DeploymentExecutors.DeploymentExecutor.Execute` | internal/deployment/executor.go:86-223 | for an attempt that is there, all tables in the end are those `Executed` tells from the rows found, the outcomes of the calls and the texts to write, and no error is returned exactly if everything up to Compose and every outcome goes through; an attempt that is not deploying or lacks a name is refused without effect |
| `ExecutionTables.ExecutionLeaves` | internal/deployment/executor.go:86-223 | for every pattern of failing calls, all tables after an execution: the status and message of its row with the stage of the first call that does not go through, the release marked, made and given the outcome, the app status, exactly its started and its end event, and its log with the started line, each Compose line and the end line that came through |
| `ExecutionTables.LogHoldsComposeOutput` | internal/deployment/executor.go:172-223 | the log of an attempt that comes to Compose holds the started line, all Compose output and the end line up to the size limit, whether Compose fails or not; all other logs are as they were |
| `ExecutionRecords.RunWritesLines` | internal/deployment/executor.go:172-194 | from any point of an execution on, its log grows by exactly the lines still promised there: what an append that failed would have written is missing, and so is everything after a Compose append that failed but the end line |
| `ExecutionRecords.RunFailsAtStage` | internal/deployment/executor.go:88-204 | an execution that does not get past Compose and whose status write lands leaves the stage of its first call that did not go through |
| `DeploymentExecutors.DeploymentExecutor.FailInterrupted` | internal/deployment/executor.go:233-247 | for an attempt that is there, all tables in the end are those `Finalized` tells: nothing is run, every record of the failure is tried; an attempt that is not deploying is refused without effect |
| `ExecutionTables.FinalizingLeaves` | internal/deployment/executor.go:233-269 | all tables after finalizing an interrupted attempt: nothing at all if its release cannot be loaded, else app, event, log line, release and status as far as their writes go through |
| `ExecutionTables.FinalizingErrorIff` | internal/deployment/executor.go:233-269 | finalizing reports no error if and only if the release can be loaded and every record of the failure goes through |
| `DeploymentExecutors.DeploymentExecutor.RecordFailedAttempt` | internal/deployment/executor.go:249-269 | every record of a failure is written even if earlier ones fail, and the error is their disjunction with the cause |
| `DeploymentExecutors.DeploymentExecutor.RecordSuccess` | internal/deployment/executor.go:196-223 | every outcome is written even if earlier ones fail, and the status message depends on all of them |
| `DeploymentExecutors.FailureIsRecorded` | internal/deployment/executor.go:249-269 | when nothing fails: app failed, event there, attempt failed at its stage, release failed unless it had succeeded, one line added to the log, all else unchanged |
| `DaemonRestart.RecoverInterruptedDeployments` | cmd/sshdockd/daemon.go:96-108 | the loop over the deploying attempts, oldest first, up to the first one that cannot be recorded in full |
| `DaemonRestart.InterruptedEnds` | internal/deployment/executor.go:233-269 | an interrupted attempt becomes failed exactly if its release was loaded and its status write landed, also when its failed event already exists; no other row changes |
| `DaemonRestart.PassShrinks` | cmd/sshdockd/daemon.go:96-108 | a restart pass never adds a deploying attempt, clears all of them if it reports no error, and clears the first one whenever its status write lands |
| `DaemonRestart.RestartsClear` | cmd/sshdockd/daemon.go:96-108 | however often recording fails along the way, each restart removes at least one attempt from the deploying set, so as many restarts as attempts clear them all |
| `PendingRecovery.RecoverPendingDeployments` | internal/gitrecv/pending_recovery.go:18-47 | the loop under the app lock: rows of other apps and other commits are passed over, a missing main ends it quietly, a failing call ends it with an error |
| `PendingRecovery.PassQueuesAccepted` | internal/gitrecv/pending_recovery.go:18-47 | in every reachable state a pass queues only reservations Git accepted, and one that ends without an error queues all of those of its app |
| `ProtocolRuns.WholePassIsARun` | internal/gitrecv/pending_recovery.go:18-47 | a pass is a run of recovery steps of the protocol, so what holds for all runs holds for it |
| `PendingRecovery.RecoverPending` | internal/gitrecv/pending_recovery.go:49-74 | the loop over the listed rows: busy apps are passed over, and an app that cannot be locked, is gone, or whose pass or unlock fails makes the result an error without ending the loop |
| `PendingRecovery.RecoversUndisturbed` | internal/gitrecv/pending_recovery.go:49-74 | whatever goes wrong for other apps, every pending push at main of a free app whose own lock, app and pass go through gets queued; and nothing is queued but pending pushes at main of free apps |
| `PendingRecovery.RoundEndsIffTurnsEnd` | internal/gitrecv/pending_recovery.go:49-74 | with one active attempt per app, recovery reports no error if and only if the listing works and for every unqueued push its app is busy or its lock, app, listing, lookup of main, record and unlock go through |
| `QueuedWorker.RunOne` | internal/gitrecv/queued_worker.go:49-65 | one worker round: recover, claim the oldest queued attempt, execute it; it worked exactly if the claim goes through and recovery leaves something queued, rows and error are those of the round, and without work the rows are those after recovery and the error tells a failed claim or recovery |
| `QueuedWorker.RoundEndsAttempt` | internal/gitrecv/queued_worker.go:49-65 | a round whose status write lands leaves the oldest queued attempt succeeded exactly if its calls up to Compose and the flush go through and failed otherwise, all other attempts alone; it reports no error exactly if recovery did not and every outcome was recorded |
| `QueuedWorker.RoundLeaves` | internal/gitrecv/queued_worker.go:49-65 | and all tables after it are those after recovery and claim with the execution told by `Executed` |
| `ProtocolRuns.ExecutionIsARun` | internal/gitrecv/queued_worker.go:61-63 | an execution nothing comes between is a run of execution steps of the protocol |
| `ProtocolRuns.QueuedCanEnd` | internal/gitrecv/queued_worker.go:49-65 | from every state with the invariant and an idle daemon, a run leads to the end of the oldest queued attempt, whatever else fails in it |
| `ProtocolRuns.EveryQueuedCanEnd` | internal/gitrecv/queued_worker.go:49-65 | and of any other queued attempt: its turn comes |
| `ProtocolRuns.AcceptedCanBeQueued` | internal/gitrecv/pending_recovery.go:18-74 | from every such state a run of lock, recovery pass and unlock queues all pushes of a free app that Git accepted, and changes nothing else |
| `ProtocolRuns.AcceptedCanEnd` | internal/gitrecv/pending_recovery.go:49-74 | an accepted push is never stranded: from every such state with its app free, a run queues it and executes it to its end |
| `ProtocolRuns.RestartIsARun` | cmd/sshdockd/daemon.go:96-108 | a restart pass is a run of protocol steps, and one that cannot record everything leaves the daemon down |
| `ReceiveHooks.ReadQueuedReceiveUpdate` | internal/gitrecv/push_queue.go:74-100 | accepted exactly if the input is one readable line that updates main to a nonzero id; an empty input, an input that cannot be read, a second update and a bad line each have their own error under their exact condition |
| `ReceiveHooks.Queue` | internal/gitrecv/push_queue.go:42-67 | goes through exactly if the input is one readable update of main and the store takes the reservation of its commit against its old id; then a pending push of app and commit under their release id, with the given id and time, is what was reserved, and otherwise nothing changes |
| `ReceiveHooks.Handle` | internal/gitrecv/post_receive_queue.go:52-94 | up to the first line that cannot be handled each line queues the latest attempt at its commit, and only lines that name main and a commit with an attempt are handled; the error is that of that line, else of unreadable input, else of status lines that were not written |
| `ReceiveHooks.PushQueuesOwnReservation` | internal/gitrecv/post_receive_queue.go:66-80 | after a successful reservation, the line of its commit can be handled and queues exactly that reservation, whatever older attempts at the commit there are |
| `ReceiveHooks.AcceptedDeploymentAfterReceive` | internal/gitrecv/receive_attachment.go:10-45 | nobody, the one new push with an accepted event, or too many, from the set of attempts listed before |
| `Redeploys.QueueCurrentMain` | internal/deployment/redeploy.go:54-88 | goes through exactly if app and main are there, the release lookup works and the store takes the reservation; then it is a pending redeploy of what main points at, under the stored release of that commit or the id made of app and commit, and otherwise nothing changes |
| `Redeploys.Wait` | internal/deployment/redeploy.go:90-123 | the verdict is that of the first poll that settles the matter |
| `Redeploys.SettlesIff` | internal/deployment/redeploy.go:98-121 | what each verdict of a poll means, in both directions: success with an empty error column, success with one, a failure with its message, an attempt still active, no such attempt or no list |
| `Redeploys.ErrorFreeIffRecorded` | internal/deployment/executor.go:86-223 | an execution reports no error if and only if every call up to Compose and the flush and every outcome write goes through on the rows it finds |
| `Redeploys.FineIffEverythingRecorded` | internal/deployment/redeploy.go:90-123 | for every pattern of failing calls in which the status write lands and every sequence of polls until the attempt is over, the waiter returns nil if and only if every call up to Compose and every outcome write goes through |
| `DeploymentLogStream.DeploymentLogOutput.Write` | internal/gitrecv/deployment_log_stream.go:115-124 | fails exactly if there is something new and the target does not take it; only new bytes are added, what was copied stays, and the cursor moves only if all of them were taken |
| `DeploymentLogStream.Stream` | internal/gitrecv/deployment_log_stream.go:58-84 | for every interleaving of polls with a growing log: on an error the client has a prefix of the log, without one exactly the final log, every byte once and in order; if all calls work and the log is kept there is no error exactly if the attempt is seen to be over before the caller gives up |
| `DeploymentLogStream.FollowRun` | internal/gitrecv/deployment_log_stream.go:58-84 | over every run of the protocol, a following stream that ends without an error has exactly the log its attempt is left with, as long as that log is kept |
| `DeploymentLogStream.LogsOnlyGrow` | internal/store/deployment_log.go:40-82 | between any two moments of any run the log of a permanent attempt grows at its end only, not at all once the attempt is over, and does not come back once dropped |
| `RedactingWriters.RedactValues` | internal/compose/redact.go:8-30 | for every configuration whose nonempty values have no angle brackets and are not in the word redacted, none of them is in the result; a text that shows none is unchanged; and the result is the replacement of all nonempty values in one fixed order, whatever the order of the map |
| `RedactingWriters.HidesConfig` | internal/compose/redact.go:11-29 | redacting with the nonempty values of a configuration hides every one of them |
| `RedactingWriters.EmptyValuesDoNothing` | internal/compose/redact.go:11-15 | two configurations with the same nonempty values redact every text alike |
| `RedactionTheorems.FirstMatchIsMarked` | internal/compose/redact.go:27-29 | replacing a value puts the mark for its first match and goes on behind it |
| `RedactionTheorems.LongestFirst` | internal/compose/redact.go:16-25 | longer values are replaced first, values of one length in byte order, and all of them are replaced |
| `RedactingWriters.PendingSecretPrefixLength` | internal/compose/redacting_writer.go:40-55 | the longest end of the text that begins a value without being all of it, whatever the order of the map |
| `RedactingWriters.RedactingWriter.Write` | internal/compose/redacting_writer.go:18-28 | emits all but the pending end, redacted, and keeps that end, also when the target fails; the history of chunks grows by this one |
| `RedactingWriters.RedactingWriter.Flush` | internal/compose/redacting_writer.go:30-38 | emits what is pending, redacted, and keeps nothing; if the target took everything since the last flush and no two values of the configuration overlap, what it got since is all of the text written, redacted at once, and shows no value |
| `RedactionTheorems.ChunkingDoesNotMatter` | internal/compose/redacting_writer.go:18-38 | for every chunking, writes and a flush give what redacting the whole text gives, for values without brackets that the writer never cuts |
| `RedactionTheorems.OverlapFreeIsCutFree` | internal/compose/redacting_writer.go:40-55 | values are never cut if no nonempty proper beginning of one is a proper end of any |
| `RedactionTheorems.ChunkingNeverMattersIff` | internal/compose/redacting_writer.go:18-38 | where no value begins with another, the writer agrees with one-shot redaction for all chunkings if and only if the values do not overlap |
| `RedactionTheorems.ChunkingNeverMattersNeeds` | internal/compose/redacting_writer.go:40-55 | for any set of values, agreement for all chunkings needs that no value is cut when it comes alone |
| `RedactionTheorems.OverlappingValueLeaks` | internal/compose/redacting_writer.go:18-38 | the value aba in one chunk comes out unredacted |
| `RedactionTheorems.RedactHides` | internal/compose/redact.go:27-29 | redacted text contains no value, for values without brackets that are not in the word redacted, although marks are inserted between replacements |
| `RedactionTheorems.WriterHides` | internal/compose/redacting_writer.go:18-38 | nor does the output of the writer, for every chunking, if values are never cut |
| `Redaction.RedactSplits` | internal/compose/redact.go:27-29 | redacting two parts is redacting the whole where no value goes across the cut |
| `VolumeArchive.CopyVolumeEntries` | internal/backup/volume_archive.go:282-378 | one pass accepts exactly the archives with readable headers, distinct normalized names, a root, no file above another entry, names and directories above them within the limits and sizes within int64; counts are exact, and each written header keeps kind, size, mode, owner and group of a plain header under a name that is the root of the target or stays below it |
| `VolumeArchive.ReadEntryIff` | internal/backup/volume_archive.go:432-458 | a header is read as an entry if and only if it is a plain file or directory with permission bits only, valid owner and group, no link, device or extended metadata, and its name is taken |
| `VolumeArchive.EntriesStayBelow` | internal/backup/volume_archive.go:398-430 | every entry of an accepted archive is the root directory or stays below the root |
| `VolumeArchive.OrderDoesNotMatter` | internal/backup/volume_archive.go:282-378 | acceptance and counts are the same for every permutation of the headers |
| `VolumeArchive.RewrittenIsAccepted` | internal/backup/volume_archive.go:357-371 | the headers written for packing or staging are accepted exactly if the originals were, and hold the very same entries |
| `VolumeArchive.NoteAncestors` | internal/backup/volume_archive.go:322-338 | the walk up the directories is the fold of the single checks over all ancestors of the name |
| `VolumeArchive.NoteEntry` | internal/backup/volume_archive.go:312-355 | all checks on one entry in their order |
| `VolumeArchive.VolumeTarInput.Read` | internal/backup/volume_archive.go:261-278 | header and padding bytes never pass their budget, payload bytes are not counted, and what is read is the next bytes of the input |
| `VolumeTree.EntryDecides` | internal/backup/volume_archive.go:312-355 | the pass goes on after an entry if and only if the entries so far have distinct names and are part of a tree within the limits |
| `VolumeTree.NoteDirectoriesCount` | internal/backup/volume_archive.go:322-338 | noting ancestors succeeds exactly if none is a file and all known names stay within the limits, and the running byte count stays the sum over the known names |
| `VolumeTree.PrefixIsSound` | internal/backup/volume_archive.go:282-378 | what makes entries unacceptable is not undone by later ones |
| `VolumeNames.NamesRoundTrip` | internal/backup/volume_archive.go:398-430 | any accepted name, written for either root and read back, normalizes to itself and fits the raw length limit |
| `VolumePaths.EntryNameIff` | internal/backup/volume_archive.go:398-430 | exactly the short, valid, relative raw names that spell a name below the root of the archive are taken, for that name: the root for a directory, or a path in which no stretch between slashes is empty, a dot or two dots |
| `VolumePaths.GoodPathIff` | internal/backup/volume_archive.go:424-426 | the check part by part is that condition on all stretches between slashes, told by positions in the text |
| `VolumePaths.OutputIsBelowTarget` | internal/backup/volume_archive.go:357-371 | what is written for an accepted name is the root of the target or stays below it |
| `Utf8.ValidUtf8Iff` | internal/backup/volume_archive.go:399 | a byte string is taken as UTF-8 if and only if it encodes some sequence of Unicode scalar values in their shortest forms (RFC 3629, section 3) |
| `VolumeNames.EntryNameIsSafe` | internal/backup/volume_archive.go:398-401 | a normalized name is still valid UTF-8 without backslashes and control characters |
| `VolumeNames.RootIsDirectory` | internal/backup/volume_archive.go:319-321 | only a directory normalizes to the root, so the later check for a root file cannot fail |
| `Addresses.CanonicalIsStable` | internal/router/address.go:14-98 | canonical addresses are their own canonical form, stand for the same site and have the same public key |
| `Addresses.RenderParses` | internal/router/address.go:60-76 | leaving out default scheme and port loses nothing: the text parses back to host, port and scheme (section 6.2.3 of RFC 3986) |
| `Addresses.KeyIsHostAndPort` | internal/router/address.go:78-98 | two public keys are equal exactly for the same host and port |
| `Addresses.CanonicalIffSameSite` | internal/router/address.go:14-76 | two addresses have the same canonical form exactly if they stand for the same site |
| `Addresses.CaddyRebuildsCanonical` | internal/router/caddy_active.go:163-175 | host, port and scheme of a canonical address rebuild its text |
| `Addresses.DecimalIsNumber` | internal/router/address.go:61-64 | port numbers survive being written and read |
| `AddressSpellings.ParseIff` | internal/router/address.go:14-76 | a text is read as a site if and only if it spells that site: a scheme in any case or none, a host in any case with or without a dot at its end, a port from 1 to 65535 or none; without a scheme HTTPS is meant, or plain HTTP on port 80 |
| `AddressSpellings.SpellingIsCanonical` | internal/router/address.go:48-98 | the canonical text and the public key of every spelling, field by field |
| `AddressSpellings.HostIff` | internal/router/address.go:48-59 | a host is taken if and only if it has at most 253 characters and each stretch between dots, after a wildcard in front, has 1 to 63 letters, digits and dashes with no dash at either end |
| `RoutingServices.RoutingService.Attach` | internal/router/service.go:72-112 | stores exactly if address and target are valid, the app exists and stays, no other app has the public address and the calls go through; once loaded, the address is served for that app with the service and port given; returns no error exactly if moreover its event, the reload and their records do; a load that fails is recorded with operation, service and port; addresses stay apart, and every difference between stored and served routes stays on record |
| `RoutingServices.RoutingService.Detach` | internal/router/service.go:114-162 | deletes exactly if the app has the public address and stays and the calls go through, and then exactly that row; a load that fails is recorded as a detachment with the service and port of that row; errors after it and the records of differences as for attaching |
| `RoutingServices.RoutingService.EnsureInitial` | internal/router/service.go:165-226 | writes a first route exactly if the app has none and there is a valid target and a free host; an error exactly for a missing app or deployment id or a failed call before that, the read of the server configuration among them; a load that fails is recorded with the target and not reported |
| `RoutingServices.RoutingService.Rebuild` | internal/router/service.go:248-274 | succeeds exactly if every stored intent is usable, no two have one public address and the calls go through; then each stored row is served under the canonical address of its name with its own app, service and port and the scheme of that address, nothing else is served, and otherwise what was served before |
| `RoutingServices.RoutingService.Apply` | internal/router/service.go:276-311 | a change is loaded exactly if listing and reload go through; a failed load is recorded for the app and address, a load clears all recorded failures, and a failed load is reported for manual changes only |
| `RoutingServices.RoutingService.Reconcile` | internal/router/service.go:229-240 | loads the current intents exactly if they can be rebuilt and the calls go through, and reports no error exactly if the recorded failures are cleared too |
| `Routing.RemovalIsAccounted` | internal/store/migrate.go:109-113 | removing apps with their domains and recorded failures leaves every remaining difference between stored and served routes on record |
| `RoutingServices.OperationIsAccounted` | internal/router/service.go:276-311 | whatever apps are removed before and after it, a change of one public address leaves every difference between stored and served routes on record, if it is loaded or its failure can be recorded |
| `RoutingServices.AvailableDomainId` | internal/router/service.go:320-342 | the id of the app's own row for the address, or a new one if nobody has it; an error exactly in a conflict |
| `Routing.AttachKeepsRows` | internal/store/sqlite.go:462-495 | the upsert under an available id keeps public addresses apart and ids bound, whatever apps are removed between listing and writing |
| `Routing.RunKeepsBinding` | internal/router/service.go:72-226 | over every run of attachments, detachments, first routes and app removals an id stands for one app and one public address |
| `Routing.RunIsServed` | internal/router/service.go:248-274 | at any time of such a run rebuilding reports no duplicate and the router map holds for each stored row its own app, service, port and scheme, and nothing else |
| `Routing.RouterHoldsIntent` | internal/router/caddy.go:177-183 | with addresses apart, the map by canonical address loses no route, has no other, and each route has app, service, port and scheme of its row |
| `Routing.RoutesByDomain` | internal/router/caddy.go:177-183 | for each name the last route given for it |
| `Routing.AddressesAreCoherent` | internal/router/address.go:14-98 | the real address functions have the three properties the routing results rest on |
| `RoutingStores.DomainStore.AttachDomain` | internal/store/sqlite.go:462-495 | insert or replace by id, and nothing without the app |
| `RoutingStores.DomainStore.DeleteDomainByAppAndName` | internal/store/sqlite.go:542-570 | exactly the rows of the app with that name go; an error without effect if there is none |
| `CommandSplit.SplitSSHOriginalCommand` | cmd/sshdockd/operator_command.go:23-98 | the character loop is the step function folded over the text, with its two errors |
| `CommandGrammar.SplitIsMeaning` | cmd/sshdockd/operator_command.go:23-98 | every text is a sequence of words of plain characters, escapes and quoted stretches with white space between them, maybe with something left open at its end, and the result is what that form means: the words, or the error for an open escape or an open quote |
| `CommandGrammar.SplitMeans` | cmd/sshdockd/operator_command.go:46-98 | and for every such form the result is its meaning |
| `CommandGrammar.EveryTextIsCommand` | cmd/sshdockd/operator_command.go:46-98 | every text has such a form |
| `CommandGrammar.AnyQuotingRoundTrips` | cmd/sshdockd/operator_command.go:23-98 | an argument list with each argument as it is, escaped character by character, in single or in double quotes, wherever that fits it, joined with spaces, splits into exactly that list |
| `CommandSplit.QuotingRoundTrips` | cmd/sshdockd/operator_command.go:23-98 | every argument list, single-quoted (POSIX Shell Command Language, section 2.2.2) and joined with spaces, splits into exactly that list, empty and quote-bearing arguments included |
| `CommandSplit.SplitJoins` | cmd/sshdockd/operator_command.go:46-98 | two complete commands with any white space between them split into the arguments of both |
| `AppName.SuggestAppName` | internal/domain/app_name.go:25-47 | the bounded builder computes the first 63 characters of the runs of letters and digits joined by single dashes, without a trailing dash, or app |
| `AppSuggestions.SuggestionOfRuns` | internal/domain/app_name.go:25-47 | for every text, told by its characters: its runs of letters and digits in lower case, joined by single dashes, cut after 63 characters and without a dash at the end; app if it has none |
| `AppSuggestions.EveryTextHasRuns` | internal/domain/app_name.go:25-47 | every text has such runs with something else between any two of them |
| `AppName.SuggestionIsSafe` | internal/domain/domain.go:41-58 | every suggestion is a DNS label that is accepted (at most 63 octets, section 2.3.4 of RFC 1035) |
| `AppName.SuggestionIsStable` | internal/domain/app_name.go:25-47 | suggesting again changes nothing |
| `AppName.SuggestsItselfIff` | internal/domain/app_name.go:17-47 | a name is suggested for itself exactly if it is accepted and has no two dashes in a row |

## Left out

- RedactionTheorems.ChunkingNeverMattersIff: necessity of the condition is for values none of which begins with another; for other sets it lies between `CutFree` (enough) and the condition of `ChunkingNeverMattersNeeds` (needed), because a longer value may hide that a shorter one was cut, as with the values ab, bc, abz.
- PushOutcomes.OneDeployingIffClaimsLand: the unconditional statement is false of the code, see `WitnessRun.TwoCanBeDeploying`.
- DeploymentLogStream.FollowRun: a log dropped by retention while it is followed ends the stream with an error, and the theorem then promises a prefix only; the stream is the unredacted one of a receive.
- Outcome.ExecutionEnds: the execution is taken without interleaving here; under interleaving its row is covered by `PushTheorems.RunsTrack`, and whether its status write lands by `PushOutcomes.DeployingIsInHandOrMissed`.
- PendingRecovery.RecoverPending: apps that are locked by others are a fixed set during one call.
- Redeploys.Wait: polling is finite; giving up stands for the canceled context.
- Deployment warnings, wording of messages, failure detail and retry guidance, and time stamps other than those rows are ordered by.
- The removal of apps in the push protocol: it deletes rows under a running attempt. It is a step of the routing model only.
- IPv6 literals and percent-encoded hosts in addresses, and full URL parsing.
- Tar and gzip decoding, manifests, and the check of the end marker, which is a parameter.
- Rendering the Caddyfile and reading the active configuration beyond the site address.
- RoutingServices.RoutingService.Attach: apps are only ever removed here, so that a route still served for a removed app is left to the rebuild of the removal, and the texts and times of routing events and recorded failures are left out.
- Configuration secrets, SSH keys, backups of the host, command-line printing, help and diagnostics.
- SQL text, migrations, file locks and the retry loop of lock acquisition.
