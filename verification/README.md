# Verified model of the LiViS relay's durable core

The relay daemon takes jobs from a remote relay, runs each of them at most once on a backend (Hermes through a
local connector, Claude through a child process, Codex), and delivers exactly one result or honours exactly one
cancel. Every guarantee rests on one SQLite store whose tables must agree after each transaction, on the drivers
around it, and on file transactions that change the daemon's installation and keep evidence for it.

This project models that core in Dafny and proves its whole-run properties:

| file | models |
|---|---|
| `Tables.dfy` | the rows of the store and the meaning of each transaction, as functions |
| `Invariant.dfy`, `Preservation.dfy` | what every reachable content satisfies, and that each transaction keeps it |
| `Runs.dfy`, `Laws.dfy` | runs of transactions, and the guarantees over whole runs |
| `JobStore.dfy` | the store as a class: each transaction statement by statement, updating the tables in place |
| `Daemon.dfy` | dispatch, answers of the backend, events of the backend |
| `ClaudeBackend.dfy` | the life of one Claude attempt, in every interleaving |
| `HermesAdapter.dfy` | the adapter's job tasks racing with cancel frames |
| `Connector.dfy` | sockets, generations, takeover, late close |
| `RelayTurns.dfy`, `RelayClient.dfy` | delivery of results: acknowledgement timers, retries, persisted back-off, replay, in every interleaving with the rest of the daemon |
| `ClaudeStream.dfy` | the stream-json line consumer |
| `Disk.dfy`, `Activation.dfy`, `Migration.dfy` | profile activation and rollback, v1 to v2 migration and rollback |
| `Volume.dfy`, `HermesInstall.dfy`, `Deployment.dfy` | bridge install, rollback and compensation; deployment rollback |

`dafny verify dfyconfig.toml` checks the whole project.

How the pieces fit: each method of `JobStore` is proved to compute its function in `Tables` and to keep `Valid`;
where the program counts changed rows and throws when the tables disagree, the method asserts that they agree, so
no such throw can be reached. The laws are about the functions. The drivers are state machines over the same
functions, one step per piece of code between two awaits, because their guarantees are about interleavings; the
parts of the daemon, adapter, connector and relay client that run without an await are also classes whose methods
are proved to compute those steps.

Assumptions:

- A transaction is atomic, and one that throws changes nothing. Lease and message identifiers are fresh. The clock
  does not run backwards, so attempts are ordered by time and then by insertion. There is one scope key. Runs start
  from an empty store of schema version 8, or from any content that satisfies `Valid`.
- Only durable backends have session rows. Texts, hashes and identifiers are compared by equality; hashes are
  injective.
- The raw deletion of a quarantine (`src/state/store.ts:2239-2243`) is no step: the daemon releases sessions through
  the recovery release.
- In the Claude backend, the return of a submission and the clearing of the pending mark are one step, a cancel is
  stored and passed on in one step (the code has no await between them), and the disconnect report that ends a
  failing attempt is stored.
- In the Claude backend a release of a session comes only while no attempt is live: until its attempt has ended, the
  recovery evidence of a job is part of its settlement, and a release takes it away.
- The daemon sends one job frame per job to an adapter: a job is leased again only after `not_sent`, and that is
  recorded only when the frame was not sent or was dropped (`src/daemon.ts:722-736`, `src/connector/server.ts:504-515`,
  `Laws.EarlierGenerationsWereNotSent`).
- The relay client starts on a recovered store, and the retry limit is not lowered between restarts.
- Other writers act on the files of an activation at its three hook points, where they may write and remove
  anything. The names of backups and copies, and of the rollbacks of a migration, are fresh.
- A file write or removal takes effect whole or not at all; when it reports a failure either may be the case. The
  Hermes and deployment operations hold a lock, so no other writer interferes; their guarantees are for one fault,
  and a lock that cannot be released is one.

Seven places where the code does less than one would expect, and what is proved about each:

- The last ledger event and the cancel flag alone do not determine a job's status: after `not_sent` a job may be
  Acked or Rejected. `NotSentIsAmbiguous` gives a run, `LastEventDetermines` the exact condition, and `LedgerReplays`
  the replay with the result row added.
- "Not started" of the Hermes adapter can be untrue after the adapter itself disconnects, because that clears the
  books and not the tasks: a job cancelled while its `accepted` is being sent loses its cancel mark and starts.
  `DisconnectLies` gives the run, and `DisconnectIsSafeExactly` states when a disconnect is harmless, in both
  directions: with one frame per job, if and only if no job reported as not started is still queued or being
  accepted. For the adapter in isolation, where a job may be offered under a second lease, no `accepted` may be
  under way either, because a task drops the cancel mark of its job whatever the lease.
- If the durable disconnect handler fails, at a takeover or at a close, the next hello exposes a new generation while
  jobs of the old one are active; after a close an ordinary hello does. A later takeover ends only the jobs at the
  connector taken over, even if its own settlement is stored. `FailedCloseLeavesBehind` gives the run;
  `TakeoverIsCleanExactly` and `CloseIsCleanExactly` state for every reachable state which jobs are left behind, in
  both directions, `TakeoverAfterHistory` and `CloseAfterHistory` when none is. What never fails is `JobsStayHeld`: each
  active job is at the connector of a socket that is active or still to be settled.
- An activation reads the profile again before the commit, but neither proof nor receipt. Another writer who removes
  or replaces one of them at `beforeConfigRename` is not noticed: `RemovedProofIsNotNoticed` gives an input,
  `CommitsUnbacked` shows that it is so for every such turn that leaves config and profile, and
  `CommitIsBackedExactly` that the commit is backed if and only if that turn leaves both.
- The cap on one line of the Claude stream is meant for lines, but undecodable bytes grow threefold when they are
  replaced: `LineCapCanStrike` gives inputs within the byte cap that exceed it, `LineCapStopsExactly` says when it
  strikes, and `LineCapCannotStrike` that for valid UTF-8 it does not.
- If the install lock of the bridge cannot be released, its rollback has taken effect and is taken for a failure. The
  deployment rollback then leaves the bridge rolled back and reports a complete restore: `RollbackDeployment` states
  that it does so exactly then, and `JammedRefuses` that it cannot be repeated.
- With two faults an installation is neither all nor nothing: if the caller's hook throws and then the copy of the old
  config fails, the staged new config is renamed into place beside the old plugin (`src/install/hermes.ts:340-347`).
  `InstallUnderTwoFaults` is the run.

## Model

| member | source | states |
|---|---|---|
| Laws.ReachableIsValid | src/state/store.ts:502-599 | every content reachable from an empty store by any transactions satisfies the cross-table invariant |
| Laws.SessionsAgree | src/state/store.ts:986-1049 | in every reachable state at most one job per session key is being executed and at most one slot held; a slot without recovery names one active job of its backend, session, lease and generation, a slot with recovery a job of unknown outcome under quarantine; each active durable job owns a slot |
| Runs.StepKeepsValid | src/state/store.ts:986-2094 | each transaction keeps the invariant, for fresh leases and messages and a clock that does not run back |
| Runs.RunsKeepValid | src/state/store.ts:502-2615 | any sequence of transactions keeps the invariant |
| Runs.RunsEvolve | src/state/store.ts:2462-2615 | over whole runs: jobs, results and events stay; target, session and payload never change; terminal jobs and delivered results are final; the ledger only grows at its end |
| Runs.StepAccounts | src/state/store.ts:994-1022 | a generation rises only by a claim that was allowed, an outcome becomes unknown only together with a quarantine, and only a release lifts a quarantine |
| Laws.EarlierGenerationsWereNotSent | src/state/store.ts:1062-1128 | every generation below the current one has ledger exactly reserved, not_sent |
| Laws.LedgerForm | src/state/store.ts:2257-2358 | events of a run are numbered 1..n without a repeated type and read reserved, accepted?, ending?; not_sent never follows accepted; durable results follow it, durable cancelled_not_sent does not |
| Laws.LedgerReplays | src/state/store.ts:2257-2358 | the last event, the cancel flag and the presence of a result replay to the status of every claimed job |
| Laws.NotSentIsAmbiguous | src/state/store.ts:1755-1820 | a run after which last event and cancel flag agree and the statuses differ |
| Laws.LastEventDetermines | src/state/store.ts:1755-1820 | two claimed jobs with equal last event and cancel flag have equal status if and only if, after not_sent without a cancel, both or neither have a result |
| Laws.StaleLeaseChangesNothing | src/state/store.ts:1781-1806 | any message under the lease of an earlier generation changes nothing |
| Laws.ClaimNeedsFreeSession | src/state/store.ts:994-1022 | a claim happens only on a session without quarantine, active job, held slot or recovery |
| Laws.UnknownOutcomeIsQuarantined | src/state/store.ts:2360-2460 | an attempt whose outcome becomes unknown quarantines its session in the same transaction |
| Laws.OnlyReleaseEndsQuarantine | src/state/store.ts:1531-1713 | a quarantine ends only by a release of that session, and only while nothing runs on it |
| Laws.ReleaseRefusalsUnreachable | src/state/store.ts:1571-1709 | with no active job on the key, every recovery slot is releasable, no slot is active without recovery, and recovery implies quarantine |
| Laws.ReleaseIsExact | src/state/store.ts:1571-1709 | release succeeds if and only if the key is quarantined and runs nothing; then neither quarantine nor recovery slot is left and jobs, ledger and results are untouched; otherwise nothing changes |
| Laws.CancelOrResult | src/state/store.ts:1947-1967 | the cancel flag is set exactly in Cancelling, Cancelled and CancelUnknown; a result row exists exactly in Succeeded, Failed and Rejected; never both |
| Laws.CancelOrResultForever | src/state/store.ts:2462-2615 | over any later run: after a cancel never a result; after a result it stays, unchanged, and no cancel wins; terminal jobs never change |
| Laws.CancelCommutesWithIngest | src/state/store.ts:558-599 | cancel then ingest equals ingest then cancel if and only if the waiting list had room and the job came within the time to live |
| Laws.SendFailureRestores | src/state/store.ts:1822-1915 | start of a delivery followed by its rollback restores the attempts and both fields that describe the newest one; the row is pending |
| Laws.DeliveredWasSent | src/state/store.ts:1917-1929 | a delivered result has an attempt that was not rolled back, and stays as it is over any run |
| Laws.LastMessageIsNewest | src/state/store.ts:1877-1915 | last message and delivery time describe the remaining attempt that no other of the job follows, by time and then by insertion; they are empty exactly when none remains |
| Laws.NewestIsLatest | src/state/store.ts:1884-1901 | the selected attempt is one of the job, none of the job is later, and of equally late ones the last inserted wins |
| JobStores.JobStore.AppendEvent | src/state/store.ts:2257-2358 | scanning for the highest sequence appends event n+1 with the lease of the run |
| JobStores.JobStore.Ingest | src/state/store.ts:558-599 | first delivery, repeated delivery, conflict, and the waiting cancel, in place; keeps the invariant |
| JobStores.JobStore.MarkAcked | src/state/store.ts:1715-1718 | Received becomes Acked, nothing else changes |
| JobStores.JobStore.Reject | src/state/store.ts:1808-1820 | an undispatched job becomes Rejected with its result queued; any other stays |
| JobStores.JobStore.RequestCancel | src/state/store.ts:1947-2000 | cancel of a stored job, waiting intent, refreshed intent, or a full list that rolls back whole |
| JobStores.JobStore.ClaimForDispatch | src/state/store.ts:1720-1753 | claims exactly when no other job of the session is active and nothing is cancelled or quarantined |
| JobStores.JobStore.ClaimForBackendDispatch | src/state/store.ts:986-1060 | additionally takes the idle slot; the second check of the slot cannot miss |
| JobStores.JobStore.ResetUnsentDispatch | src/state/store.ts:1755-1779 | the unsent Hermes request returns to Acked without lease; the guarded clear cannot miss |
| JobStores.JobStore.ResetUnsentBackendDispatch | src/state/store.ts:1062-1128 | the same for a durable backend, clearing exactly one slot |
| JobStores.JobStore.FinishUnsentBackendCancellation | src/state/store.ts:1130-1194 | a cancelled, never accepted attempt becomes Cancelled and frees exactly one slot |
| JobStores.JobStore.FinishHermesCancellationNotStarted | src/state/store.ts:2026-2047 | a Hermes job under cancel becomes Cancelled without quarantine |
| JobStores.JobStore.MarkRunning | src/state/store.ts:1781-1798 | Hermes acceptance under the current lease |
| JobStores.JobStore.MarkBackendRunning | src/state/store.ts:1196-1311 | binds the turn once, also under a pending cancel; a second bind succeeds only for the same turn |
| JobStores.JobStore.FinishWithOutbox | src/state/store.ts:2571-2608 | Hermes result under the current lease and without cancel, queued once |
| JobStores.JobStore.FinishBackendWithOutbox | src/state/store.ts:2462-2569 | durable result: status, event, result row, optional quarantine and exactly one cleared slot together |
| JobStores.JobStore.MarkCancelUnknown | src/state/store.ts:2002-2024 | an unconfirmed Hermes cancel becomes CancelUnknown under quarantine |
| JobStores.JobStore.MarkBackendRecoveryTerminal | src/state/store.ts:2360-2460 | a lost durable attempt becomes Interrupted or CancelUnknown, its one slot is kept as evidence, its session quarantined |
| JobStores.JobStore.MarkConnectorDisconnected | src/state/store.ts:2049-2094 | every active Hermes job of the connector is lost exactly once |
| JobStores.JobStore.MarkBackendDisconnected | src/state/store.ts:1419-1529 | every active job of the execution is lost and exactly as many slots are marked; the counts cannot differ |
| JobStores.JobStore.RecoverAfterRestart | src/state/store.ts:502-556 | every active attempt is lost, every held slot marked, deliveries in flight requeued, old intents pruned |
| JobStores.JobStore.EnsureBackendSession | src/state/store.ts:626-758 | creates the row of an account-bound session or leaves the existing one |
| JobStores.JobStore.CreateLocalOpaqueSession | src/state/store.ts:760-811 | creates a session row with its thread unless it exists or the session is quarantined |
| JobStores.JobStore.BindBackendThread | src/state/store.ts:813-853 | binds a thread once; another thread is refused |
| JobStores.JobStore.ReleaseSessionRecovery | src/state/store.ts:1571-1713 | the release with each of its refusals, of which the unsafe ones are unreachable |
| JobStores.JobStore.ReleaseBackendSessionRecovery | src/state/store.ts:1531-1561 | deletes one slot in recovery with the quarantine; the evidence the delete asks for is always there |
| JobStores.JobStore.StartResultDelivery | src/state/store.ts:1822-1868 | starts a delivery exactly from pending or due back-off, or as a retry from delivering |
| JobStores.JobStore.ResetAfterSendFailure | src/state/store.ts:1877-1915 | undoes one attempt and describes the newest remaining one |
| JobStores.JobStore.MarkOutboxDelivered | src/state/store.ts:1917-1929 | settles a row exactly when it is not delivered and an attempt remains |
| JobStores.JobStore.MarkOutboxAckFailed | src/state/store.ts:1940-1945 | a delivering row backs off until the given time |
| Daemon.AtMostOneDispatch | src/daemon.ts:695-768 | over every history, restarts included: of all dispatch calls of a job all but at most one were answered not_sent, and while that one stands the job cannot be claimed |
| Daemon.MoveKeepsSound | src/daemon.ts:695-768 | every move keeps each call in flight or sent on record and not returned |
| Daemon.ResetThrowsExactly | src/daemon.ts:740-768 | returning an unsent call throws if and only if a cancel is pending and the backend had accepted that very attempt |
| Daemon.UndeliveredCancelSettles | src/daemon.ts:445-482 | an undeliverable cancel is always settled: Cancelled without quarantine if a durable backend never accepted, else CancelUnknown under quarantine |
| Daemon.StoredReplyIsKept | src/daemon.ts:518-579 | "result_stored" for a result frame means that the stored text is that frame's, in every later state, and no cancel ever wins |
| Daemon.StoredReplyExactly | src/daemon.ts:518-579 | when a result frame is answered "result_stored", in both directions |
| Daemon.ResultFramesAreIdempotent | src/daemon.ts:570-579 | the frame again is answered alike and changes nothing; another text is a conflict and changes nothing |
| Daemon.EventIsStep | src/daemon.ts:496-693 | each backend event is one transaction of its own kind, or nothing |
| Daemon.RelayDaemon.ResetUnsent | src/daemon.ts:740-768 | the in-place handler computes the step of the model and keeps the invariant |
| Daemon.RelayDaemon.OnCancelAnswer | src/daemon.ts:445-482 | likewise for the answer to a cancel |
| Daemon.RelayDaemon.OnHermesResult | src/daemon.ts:518-579 | likewise for a Hermes result with each of its replies |
| Daemon.RelayDaemon.OnHermesCancelled | src/daemon.ts:644-672 | likewise for a Hermes cancellation |
| Daemon.RelayDaemon.OnDurableResult | src/daemon.ts:518-569 | likewise for a durable result, with the oversize answer |
| ClaudeBackend.EverySubmittedAttemptSettles | src/backends/claude/native-execution-backend.ts:473-562 | in every interleaving of init, result, cancel, deadline, stop and throwing handlers, the move that ends a submitted attempt leaves its job Succeeded or Failed with a queued result and a free slot, or of unknown outcome with recovery and quarantine; completed attempts stay so |
| ClaudeBackend.MoveKeeps | src/backends/claude/native-execution-backend.ts:339-562 | every move keeps store, pending submission and live attempt in agreement |
| ClaudeBackend.ReportSettles | src/backends/claude/native-execution-backend.ts:694-746 | each terminal report the attempt can make is accepted by the daemon and settles the job |
| ClaudeBackend.FailClosedKeeps | src/backends/claude/native-execution-backend.ts:655-685 | failing closed settles the job whatever was stored before |
| ClaudeBackend.LateInitKeeps | src/backends/claude/native-execution-backend.ts:500-516 | an init that arrives after the end changes nothing |
| ClaudeBackend.AttemptsEnd | src/backends/claude/native-execution-backend.ts:473-562 | a live attempt always has a move of its own, each takes it nearer its end, and no other move takes it back |
| HermesAdapter.NotStartedIsTruthful | hermes-plugin/adapter.py:436-534 | in every interleaving, with one frame per job or with one per lease, a job lease reported as not started is never handed to handle_message |
| HermesAdapter.DisconnectLies | hermes-plugin/adapter.py:214-240 | a run from the idle adapter, one frame for the job, after which a job reported as not started has been started |
| HermesAdapter.DisconnectIsSafeExactly | hermes-plugin/adapter.py:214-240 | after the adapter's own disconnect the reports can be trusted if and only if no reported job was queued or being accepted; for the adapter in isolation, if and only if moreover no accepted frame was being sent |
| HermesAdapter.CancelIsExact | hermes-plugin/adapter.py:591-631 | a cancel of a queued or accepting job is answered "not started" exactly while it is on offer, and never once it was started |
| HermesAdapter.OneDispatchPerSession | hermes-plugin/adapter.py:536-576 | at most one job per session is between admission and the end of its dispatch |
| HermesAdapter.ActionKeeps | hermes-plugin/adapter.py:367-434 | every step keeps tasks and dictionaries in agreement |
| HermesAdapter.LivisBridgeAdapter.HandleJob | hermes-plugin/adapter.py:436-500 | from the start of a task to its first await, in place |
| HermesAdapter.LivisBridgeAdapter.AfterAccepted | hermes-plugin/adapter.py:508-534 | from the accepted frame to handle_message or the end, in place |
| HermesAdapter.LivisBridgeAdapter.HandleCancel | hermes-plugin/adapter.py:591-631 | the decision of a cancel frame, in place |
| HermesAdapter.LivisBridgeAdapter.ReserveJobOffer | hermes-plugin/adapter.py:578-584 | refuses another lease of an offered job |
| HermesAdapter.LivisBridgeAdapter.ReleaseJobOffer | hermes-plugin/adapter.py:586-589 | the offer goes with its lease, the cancel mark in any case |
| Connector.TakeoverIsClean | src/connector/server.ts:424-461 | with a reliable disconnect handler, no job of an older generation is active when one is ready, and the late close of any other socket changes nothing, even with a reused connector id |
| Connector.JobsStayHeld | src/connector/server.ts:226-246 | over any history, failed settlements included: every active Hermes job is at the connector of a socket that is active, or fenced and not yet settled, and was claimed under a generation there has been |
| Connector.TakeoverIsCleanExactly | src/connector/server.ts:424-461 | from every reachable state: the generation after a takeover leaves a job behind if and only if the settlement was not stored or the job is at another connector than the one taken over |
| Connector.CloseIsCleanExactly | src/connector/server.ts:226-246 | the same for a close, on time or late, followed by an ordinary hello |
| Connector.TakeoverAfterHistory | src/connector/server.ts:424-461 | after any history, failed settlements included: a takeover leaves no job at a connector if and only if its settlement is stored and every job was at the connector taken over, or there was none |
| Connector.CloseAfterHistory | src/connector/server.ts:226-246 | the same for a close and an ordinary hello |
| Connector.FailedCloseLeavesBehind | src/connector/server.ts:488-496 | a run: a close whose settlement fails, an ordinary hello, and a takeover whose settlement is stored, with the old job active under each later generation |
| Connector.GenerationsGrow | src/connector/server.ts:441-461 | generations strictly increase, a socket keeps its own, at most one socket is ready |
| Connector.SupersededIsRejected | src/connector/server.ts:345-353 | messages of a socket that is not active change nothing |
| Connector.ConnectorServer.AcceptHello | src/connector/server.ts:375-440 | repeated hello, conflict, takeover and aborted takeover, in place |
| Connector.ConnectorServer.OnClose | src/connector/server.ts:226-246 | fence and settlement of a close, in place |
| Connector.ConnectorServer.SettleDisconnected | src/connector/server.ts:488-496 | settles once, and stays unsettled when the handler fails |
| RelayTurns.NoResultIsLost | src/relay/client.ts:444-596 | in every interleaving of sends, timers, acknowledgements, closing sockets and the other transactions of the daemon: each result row stays with its text and is delivered after a real send, pending, on its way under a timer, or backing off until a time that the recovery timer of a caught-up connection does not miss; delivered rows never change |
| RelayTurns.MoveKeepsSound | src/relay/client.ts:444-596 | each turn of the client and each other transaction keeps timers, back-off and recovery timer in agreement with the rows |
| RelayTurns.StepQueues | src/state/store.ts:1808-2094 | a result stored, a rejection, a cancel, a claim, a loss, a release: none touches a row or an attempt that is there, and an added row is pending |
| RelayTurns.StepKeepsNoneLost | src/state/store.ts:1808-2094 | no such transaction leaves a row in delivery without its timer |
| RelayTurns.StepKeepsCovers | src/state/store.ts:2128-2138 | no such transaction puts the end of a back-off before the recovery timer |
| RelayClients.RelayClient.DeliverResult | src/relay/client.ts:457-482 | one send, as one move: the attempt is recorded before it, rolled back without a trace when the socket throws, and has an armed timer otherwise; a retry always starts |
| RelayClients.RelayClient.AckTimerFired | src/relay/client.ts:483-514 | an unacknowledged row is sent again under a timer with one more retry counted, pending again when the connection is gone, or backing off for the computed delay after exactly the last retry, with the recovery timer armed; no other row changes |
| RelayClients.RelayClient.ReplayOutbox | src/relay/client.ts:444-455 | is a sequence of sends and one scheduling; ends; touches only rows that were due; if the connection is still up, each of them is on its way under a timer, nothing is due, and back-off is covered by the recovery timer |
| RelayClients.RelayClient.DeliverBatch | src/relay/client.ts:448-451 | the rows of the batch, and only they, leave the waiting set and get a timer |
| RelayClients.RelayClient.ClearResultTimers | src/relay/client.ts:588-596 | at the end of a connection exactly the delivering rows are pending again and no timer is left |
| RelayClients.RelayClient.OnResultAck | src/relay/client.ts:294-317 | only a result that the acknowledgement names and that was sent becomes delivered |
| RelayClients.RelayClient.NextOutboxAttemptAt | src/state/store.ts:2128-2138 | the earliest end of a back-off, or none |
| RelayClients.RelayClient.ListPendingOutbox | src/state/store.ts:2117-2126 | distinct due rows, fewer than the limit only when there are no more |
| RelayClients.RelayClient.ResolveAckJobId | src/relay/client.ts:516-527 | finds a row named by job or message id, none only if no candidate names one |
| ClaudeStream.ConsumeStream | src/backends/claude/native-cli.ts:445-553 | for every chunking, valid UTF-8 or not: callbacks and result are the fold over the whole text split at newlines, cut where the cap on all bytes or on one line is exceeded |
| ClaudeStream.ConsumeBuffered | src/backends/claude/native-cli.ts:525-541 | the buffer loop folds the complete lines and keeps the rest |
| ClaudeStream.SuccessExactly | src/backends/claude/native-cli.ts:456-515 | success if and only if the stream is within the caps and holds exactly one safe accepted init, then exactly one valid result of the same session, and no tool, user or hook record |
| ClaudeStream.SplitConcat | src/backends/claude/native-cli.ts:525-541 | a text may be split into lines as it arrives |
| ClaudeStream.LineCapStopsExactly | src/backends/claude/native-cli.ts:523-543 | the line cap ends the consumption if and only if some prefix within the byte cap leaves an unfinished line above it; the failure is then that of an earlier line or the excess |
| ClaudeStream.LineCapCannotStrike | src/backends/claude/native-cli.ts:523-543 | for valid UTF-8 the line cap never ends the consumption |
| ClaudeStream.LineCapCanStrike | src/backends/claude/native-cli.ts:523-543 | undecodable bytes within the byte cap exceed the line cap |
| ClaudeStream.ChunkingIsIrrelevant | src/backends/claude/native-cli.ts:445-553 | two chunkings of one valid text within the byte cap mean the same, whatever the decoder held back |
| Activation.ActivateReviewedProfile | src/upstream/activation.ts:550-840 | whatever other writers do at the hook points: at every crash point a config that selects the candidate has on disk what they leave alone of profile, proof and approval; the commit always finds the reviewed profile; success has config and profile in place, and comes without faults if and only if nobody else changed those two; a failure after the commit that reports a restore has config, active profile, proofs and receipt back, one before it has proofs and receipt back and never touched the config; nothing another writer placed is replaced |
| Activation.EveryCrashPointIsBacked | src/upstream/activation.ts:683-834 | the crash property, complete when other writers leave the evidence, and the protection of foreign configs, spelled out per change |
| Activation.CommitIsBackedExactly | src/upstream/activation.ts:723-744 | the commit has profile, proof and receipt on disk if and only if the turn before it leaves proof and receipt |
| Activation.CommitsUnbacked | src/upstream/activation.ts:723-760 | for every turn that does not, and leaves config and profile, a run without faults reports success over an unbacked commit |
| Activation.RemovedProofIsNotNoticed | src/upstream/activation.ts:723-760 | an input: the proof is removed before the rename, and the activation succeeds without it |
| Activation.SaveSupportedProof | src/upstream/proof.ts:116-180 | both proof files written, as always without faults, or both as before, or the inconsistency is reported |
| Activation.CompensateConfig | src/upstream/activation.ts:446-510 | brings the original config back, over its own text only, with the profile it names intact; without faults exactly when no other writer replaced it |
| Activation.UndoAll | src/upstream/activation.ts:142-163 | takes evidence back, last first, each file only from the text written by this operation |
| Activation.RollbackProfileConfig | src/upstream/activation.ts:842-1047 | selects the profile of the backup over an unchanged config only, with that profile on disk afterwards; keeps a copy; brings the present config and its profile back on failure; succeeds without faults if and only if nobody else changed config or profile |
| Migration.Apply | src/upstream/profile-migration.ts:551-640 | at every crash point the config is the target's only with backups, target profile and receipt on disk and the proofs quarantined; an automatic restore has the source config back; without faults it succeeds from the planned files |
| Migration.Rollback | src/upstream/profile-migration.ts:888-1240 | success reaches the v1 state without supported proof, with the exact config bytes when the original profile is intact; in that state nothing changes; at every crash point the config is as before or the v1 state is complete; proofs are moved, not lost; without faults it succeeds from a known config with its backups |
| Migration.RoundTrip | src/upstream/profile-migration.ts:551-1240 | migrate and roll back restores the config byte for byte; once more changes nothing; without faults it completes |
| Migration.QuarantineProofs | src/upstream/profile-migration.ts:398-436 | afterwards no proof path is occupied and each former proof is in quarantine |
| Migration.MaterializeRestoredProfile | src/upstream/profile-migration.ts:802-840 | the profile to return to has the backed-up bytes; an invalid one is set aside |
| Migration.PlanRestoredConfig | src/upstream/profile-migration.ts:774-800 | the exact config exactly when the original profile is valid and no fallback is forced |
| HermesInstall.InstallBridge | src/install/hermes.ts:272-353 | under one fault inside the lock: the new bridge with receipt and backups, or plugin and config as before |
| HermesInstall.InstallUnderTwoFaults | src/install/hermes.ts:340-347 | a hook that throws and then a failing copy leave the new config beside the old plugin, without backup or receipt |
| HermesInstall.InstallUnderLock | src/install/hermes.ts:243-264 | with the lock: what took effect is reported if and only if the lock can be released; a lock that is there refuses |
| HermesInstall.RollBackBridge | src/install/hermes.ts:371-484 | under one fault inside the lock: the state before the installation, or plugin, config and receipt as they were; anything changed since is refused |
| HermesInstall.RollBackUnderLock | src/install/hermes.ts:243-264 | the same with the lock, reported if and only if it can be released |
| HermesInstall.CompensateRollback | src/install/hermes.ts:486-602 | under one fault inside the lock: the installed state and receipt again, or everything as it was |
| HermesInstall.CompensateUnderLock | src/install/hermes.ts:243-264 | the same with the lock, reported if and only if it can be released |
| HermesInstall.RoundTrip | src/install/hermes.ts:272-602 | install, rollback, compensation: two steps meet the state of two steps before |
| Deployment.RollbackDeployment | src/install/deployment.ts:1038-1158 | under one fault, a lock that cannot be released included: the previous deployment, with its definition loaded and active exactly as before it, or pointer, receipt, bridge and service as they were, except that a jammed install lock leaves the bridge rolled back under a report of complete restore; only a refused bridge rollback followed by a fault in the compensation is reported incomplete; without a fault it succeeds if and only if pointer, receipt, bridge and service definition are the recorded ones and an active service may be stopped |
| Deployment.JammedRefuses | src/install/hermes.ts:371-484 | after such a jam the rollback cannot be repeated; what is on disk allows taking the rollback of the bridge back |
| Deployment.RollbackUnderLock | src/install/deployment.ts:751-770 | with the deployment lock: a rollback that took effect is reported if and only if that lock can be released |
| Deployment.RestoreService | src/install/deployment.ts:789-803 | without a fault left the definition, the loaded definition and the activity are restored |
| Deployment.Compensate | src/install/deployment.ts:1111-1156 | exactly what was touched is put back |

## Left out

- SQL text, triggers and the migrations of schema versions 0 to 8: runs start from an empty version 8 store.
- Columns for errors, audit metadata, thread checkpoints and creation times, and the uniqueness of hashes, directories and threads: they gate no transaction modelled here beyond "present".
- Codex: its harness is an environment that calls the same store transactions.
- Processes, signals, WebSockets, timers and UTF-8 decoding: arbitrary events, armed or unarmed timers, text decoded by any decoder.
- File permissions, inodes, symlinks and directory syncs: a step that may fail; "without faults" includes that they pass.
- The upstream gate of the daemon, proof expiry, node authorization lists, heartbeat and token refresh: flags that only suppress steps modelled here.
- JSON, YAML and semantic-version parsing, receipt validation and path containment: parsed records and agreeing receipts are the starting point.
- `applyDeployment` and `uninstallDeployment`: the same saga as the rollback, with more I/O.
- A race of another writer inside the window between a last read and a rename: other writers act at the hook points only.
- ClaudeBackend.EverySubmittedAttemptSettles: modelled on values, since its fields change across awaits; it takes the disconnect report that ends a failing attempt to be stored, because a store that refuses that last write leaves the job to the next restart.
- HermesAdapter.NotStartedIsTruthful: disconnects of the adapter itself must meet the condition that `DisconnectIsSafeExactly` proves exact; lost connections need none.
- Connector.TakeoverIsClean: takes the disconnect handler to be reliable; `TakeoverIsCleanExactly` and `CloseIsCleanExactly` state what a failure does.
- RelayClients.RelayClient.ReplayOutbox: as a method, one replay without other turns in between; `RelayTurns.NoResultIsLost` is about its sends interleaved with anything.
- RelayClients.RelayClient.ListPendingOutbox: the order of the batch, by the time of the last update or the end of the back-off, is not modelled, since no guarantee here rests on it.
- JobStores.JobStore.EnsureBackendSession: the refusal of an existing row with other account, model or security metadata, and the completion of rows from schema version 5, are not modelled; metadata gates no other transaction.
- ClaudeStream.ChunkingIsIrrelevant: only for valid UTF-8 within the byte cap; beyond it the failure depends on where a chunk ends.
- HermesInstall.InstallBridge: for one fault; `InstallUnderTwoFaults` shows that two are too many.
- Deployment.RollbackDeployment: for one fault; of the service it promises nothing when it reports an incomplete compensation.
