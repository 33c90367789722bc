# Project Relay: a verified model of its execution protocol and the code around it

Project Relay queues a user's message as an execution of a coding CLI (Codex or Claude), starts it once on
some worker, streams the CLI's output into an assistant message, and survives crashes of every part. This
project models that protocol in Dafny and proves what holds in every interleaving; beside it stand the
stream pipeline, the canonical JSON behind handoff checksums, the review-finding extractor, the retry
backoff, the evidence gate and the termination of recorded processes.

`dafny verify dfyconfig.toml` checks everything.

## How the model is built

**The protocol.** `Tables` holds the shared rows, `Submission` and `Validation` the two submitting
transactions and the worker's cross-check, and `Protocol` a transition system of 31 kinds of step: one for
each guarded `updateMany`, each `$transaction` and each decision local to a worker or to the queue. Any number
of submitters, dispatchers, workers, cancel routes and reapers take steps in any order, and a crash is an actor
that takes no further step. A main result quantifies over every run from the empty world, or over every
continuation of one. `LifecycleSafety`, `Release`, `Replies`, `CancelRoute`, `WorkerLaws`, `CatalogSafety`,
`Commits`, `SubmissionRows`, `ModelChoice`, `Handoffs`, `Provenance`, `Conservation`, `Pinning`, `RetryModel`,
`OutboxSafety`, `OutboxLaws`, `Delivery` and `Lease` hold those results.

**The code that changes rows.** `Persistence`, `Dispatcher`, `Reaper` and `CancelRoute` hold the same operations
as methods that update a database object call by call. Between two calls of one actor, `Interference` lets all others
make any steps; each method is proved to contribute exactly its protocol steps to that shared history.
`ProviderTurn` does this for the locals of one provider turn.

**The stream pipeline.** `LineReader` (the incremental splitter), `Json` and `StreamProtocol` (the two line
protocols and the accumulator), `StreamRecords` (what a whole stream says) and `EventQueue` (the runner's record
with its waiters and consumers).

**Smaller pieces.** `Quoting`, `JsonText`, `JsonReader` and `CanonicalJson`; `ReviewFindings`; `Backoff`, `BackoffBounds`
and `Retries`; `EvidenceGate`; `KillSafety` and `Launcher`. `Capability` holds the capability matrix and the
model registry, `Traces`, `Sequences` and `Wrappers` shared vocabulary, `Revival` one long concrete run.

Assumptions:

- A transaction is atomic, and the queue's row lock serializes it; a retry takes no lock and is atomic here
  because the model makes every transaction one step.
- A row's id is its position in its table, so `createdAt` and `startedAt` form a strictly increasing clock.
- The unique keys of the outbox (`jobId`), of assistant messages (`agentSessionId`) and of RUNNING provider
  sessions hold: the step that would violate one throws. The keys (conversation, idempotency key) and
  (conversation, version) are not assumed; that they are respected is proved.
- The queue delivers a job at any later time, to any workers, until its one attempt is over; it ignores a second
  job of the same id while it still keeps the first, and may forget a finished one at any time.
- Time is whatever the step says: no two clocks are assumed to agree, except on the schedule of `Lease`.
- A database call that does not violate a key succeeds. An actor that stops between two of its calls, because one
  of them failed or because it crashed, is covered: it makes no further step.
- `JSON.parse` is a function from text to an optional value. The finding extractor additionally assumes that
  a value is no heavier than its text is long.
- Key comparison in canonical JSON is a strict total order on the keys.

## Where the code does less than it says

Each of these is proved with its exact condition.

- A finished session can still look claimed: the cancel route keeps `workerId`, and the row is released only if
  its worker can still read the cancellation before it asks for anything else, or has a cancelling write pending.
  So it stays claimed for ever after a timeout was asked for first, after the termination was rejected, and after a
  turn that had simply ended (`FinishedAndClaimed`, `ReleasedIff`, `CancelledAfterAnswerStaysClaimed`).
- A sweep stops at the first process whose exit it cannot confirm. The row it has just reclaimed is FAILED by then,
  so no later sweep returns to it, and it never gets its FAILED reply (`ReapExpiredAgentSessions`,
  `ThrowsIffUnconfirmed`, `ReplyComesIff`, `AbandonedReplyIsLost`).
- A timed-out or cancelled execution gets no assistant message: those branches of the failure finalizer are
  dead (`FailureFinalizerOnlyFails`).
- The RUNNING provider session need not be the newest: a late success revives a retired one, and then every
  new submission to that provider in the conversation throws (`RetiredSessionRevived`,
  `RevivedSessionBlocksSubmissions`).
- A new message that changes the model of its provider before the first reply is rejected with an exception; this
  and every other reason to throw is in `QueueCommitsIff`.
- A queued execution whose row is PUBLISHED or DEAD_LETTER, which no dispatcher holds and for which no job waits,
  stays queued for ever unless it is cancelled: one dead-lettered before any delivery, and one whose only delivery
  attempt failed before the claim (`StartableIff`).
- A same-provider retry preserves the original model only if there was one to preserve
  (`RetryKeepsModelIff`, `RetrySwitchesModel`).
- The claim alone does not exclude a second dispatcher: recovery resets the row of a dispatcher that is
  merely slow (`StepExclusiveIff`, `SlowDispatcherIsOvertaken`).
- A policy whose raw delays are both below one second has a base above its maximum, and a fractional maximum
  can be exceeded by rounding (`BaseAtMostMaxIff`, `DelayWithinBoundsIff`).
- A lease is not safe against two missed heartbeats. The third interval ends with the lease, counted from the
  claim's clock reading, so the latency of the claim and of a heartbeat must fit into what the lease leaves when it
  is divided by three: two milliseconds at most, and none for the default of sixty seconds. Leases below three
  seconds are never safe, since the interval has a floor of one second (`CoversIff`, `ClaimedLeaseIsSafeIff`).
- Cutting a stream differently changes the lines when a line is longer than the bound
  (`ChunkInvariantIffFits`).
- The confirming read of an adopted process is not compared with the snapshot it was chosen from
  (`AdoptionIff`). Off Windows every live process reads as "present", so there the identity
  check only says that the pid is in use.
- Verification never looks at later failures (`OnceSupportedAlwaysVerifiable`).
- A cancelled execution's job can still be published after its outbox row was purged, exactly when the row was
  DISPATCHING or a dispatcher held it (`PublishableAfterPurgeIff`); it is never started (`CancelledWhileQueuedNeverStarts`).
- The cancel route can answer with the state it read before its update, when the execution ended in between
  (`CancelExecution`).

## Model

| member | source | states |
|---|---|---|
| LifecycleSafety.StepInv | apps/worker/src/conversation-worker.ts:128-224 | Every step of every actor keeps the joint invariant of rows, owners, worker locals and replies, including "terminal and still owned implies CANCELLED". |
| LifecycleSafety.RunForward | apps/worker/src/worker-lease.ts:19-25 | Along every run an execution only moves QUEUED, STARTING, RUNNING, terminal, and a terminal state stays what it is. |
| LifecycleSafety.TerminalIsFinal | apps/worker/src/conversation-worker.ts:204-224 | Absorption from the empty world: a SUCCEEDED, FAILED, CANCELLED or TIMED_OUT execution keeps that state through every further run, although the CANCELLED write has no state guard. |
| LifecycleSafety.ZombieHasNoEffect | apps/worker/src/conversation-worker.ts:128-173 | Fencing: on a terminal row no worker or reaper write changes the row, adds a reply or touches a provider session; the only effect left is that the owner of a cancelled row gives up its ownership. |
| LifecycleSafety.OneReplyPerExecution | apps/worker/src/conversation-worker.ts:544-597 | In every reachable world an execution has at most one assistant message, a COMPLETED one exactly when it is SUCCEEDED, a FAILED one only when it is FAILED, none when it is cancelled or timed out. |
| LifecycleSafety.CancelledTurnIsFinal | apps/worker/src/conversation-worker.ts:380-393 | An execution whose turn raised a cancellation is CANCELLED in every later world and never gains a reply. |
| LifecycleSafety.FailureFinalizerOnlyFails | apps/worker/src/conversation-worker.ts:579-597 | The TIMED_OUT and CANCELLED branches of the failure finalizer never commit; whatever it commits is FAILED. |
| LifecycleSafety.FinishedAndClaimed | apps/worker/src/worker-lease.ts:40-41 | The step that finishes an execution leaves it claimed exactly when it is the cancel route taking a row in progress. |
| WorkerLaws.HeartbeatIff | apps/worker/src/worker-lease.ts:30-35 | A heartbeat renews exactly the lease of an execution in progress that is this worker's. |
| WorkerLaws.ProcessStartedIff | apps/worker/src/conversation-worker.ts:128-145 | The process is recorded and the execution RUNNING exactly when it is in progress, this worker's and this provider's. |
| WorkerLaws.OwnershipFailedIff | apps/worker/src/conversation-worker.ts:156-173 | An ownership failure fails and releases exactly such an execution. |
| WorkerLaws.CrossCheckDecides | apps/worker/src/conversation-worker.ts:278-310 | An accepted job begins its turn; a rejected one fails its execution exactly when it is STARTING and this worker's. |
| WorkerLaws.TerminationWritesIff | apps/worker/src/conversation-worker.ts:204-224 | The termination's write releases the row exactly when it is this worker's and, for a timeout, in progress. |
| WorkerLaws.SuccessFinalizesIff | apps/worker/src/conversation-worker.ts:544-572 | In every reachable world an answered turn is recorded exactly when its execution is RUNNING and this worker's and no other session of the pair runs; then the row, one COMPLETED reply and the session's status are written. |
| WorkerLaws.FailureFinalizesIff | apps/worker/src/conversation-worker.ts:574-597 | In every reachable world a raised turn is recorded exactly when its execution is in progress and this worker's, and then as FAILED, with one FAILED reply and a FAILED session. |
| WorkerLaws.RunRunningHasProcess | apps/worker/src/conversation-worker.ts:128-145 | Every run keeps "a RUNNING execution has a recorded process". |
| Release.ReleasedIff | apps/worker/src/conversation-worker.ts:332-389 | In every reachable world a cancelled, still owned execution is released by some continuation if and only if a reading of it is under way or its turn runs or is about to, with nothing requested before, or its cancelling write is pending and was not rejected. |
| Release.CancelledAfterAnswerStaysClaimed | apps/worker/src/conversation-worker.ts:385-393 | A reachable run without any timeout in which the cancel route takes the row between the answer and its recording, after which no continuation releases it. |
| Release.LostTerminationStaysClaimed | apps/worker/src/conversation-worker.ts:332-342 | In every reachable world, a cancelled row whose termination is rejected before its write is released in no continuation. |
| ProviderTurn.SignalsDecide | apps/worker/src/conversation-worker.ts:328-365 | For every order of timer callbacks and cancellation readings, the locals of a turn are decided by the first timer that precedes every cancellation, and by whether any cancellation was read. |
| ProviderTurn.TurnOutcomeIs | apps/worker/src/conversation-worker.ts:380-393 | For every order of signals, whether or not the termination promise rejects: a rejection leaves as an error, otherwise a cancellation read at any time wins over a timeout, and the turn answers exactly when nothing was raised, read or timed out. |
| WorkerLaws.TimerAsksIff | apps/worker/src/conversation-worker.ts:343-352 | In every reachable world a timer asks for a timeout exactly as the first request of a running turn, or, for inactivity, of an ended one whose stream still runs. |
| WorkerLaws.TurnEndsIff | apps/worker/src/conversation-worker.ts:374-393 | A turn ends exactly when no termination is pending, and only one that raised can leave its stream running. |
| ProviderTurn.TurnLocals.RequestTermination | apps/worker/src/conversation-worker.ts:332-342 | The termination is requested once; later requests change nothing. |
| ProviderTurn.TurnLocals.Abort | apps/worker/src/conversation-worker.ts:343-348 | A timer takes effect only before any other timer and any cancellation. |
| ProviderTurn.TurnLocals.ReadRow | apps/worker/src/conversation-worker.ts:353-362 | A reading takes effect only for a row that is CANCELLED and still this worker's. |
| ProviderTurn.TurnLocals.Execute | apps/worker/src/conversation-worker.ts:366-393 | The callback loop ends in the state that the order of signals decides, with exactly the standard output as its text, and leaves with the outcome of that state. |
| CatalogSafety.ProducedJobsAreAccepted | apps/worker/src/conversation-worker.ts:278-310 | A payload written by a queue or a retry is accepted in every later world exactly when its execution's project is the conversation's and its task's; no other check can reject it. |
| CatalogSafety.AcceptedIffCoherent | apps/worker/src/conversation-worker.ts:278-310 | For any payload at all, acceptance is exactly that the rows exist, share one conversation, project and provider, name each other, and the mode is supported. |
| Validation.RejectionNamesFirstMismatch | apps/worker/src/conversation-worker.ts:278-310 | A rejection names exactly the first mismatch in the order of the checks. |
| CatalogSafety.AcceptedIffProjectMatches | apps/worker/src/conversation-worker.ts:289-308 | For a linked payload the validator's verdict is acceptance or one of the two project mismatches, decided by the projects. |
| CatalogSafety.QueueProjectMatches | packages/database/src/conversation-service.ts:136-200 | A committed queue makes an acceptable execution exactly when the submitted project, and the task's if one is given, is the conversation's. |
| CatalogSafety.RetryProjectMatches | packages/database/src/conversation-service.ts:243-262 | A committed retry is acceptable exactly when its original is. |
| CatalogSafety.RunCatalog | packages/database/src/conversation-service.ts:152-200 | Every run keeps all references between rows and payloads, adds rows only, and never changes a pinned column. |
| OutboxSafety.QueuedHasExactlyOneRow | packages/database/src/outbox-service.ts:62-64 | A still queued execution has exactly one outbox row carrying it, under its own id. |
| OutboxSafety.EffectivelyOnce | apps/worker/src/worker-lease.ts:19-25 | With any number of dispatchers, crashes, recoveries and duplicate publishes, an execution goes QUEUED to STARTING at most once. |
| Delivery.RunPublishedDelivered | packages/database/src/outbox-service.ts:107-111 | In every run a PUBLISHED row's job has reached the queue. |
| Delivery.StartableIff | packages/database/src/outbox-service.ts:66-129 | In every reachable world a queued execution can still be started by some continuation if and only if its row is neither PUBLISHED nor DEAD_LETTER, or a dispatcher holds the row, or the queue can still deliver a job for it. |
| OutboxSafety.CancelledWhileQueuedNeverStarts | apps/web/app/api/conversations/[id]/executions/[executionId]/cancel/route.ts:36-50 | An execution cancelled while queued is started in no continuation. |
| CancelRoute.CancelTakesActive | apps/web/app/api/conversations/[id]/executions/[executionId]/cancel/route.ts:36-50 | The update takes exactly a QUEUED, STARTING or RUNNING execution, keeps its worker and lease, and leaves everything else alone. |
| CancelRoute.PurgeDeletesIff | apps/web/app/api/conversations/[id]/executions/[executionId]/cancel/route.ts:51-55 | In every reachable world the deletion removes the execution's own row exactly when it is PENDING or FAILED, and no other row. |
| CancelRoute.PublishableIff | packages/database/src/outbox-service.ts:66-104 | A dispatcher can still come to publish a job for an execution if and only if one holds its row, or the row is there and neither PUBLISHED nor DEAD_LETTER. |
| CancelRoute.PublishableAfterPurgeIff | apps/web/app/api/conversations/[id]/executions/[executionId]/cancel/route.ts:51-55 | In every reachable world, after the deletion: a job for the execution can still be published in some continuation if and only if its row was DISPATCHING or a dispatcher held it. |
| CancelRoute.TakeActive | apps/web/app/api/conversations/[id]/executions/[executionId]/cancel/route.ts:36-50 | The guarded update is the protocol's cancel step and reports whether it took the row. |
| CancelRoute.DeleteWaiting | apps/web/app/api/conversations/[id]/executions/[executionId]/cancel/route.ts:52-54 | The deletion is the protocol's step and leaves the row only when it is neither PENDING nor FAILED. |
| CancelRoute.CancelExecution | apps/web/app/api/conversations/[id]/executions/[executionId]/cancel/route.ts:30-66 | The whole route among other actors: it answers "cancelled" only for an execution that is CANCELLED, exactly when its own update took the row or the row was read as CANCELLED; when it took the row, no PENDING or FAILED row of the execution is left. |
| OutboxSafety.StepExclusiveIff | packages/database/src/outbox-service.ts:67-78 | Every step keeps "one dispatcher between claim and outcome, and its row is DISPATCHING", except exactly a recovery that resets a live dispatcher's row. |
| OutboxSafety.RecoveryExclusiveIff | packages/database/src/outbox-service.ts:67-70 | A recovery keeps mutual exclusion exactly when it meets no row whose dispatcher is still at work. |
| OutboxSafety.DispatchIsExclusive | packages/database/src/outbox-service.ts:87-132 | When recovery only meets crashed dispatchers: one dispatcher per row, its row is there for the update after the publish, and PUBLISHED and DEAD_LETTER rows never change. |
| OutboxSafety.SlowDispatcherIsOvertaken | packages/database/src/outbox-service.ts:66-70 | A reachable run in which recovery overtakes a slow dispatcher, whose late failure takes a PUBLISHED row back to FAILED. |
| Dispatcher.FindDue | packages/database/src/outbox-service.ts:95-99 | At most `limit` distinct due rows with the attempt counts read, and all of them when there are fewer. |
| Dispatcher.ClaimOutboxEvent | packages/database/src/outbox-service.ts:72-78 | The claim makes exactly the protocol's claim step and reports whether it took the row. |
| OutboxLaws.ClaimTakesIff | packages/database/src/outbox-service.ts:72-78 | A claim takes a row exactly when it is PENDING or FAILED and its time has come, and then the dispatcher holds the row's job. |
| OutboxLaws.RowAppears | packages/database/src/outbox-service.ts:62-64 | A row appears only with the submission of its execution, PENDING, with no attempts, and due at once. |
| OutboxLaws.AttemptsCountOutcomes | packages/database/src/outbox-service.ts:108-127 | In every run the attempts of a row are exactly the outcomes that were recorded on it. |
| OutboxLaws.MailAttempts | packages/database/src/outbox-service.ts:66-127 | No step but a recorded outcome moves a row's attempts or its next time, and none changes its job. |
| OutboxLaws.PublishIsRecorded | packages/database/src/outbox-service.ts:108-111 | A recorded publish leaves the row PUBLISHED with one attempt more, and every other row as it was. |
| OutboxLaws.RecoveryResetsOldClaims | packages/database/src/outbox-service.ts:66-70 | In every reachable world a recovery resets exactly the DISPATCHING rows whose last claim is older than the cutoff, and keeps the retry schedule of all. |
| OutboxLaws.NoSecondDelivery | packages/database/src/outbox-service.ts:107 | Once a job has had its attempt, no run makes it wait again, however often it is published, until the queue forgets it. |
| Dispatcher.MarkPublished | packages/database/src/outbox-service.ts:108-111 | The update after a publish makes exactly the protocol's step, or finds no row. |
| Dispatcher.MarkFailed | packages/database/src/outbox-service.ts:114-127 | The failure update makes exactly the protocol's step, which `Retries.FailureIsRecorded` characterises, and reports whether it was the last attempt. |
| Dispatcher.Deliver | packages/database/src/outbox-service.ts:106-129 | Publishing a claimed row, with others acting in between, ends in the recorded outcome it reports; it throws only if some recovery met a live dispatcher. |
| Dispatcher.DispatchPendingOutboxEvents | packages/database/src/outbox-service.ts:87-132 | A whole pass among interfering actors is a run of the protocol; its results are in the order read, each is what the pass recorded, a row is skipped exactly when the pass's own claim found it not claimable, and the pass throws only if some recovery met a live dispatcher. |
| Persistence.Database.AcquireProviderSession | packages/database/src/conversation-service.ts:121-134 | Reuses, retires or creates a provider session exactly as specified, and fails when the partial unique index would. |
| Persistence.Database.CreateHandoffCapsule | packages/database/src/conversation-service.ts:11-17 | Allocates the version from the conversation's own counter and appends the capsule. |
| Persistence.Database.InsertExecution | packages/database/src/conversation-service.ts:153-200 | Writes execution, routing decision, handoff and outbox row together. |
| Persistence.Database.QueueConversationMessage | packages/database/src/conversation-service.ts:92-204 | The imperative transaction commits exactly the specified world, and on an exception leaves the old one. |
| Persistence.Database.RetryConversationExecution | packages/database/src/conversation-service.ts:221-265 | The same for a retry. |
| Persistence.Database.ClaimAgentSession | apps/worker/src/worker-lease.ts:19-25 | The claim makes exactly the protocol's claim step. |
| Persistence.Database.RenewLease | apps/worker/src/worker-lease.ts:30-35 | A heartbeat makes exactly the protocol's heartbeat step. |
| Pinning.RequestedModelIsPinned | packages/database/src/conversation-service.ts:121-153 | In every later world an execution's requested model is the model its provider session was created with. |
| Pinning.StepNewestIff | apps/worker/src/conversation-worker.ts:566-569 | Every step keeps "only the newest session of a provider is RUNNING", except exactly a success finalizer that marks an older session RUNNING. |
| Pinning.RunNewestIff | packages/database/src/conversation-service.ts:118-134 | In a run the newest-only property holds all along exactly when no success finalizer revives an older session. |
| Pinning.RunOneRunning | packages/database/prisma/migrations/20260724000000_conversation_integrity/migration.sql:27-29 | Every run keeps at most one RUNNING provider session per conversation and provider. |
| Pinning.RevivedSessionBlocksSubmissions | packages/database/src/conversation-service.ts:128-134 | While the RUNNING session is not the newest one, every queue that is not a replay, and every retry with no active execution, throws. |
| Revival.RetiredSessionRevived | apps/worker/src/conversation-worker.ts:566-569 | A reachable run of ordinary steps that leaves a retired provider session RUNNING beside a newer failed one. |
| RetryModel.RetryKeepsModelIff | packages/database/src/conversation-service.ts:227-237 | A same-provider retry keeps the original model exactly when the original named one or no stored default names one now; the effort likewise. |
| RetryModel.RetrySwitchesModel | packages/database/src/conversation-service.ts:227-237 | A reachable run in which a same-provider retry runs under another model than its original. |
| Capability.SelectionIsRegistered | packages/database/src/conversation-service.ts:48-72 | Whatever is requested or stored, a resolved model is registered for the selected provider and no other, and an effort goes with a Codex model only. |
| ModelChoice.SelectionFollowsChain | packages/database/src/conversation-service.ts:48-72 | A selection is accepted exactly when it names the first non-empty of explicit model, project default and application default of that provider, says which it was, has the first effort that is set in the same order, and the provider can run both. |
| ModelChoice.QueuedRowFollowsChain | packages/database/src/conversation-service.ts:117-153 | The execution row of a committed queue has that model, effort and source. |
| ModelChoice.RetriedRowFollowsChain | packages/database/src/conversation-service.ts:227-243 | The row of a committed retry has them with the original's model and effort as the explicit ones, if the provider is the same, and with none otherwise. |
| Conservation.SubmissionsConserve | packages/database/src/conversation-service.ts:11-17 | In every reachable world an idempotency key names one message, a message and provider have one active execution, and handoff versions are exactly 1 to the counter, in order. |
| Conservation.ReplayCreatesNothing | packages/database/src/conversation-service.ts:102-112 | After a committed queue, any later submission of its key returns an execution of the same message, is marked a duplicate, and changes only the lock counter. |
| Handoffs.CapsuleIffSwitch | packages/database/src/conversation-service.ts:161-199 | A new queue leaves exactly one capsule, carried by its job, if it switches provider or model against the newest session, and none otherwise; the capsule names both ends and the next version. |
| Commits.QueueCommitsIff | packages/database/src/conversation-service.ts:92-204 | In every reachable world a queue commits if and only if the provider supports the mode, the conversation exists, and either the key is known there, or the model selection is accepted, no session of the provider runs that is not its newest, a given task exists, a switch's capsule fits, and a model switch has an earlier reply to refer to. |
| Commits.RetryCommitsIff | packages/database/src/conversation-service.ts:221-264 | In every reachable world a retry commits if and only if its execution exists in a retryable state, the provider supports the mode, and either the message has an active execution by it, or the selection is accepted, no session that is not the newest runs, and a switch's capsule fits; reading the model of a missing session, which would throw, is never reached. |
| SubmissionRows.QueueWrites | packages/database/src/conversation-service.ts:98-200 | A committed queue writes exactly: the message, a task if none was given, the counter, a QUEUED execution, its routing decision, a PENDING outbox row that names them all, and the session that is reused or started. |
| SubmissionRows.RetryWrites | packages/database/src/conversation-service.ts:238-262 | A committed retry writes the same but for message, task and counter, and takes message, task, project and conversation from its original. |
| SubmissionRows.RetryCapsuleIff | packages/database/src/conversation-service.ts:252-261 | In every reachable world a retry leaves one capsule, carried by its job, if it switches provider or model since the conversation's last reply, and none otherwise; the capsule names that reply's provider, the model of its newest session, and the next version. |
| Provenance.CapabilityProvenance | packages/shared/src/index.ts:91-115 | A Claude CONTINUE holds exactly the capability of the latest earlier non-CONTINUE Claude execution of its conversation, or READ_ONLY; every other execution holds its mode's. |
| Provenance.WriteTracesToImplement | packages/database/src/conversation-service.ts:141-145 | A WORKSPACE_WRITE execution is, or continues, an IMPLEMENT of the same provider in the same conversation. |
| Reaper.FindExpired | apps/worker/src/worker-lease.ts:62-74 | Exactly the rows in progress whose lease is missing or has run out, each once, with the process recorded on it. |
| Reaper.TryReap | apps/worker/src/worker-lease.ts:78-82 | The reclaim is the protocol's step; it takes effect exactly on a row in progress whose lease is missing or ended before the sweep's time, and otherwise changes nothing. |
| Reaper.TerminatesIff | apps/worker/src/worker-lease.ts:85-99 | Only a row that names a process by pid and identity is terminated: it is read once, and killed exactly if the reading matches. |
| Reaper.FailProviderSession | apps/worker/src/worker-lease.ts:111-116 | The status update is the protocol's step. |
| Reaper.CreateFailedReply | apps/worker/src/worker-lease.ts:118-131 | The reply is created once; a second one is refused by the unique key. |
| WorkerLaws.SweepFinishesLikeFailure | apps/worker/src/worker-lease.ts:78-131 | In every reachable world a sweep's three writes leave an expired execution exactly as a failure finalizer would. |
| Reaper.ThrowsIffUnconfirmed | apps/worker/src/worker-lease.ts:85-107 | The terminations of a sweep throw exactly when one of the rows it reclaims has a recorded process that is read to be the recorded one and then never to be gone. |
| Reaper.ReapExpiredAgentSessions | apps/worker/src/worker-lease.ts:61-134 | A sweep among interfering actors is a run of the protocol: it reclaims only rows that had expired when it began, terminates exactly their recorded processes in order, and has failed the session and left the reply of each; it returns their number after trying every expired row, or throws at the first unconfirmed termination, with that last row reclaimed and not recorded. |
| Replies.ReplyComesIff | apps/worker/src/worker-lease.ts:118-131 | In every reachable world a finished execution without a reply still gets one in some continuation if and only if the sweep that reclaimed it has not given it up. |
| Replies.AbandonedReplyIsLost | apps/worker/src/worker-lease.ts:94-99 | A sweep that throws after its reclaim: whatever others do meanwhile, and whatever anyone does later, the execution never gets a reply. |
| Lease.IntervalFitsIff | apps/worker/src/worker-lease.ts:29 | Three heartbeat intervals fit into the lease exactly when it is at least three seconds. |
| Lease.CoversIff | apps/worker/src/worker-lease.ts:28-37 | The latency of the claim, three intervals and the delay of a heartbeat fit into the lease exactly when it is at least three seconds and its remainder by three covers latency and delay. |
| Lease.NeverReaped | apps/worker/src/worker-lease.ts:28-37 | When they fit, no sweep in any run on a schedule with at most two consecutive missed heartbeats reaps the session. |
| Lease.TwoMissesAreSafeIff | apps/worker/src/conversation-worker.ts:399-405 | With the lease computed at the claim's clock reading and the timer started after the claim has returned, two consecutive misses are harmless in every run if and only if latency, three intervals and delay fit into the lease. |
| Lease.ClaimedLeaseIsSafeIff | apps/worker/src/worker-lease.ts:19-37 | An execution just claimed in a reachable world survives every run with at most two consecutive missed heartbeats if and only if the lease is at least three seconds and latency and delay are at most its remainder by three. |
| Lease.PromptOwnerIsSafeIff | apps/worker/src/worker-lease.ts:28-37 | With no latency and no delay, if and only if the lease is at least three seconds. |
| BackoffBounds.BaseAtMostMaxIff | packages/database/src/outbox-service.ts:30-38 | The resolved base is at most the resolved maximum exactly when a raw delay reaches one second. |
| BackoffBounds.DelayMonotone | packages/database/src/outbox-service.ts:41-45 | For a fixed jitter value a later attempt never waits less. |
| BackoffBounds.SaturatesAtMax | packages/database/src/outbox-service.ts:41-45 | The thirteenth attempt with full jitter waits the rounded maximum, for every policy. |
| BackoffBounds.DelayWithinBoundsIff | packages/database/src/outbox-service.ts:41-45 | Every delay lies in [1000, maxDelayMs] exactly when a raw delay reaches one second and rounding does not lift the maximum. |
| BackoffBounds.DelayDoubles | packages/database/src/outbox-service.ts:41-45 | Without jitter the n-th delay is the base times the (n-1)-th power of two, held within the bounds. |
| BackoffBounds.JitterSpreads | packages/database/src/outbox-service.ts:43 | Jitter moves a delay by at most its fraction to either side; 0, one half and 1 give the lower end, the middle and the upper end. |
| BackoffBounds.ResolveIdempotentIff | packages/database/src/outbox-service.ts:30-38 | A resolved policy lies in its documented ranges, and resolving it again changes nothing exactly when its base is at most its maximum. |
| BackoffBounds.ResolveMovesIntoRange | packages/database/src/outbox-service.ts:30-38 | Each override is moved to the nearest value of its range; the maximum is the larger of both raw delays, up to an hour. |
| Retries.DeadLetteredAfterExactlyMaxAttempts | packages/database/src/outbox-service.ts:106-128 | In passes that do not overlap, a pending event whose publishes all fail is published at most maxAttempts times, and is dead-lettered exactly when it has been. |
| Retries.FailureWaits | packages/database/src/outbox-service.ts:117-122 | After a failure the row is not due again for at least a second. |
| Retries.FailureIsRecorded | packages/database/src/outbox-service.ts:114-127 | A recorded failure of attempt n leaves one attempt more, DEAD_LETTER exactly when n reaches the limit, and a next time that lies the n-th wait ahead: the base doubled n-1 times and bounded when there is no jitter, and within the jitter's spread of it otherwise. |
| Retries.NthWaitBacks | packages/database/src/outbox-service.ts:114-122 | Along any passes the n-th failing publish of an event is followed by that n-th wait. |
| Retries.WaitsNeverShrink | packages/database/src/outbox-service.ts:114-122 | With the same jitter the waits recorded along any passes never shrink. |
| LineReader.IncrementalLineReader.PushChunk | packages/providers/src/stream-parser.ts:33-46 | The splitting loop leaves exactly the specified buffer and lines. |
| LineReader.IncrementalLineReader.EndOfStream | packages/providers/src/stream-parser.ts:49-54 | The end of the stream flushes exactly the remainder. |
| LineReader.FeedIsSplit | packages/providers/src/stream-parser.ts:30-55 | From any buffer, feeding the chunks of a text that fits yields the newline split of the whole. |
| LineReader.ChunkInvariantIffFits | packages/providers/src/stream-parser.ts:33-46 | All ways of cutting a text into chunks give the same lines if and only if its terminated lines are at most 65536 characters and its remainder at most 65537; then they are the newline split. |
| LineReader.PushIsBounded | packages/providers/src/stream-parser.ts:41-44 | For any input the buffer stays within 65536 characters and no line, cut or not, contains a newline. |
| StreamProtocol.StructuredStreamAccumulator.Record | packages/providers/src/stream-parser.ts:228-252 | Applying an event changes the snapshot exactly as the fold does. |
| StreamProtocol.StructuredStreamAccumulator.ConsumeReaderLine | packages/providers/src/stream-parser.ts:207-226 | A line changes the snapshot exactly by the events it returns, which `StreamRecords.LineDoes` characterises by the line's record. |
| StreamProtocol.TrimIs | packages/providers/src/stream-parser.ts:86-87 | Trimming takes exactly the spaces at both ends. |
| StreamRecords.LineDoes | packages/providers/src/stream-parser.ts:84-180 | What one line does to any snapshot, from its parsed record alone: verdict, tokens, session, model and text; a line that is cut or has no record changes diagnostics only. |
| StreamRecords.LastRecordDecides | packages/providers/src/stream-parser.ts:84-263 | The snapshot of a whole stream has the verdict and reason of the last deciding record, the tokens, session and model of the last record that reports one, and as its text Claude's last successful answer or all of Codex's messages. |
| StreamRecords.LastLineReports | packages/providers/src/stream-parser.ts:228-252 | Each part of a stream's report is that of the last line that reports it. |
| StreamRecords.LineLeavesNote | packages/providers/src/stream-parser.ts:84-226 | A line adds exactly one diagnostic when it is cut, unparseable, malformed, of an unknown kind or text in progress, and that one, and otherwise none. |
| StreamProtocol.SameEventsHoweverChunked | packages/providers/src/stream-parser.ts:207-263 | For a text that fits, events and snapshot do not depend on the chunks. |
| StreamProtocol.CodexTranscriptIsText | packages/providers/src/stream-parser.ts:84-116 | For Codex the standard-output events joined are the accumulated text, on every stream. |
| StreamProtocol.ClaudeTranscriptIsTextIff | packages/providers/src/stream-parser.ts:167-178 | For Claude they are if and only if the stream has at most one successful result. |
| EventQueue.SessionRecord.WakeWaiters | packages/providers/src/process-runner.ts:407 | Every waiter registered is woken, and the list is emptied. |
| EventQueue.SessionRecord.PushEvent | packages/providers/src/process-runner.ts:405-408 | Appends the event and wakes every waiter. |
| EventQueue.SessionRecord.Complete | packages/providers/src/process-runner.ts:463-464 | Completes the record and wakes every waiter. |
| EventQueue.SessionRecord.Cancel | packages/providers/src/process-runner.ts:523-530 | Cancelling completes the record and wakes every waiter. |
| EventQueue.SessionRecord.ResumeConsumer | packages/providers/src/process-runner.ts:513-521 | One uninterrupted stretch of a consumer: yield the next event, register a waiter, or return. |
| EventQueue.DeliveredInOrder | packages/providers/src/process-runner.ts:513-521 | In every interleaving each consumer has yielded a prefix of the pushed events, sleeps only when it has seen all of them and the record is open, and returns with all of them when nothing was cancelled. |
| EventQueue.CompleteRecordDrains | packages/providers/src/process-runner.ts:513-530 | Once the record is complete, a consumer that keeps running returns after yielding everything pushed. |
| Quoting.QuotePrefixFree | packages/database/src/conversation-service.ts:6 | A quoted string followed by anything determines both the string and what follows. |
| JsonText.TextPrefixFree | packages/database/src/conversation-service.ts:6 | Compact JSON text determines the value printed, for every pair of values. |
| JsonReader.EscapeReads | packages/database/src/conversation-service.ts:6 | Each escape reads back, by the grammar of JSON, as the character it stands for. |
| JsonReader.TextReads | packages/database/src/conversation-service.ts:6 | What is printed for a value, whatever follows it, reads back by the grammar of JSON as that value. |
| CanonicalJson.CanonicalPrints | packages/database/src/conversation-service.ts:6 | Canonical text is the plain text of the value with its fields sorted at every depth. |
| CanonicalJson.NormalKeepsMeaning | packages/database/src/conversation-service.ts:6 | Sorting the fields at every depth keeps the meaning of a value whose objects are unordered. |
| CanonicalJson.MeaningDeterminesNormal | packages/database/src/conversation-service.ts:6 | Values with the same meaning have the same sorted form. |
| CanonicalJson.CanonicalIffSameMeaning | packages/database/src/conversation-service.ts:6-7 | Canonical texts are equal if and only if the payloads are, objects being unordered at every depth. |
| CanonicalJson.CanonicalReadsBack | packages/database/src/conversation-service.ts:6 | Canonical text is JSON that reads back as the same payload, objects being unordered. |
| ReviewFindings.Collector.Visit | apps/worker/src/review-findings.ts:2 | The recursive visit terminates and appends exactly the findings of the value, in order. |
| ReviewFindings.Collector.VisitLines | apps/worker/src/review-findings.ts:2 | The loop over lines appends exactly the findings of the lines that parse. |
| ReviewFindings.KeepFirstOccurrences | apps/worker/src/review-findings.ts:2 | The final filter keeps exactly the items that stand at their first occurrence. |
| ReviewFindings.ParseReviewFindings | apps/worker/src/review-findings.ts:2 | The whole call returns the first occurrences of the findings of its output. |
| ReviewFindings.FoundIffReachable | apps/worker/src/review-findings.ts:2 | A visit records a finding if and only if a path of hops into items, properties and parsed lines leads to an object whose own string properties are its severity and title, and its body if it has one. |
| ReviewFindings.ResultIsExactlyTheReachable | apps/worker/src/review-findings.ts:2 | The result holds exactly the reachable findings, each once, in the order of first visit. |
| ReviewFindings.OwnFindingFirst | apps/worker/src/review-findings.ts:2 | An object's own finding comes before those within its properties. |
| ReviewFindings.ItemsInOrder | apps/worker/src/review-findings.ts:2 | The findings of a list are those of its first part and then those of the rest. |
| ReviewFindings.TextInOrder | apps/worker/src/review-findings.ts:2 | The findings of two stretches of lines are those of the first and then those of the second. |
| EvidenceGate.RunKeepsGate | packages/shared/src/index.ts:234-237 | Over every interleaving of capture and verify writes: linked evidence is accepted by its criterion, a passed criterion has successful evidence, a verified task satisfies `canVerify`; evidence is never lost and a pass never undone. |
| EvidenceGate.VerifiedTaskIsProved | apps/web/app/api/tasks/[id]/verify/route.ts:2 | In every reachable store each criterion of a verified task, and each passed criterion, has successful evidence that it accepts. |
| EvidenceGate.OnceSupportedAlwaysVerifiable | apps/web/app/api/tasks/[id]/verify/route.ts:2 | Once a task can be verified, a verify request succeeds after every further run, failed captures included. |
| EvidenceGate.CaptureSupportsIff | apps/worker/src/index.ts:27-38 | A capture, by the worker's own linking rule, supports exactly the criteria of its task that accept, by the shared rule, something it saw succeed. |
| EvidenceGate.RowsAreExact | apps/worker/src/index.ts:38 | One observation adds exactly one row for each criterion of the task that accepts it, in their order, with the observation's kind, command and success. |
| EvidenceGate.CaptureRowsAreExact | apps/worker/src/index.ts:30-38 | The rows of a capture are exactly those of its three readings of the repository and of its commands. |
| EvidenceGate.CaptureDecides | apps/worker/src/index.ts:41 | After a capture exactly the proved criteria of its task have passed besides those that had, and the task is TEST_FAILED when something failed, else READY_FOR_REVIEW when it has criteria and all are proved, else CODE_COMPLETE. |
| EvidenceGate.VerifyDecides | apps/web/app/api/tasks/[id]/verify/route.ts:2 | A verify request passes all criteria of a task whose every criterion has successful evidence and marks it verified, and otherwise does nothing. |
| EvidenceGate.CaptureIsRun | apps/worker/src/index.ts:28-42 | The result of a capture is where the run of its single writes ends. |
| EvidenceGate.Relay.RecordAll | apps/worker/src/index.ts:38 | One observation adds one row for each criterion of the task that accepts it. |
| EvidenceGate.Relay.CaptureEvidence | apps/worker/src/index.ts:28-42 | The loops over kinds, commands and criteria record exactly the specified rows, pass exactly the supported criteria, and judge the task by failures and support. |
| EvidenceGate.Relay.VerifyTask | apps/web/app/api/tasks/[id]/verify/route.ts:2 | Verifies exactly when every criterion has successful evidence, and changes nothing otherwise. |
| KillSafety.Machine.WaitForExit | apps/worker/src/owned-process.ts:30-36 | The polling loop reads until the first absence, at most the given number of times. |
| KillSafety.Machine.TerminateOwnedProcessTree | apps/worker/src/owned-process.ts:44-55 | The worker's termination leaves exactly the specified readings and signals, and result. |
| KillSafety.Machine.TerminateRecordedProcess | scripts/start-local.mjs:282-299 | The same for the launcher's graceful and forced termination. |
| KillSafety.OwnedTerminationIsSafe | apps/worker/src/owned-process.ts:44-55 | For every sequence of readings the worker kills exactly on a first reading that matches, right after it, reports an exit only after reading an absence, and throws exactly when twenty readings all find the process. |
| KillSafety.RecordedTerminationIsSafe | scripts/start-local.mjs:282-299 | For every sequence of readings each signal directly follows a reading of exactly the recorded identity, force is used exactly when the process outlived the graceful window and was read to be the same again, the call throws exactly when one of its signals does, and it leaves the exit unconfirmed exactly when the readings after the forced signal all find a process. |
| Launcher.AdoptedIffOnlyCandidate | scripts/start-local.mjs:83-97 | A process is adopted exactly when it is the only in-repository child not older than its recorded parent. |
| Launcher.Resolve | scripts/start-local.mjs:104-120 | Resolving a record reads and looks exactly as specified, taking the snapshot at most once. |
| Launcher.RemoveStaleRuntime | scripts/start-local.mjs:128-168 | The reconciliation leaves exactly the specified log and outcome, which `Launcher.ReconciliationIsSafe` characterises by the readings. |
| Launcher.ReconciliationIsSafe | scripts/start-local.mjs:128-168 | For every host: each signal directly follows a reading of the identity that the saved record names, or that the look, before any signal, confirmed for the one descendant it adopted; an ambiguous role means no signal and no write. While the first reading finds the launcher's pid under the saved identity, nothing is signalled or removed, and the metadata are rewritten exactly when a process was adopted; otherwise both terminations run, the worker's first, and the metadata are removed exactly when neither throws. |
| Launcher.LiveLauncherIsLeftAlone | scripts/start-local.mjs:131-158 | While the first reading finds the launcher there is no signal and no removal, ambiguous roles included. |
| Launcher.ResolutionIff | scripts/start-local.mjs:104-110 | A record is missing, live or ambiguous exactly as its pid, the first reading and the number of qualifying children say. |
| Launcher.CandidateIff | scripts/start-local.mjs:85-92 | A process qualifies exactly when it is the record's child, lies in the repository, and is not known to be older; ages compare lexicographically. |
| Launcher.AdoptionIff | scripts/start-local.mjs:104-120 | A pid is adopted under an identity exactly when, on Windows, the recorded pid is not read to be the recorded process, the pid is its only qualifying child, and the confirming read returns that identity, whatever the snapshot said of it. |

## Left out

- The task flow without a conversation and the queue's `failed` listeners: they write session state by id alone, so the absorption results would not hold of them.
- Diagnostic columns (`error`, `failureCode`, `endedAt`, termination columns) and session events: the later writes of `terminateRecordedProviderProcess`, and the sweep's writes around a termination, touch only those. A release does not clear the recorded process, and neither does the model.
- Retries.DeadLetteredAfterExactlyMaxAttempts: speaks of passes one after the other, because a pass that overlaps another can count its attempt from a stale read.
- The queue's own handling of stalled jobs: a job that waits may be delivered to several workers, which covers it.
- Rows written before the capability column existed: every execution here has a capability.
- WAITING_FOR_APPROVAL: no code that is modelled writes it.
- A fresh turn after a stale resumed session: it is the same stage of the model with the locals of the new turn.
- The project rows: a submission for a project that does not exist is not rejected here, and stored defaults are read as inputs of the transaction.
- Dispatcher.FindDue: does not model the order of the rows read, because no result depends on it.
- The size check of a handoff capsule is an input that says whether the payload fits; truncation of texts to their column bounds and redaction of stored messages are not modelled.
- The SHA-256 of the canonical text: equal texts have equal checksums, and nothing is claimed about collisions.
- Canonical JSON of values that JSON cannot express: `undefined` in an array prints as nothing, NaN prints as null, minus zero as zero; keys that `localeCompare` does not distinguish would keep their insertion order. Lone surrogates print as themselves.
- UTF-8 decoding of chunks, the redaction of standard error, and the classification of launch errors and stale sessions.
- Events that the runner pushes after its record is complete without a cancellation: the provider closes its streams before it completes the record.
- JavaScript numbers are `real` in the backoff and exact integers elsewhere; `maxAttempts` is an integer.
- Evidence rows without a criterion, exit codes and outputs of rows, locked-decision matching (its verdict is an input), and commands that throw.
- Processes with their command lines: whether one lies within the repository is an input; pids are integers.
- Pages, components, DTO mapping, CSRF and loopback checks, health monitors, provisioning and test scripts.
