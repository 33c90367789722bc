/**
 The two submitting transactions (packages/database/src/conversation-service.ts):
 `queueConversationMessage` and `retryConversationExecution`. A transaction is a
 function of the committed world; `None` is an exception, which rolls it back.
 */
module Submission {
  import opened Wrappers
  import opened Capability
  import opened Tables

  datatype PreviousReply = PreviousReply(id: Id, providerId: Option<string>)

  datatype QueueInput = QueueInput(
    conversationId: Id,
    projectId: Id,
    mode: Mode,
    taskId: Option<Id>,
    providerId: string,
    requestedModel: Option<string>,
    requestedEffort: Option<string>,
    previousReply: Option<PreviousReply>,
    idempotencyKey: string,
    /** Read inside the transaction: the stored defaults, the database clock. */
    defaults: Defaults,
    now: Time,
    /** Whether the canonical handoff payload is within its byte bound. */
    handoffFits: bool)

  datatype RetryInput = RetryInput(executionId: Id, providerId: string, defaults: Defaults, now: Time, handoffFits: bool)

  datatype Committed = Committed(world: World, executionId: Id, duplicate: bool)

  datatype Acquired = Acquired(catalog: Catalog, status: seq<SessionStatus>, id: Id)

  /**
   Reuses the newest provider session of the pair when it is RUNNING under the same
   model; otherwise retires it if RUNNING and creates another, which the partial
   unique index forbids while some other session of the pair is RUNNING.
   */
  function Acquire(c: Catalog, status: seq<SessionStatus>, conversationId: Id, providerId: string, model: Option<string>)
    : (r: Option<Acquired>)
    requires |status| == |c.providerSessions|
    ensures r.Some? ==> |r.value.status| == |r.value.catalog.providerSessions|
    ensures r.Some? ==> r.value.catalog == c.(providerSessions := r.value.catalog.providerSessions)
  {
    var latest := LatestProviderSession(c, conversationId, providerId);
    if latest.Some? && status[latest.value] == SessionRunning && c.providerSessions[latest.value].resolvedModel == model then
      Some(Acquired(c, status, latest.value))
    else
      var retired :=
        if latest.Some? && status[latest.value] == SessionRunning then status[latest.value := SessionCompleted] else status;
      if OtherRunning(c, retired, conversationId, providerId, -1) then None
      else
        Some(Acquired(
          c.(providerSessions := c.providerSessions + [ProviderSession(conversationId, providerId, model)]),
          retired + [SessionRunning],
          |c.providerSessions|))
  }

  /** What the submission decided about a handoff capsule. */
  datatype HandoffPlan = NoHandoff | Handover(fromProviderId: string, fromModel: Option<string>)

  /** Allocates the version by incrementing the conversation's own counter. */
  function AddHandoff(c: Catalog, conversationId: Id, plan: HandoffPlan, toProviderId: string, toModel: Option<string>): Catalog
    requires conversationId < |c.conversations|
  {
    match plan
    case NoHandoff => c
    case Handover(fromProviderId, fromModel) =>
      var conversation := c.conversations[conversationId];
      var version := conversation.handoffSequence + 1;
      c.(conversations := c.conversations[conversationId := conversation.(handoffSequence := version)],
         handoffs := c.handoffs + [Handoff(conversationId, fromProviderId, toProviderId, fromModel, toModel, version)])
  }

  /** The rows both transactions write once everything is resolved: execution, routing, handoff and outbox row. */
  function Enlist(w: World, a: Acquired, execution: Execution, plan: HandoffPlan, now: Time): Option<World>
    requires execution.conversationId < |a.catalog.conversations|
  {
    var id := |a.catalog.executions|;
    var routed := a.catalog.(
      executions := a.catalog.executions + [execution],
      routing := a.catalog.routing + [RoutingDecision(execution.conversationId, execution.userMessageId, execution.providerId)]);
    var catalog := AddHandoff(routed, execution.conversationId, plan, execution.providerId, execution.requestedModel);
    var job := Job(
      id,
      execution.taskId,
      execution.conversationId,
      execution.userMessageId,
      execution.providerId,
      |a.catalog.routing|,
      execution.providerSessionId,
      if plan.NoHandoff? then None else Some(|a.catalog.handoffs|));
    if id in w.mail.outbox then None
    else
      Some(World(
        catalog,
        w.runtime.(life := w.runtime.life + [QUEUED], sessionStatus := a.status),
        w.mail.(outbox := w.mail.outbox[id := OutboxRow(job, Pending, 0, now, now)])))
  }

  /** The capability of the newest execution of this provider in this conversation. */
  function Continued(c: Catalog, conversationId: Id, providerId: string, mode: Mode): Option<ExecutionCapability> {
    if mode != Continue then None
    else
      var latest := LatestExecution(c, conversationId, providerId);
      if latest.None? then None else Some(c.executions[latest.value].capability)
  }

  function LatestModel(c: Catalog, conversationId: Id, providerId: string): Option<string> {
    var latest := LatestProviderSession(c, conversationId, providerId);
    if latest.None? then None else c.providerSessions[latest.value].resolvedModel
  }

  /** `None` is the exception of reading the id of a previous message that is not there. */
  function PlanQueueHandoff(c: Catalog, q: QueueInput, model: Option<string>): Option<HandoffPlan> {
    var previousProvider := if q.previousReply.None? then None else q.previousReply.value.providerId;
    var latest := LatestProviderSession(c, q.conversationId, q.providerId);
    if Truthy(previousProvider) && previousProvider.value != q.providerId then
      Some(Handover(previousProvider.value, LatestModel(c, q.conversationId, previousProvider.value)))
    else if latest.Some? && c.providerSessions[latest.value].resolvedModel != model then
      if q.previousReply.None? then None
      else
        Some(Handover(
          if previousProvider.Some? then previousProvider.value else q.providerId,
          c.providerSessions[latest.value].resolvedModel))
    else
      Some(NoHandoff)
  }

  predicate Sized(w: World) {
    |w.runtime.sessionStatus| == |w.catalog.providerSessions| && |w.runtime.life| == |w.catalog.executions|
  }

  function QueueTx(w: World, q: QueueInput): (committed: Option<Committed>)
    requires Sized(w)
    ensures committed.Some? ==> Sized(committed.value.world)
  {
    if ProviderModeCapability(q.providerId, q.mode).None? || q.conversationId >= |w.catalog.conversations| then None
    else
      var conversation := w.catalog.conversations[q.conversationId];
      var locked := w.catalog.(conversations :=
        w.catalog.conversations[q.conversationId := conversation.(sequence := conversation.sequence + 1)]);
      var existing := FindMessage(locked, q.conversationId, q.idempotencyKey);
      if existing.Some? then
        var execution := ExecutionOf(locked, existing.value);
        if execution.None? then None
        else Some(Committed(w.(catalog := locked), execution.value, true))
      else
        QueueNew(w.(catalog := locked), q)
  }

  /** The part of `queueConversationMessage` after the idempotency check. */
  function QueueNew(w: World, q: QueueInput): (committed: Option<Committed>)
    requires Sized(w) && q.conversationId < |w.catalog.conversations|
    ensures committed.Some? ==> Sized(committed.value.world)
  {
    var selection := ResolveModelSelection(q.providerId, q.defaults, q.requestedModel, q.requestedEffort);
    if selection.None? then None
    else
      var model := selection.value.model;
      var acquired := Acquire(w.catalog, w.runtime.sessionStatus, q.conversationId, q.providerId, model);
      var capability := ResolveExecutionCapability(
        q.providerId, q.mode, Continued(w.catalog, q.conversationId, q.providerId, q.mode));
      var plan := PlanQueueHandoff(w.catalog, q, model);
      if acquired.None? || capability.None? || plan.None? || (plan.value != NoHandoff && !q.handoffFits) then None
      else if q.taskId.Some? && q.taskId.value >= |w.catalog.tasks| then None
      else
        var c := acquired.value.catalog;
        var messageId := |c.userMessages|;
        var written := c.(
          tasks := if q.taskId.Some? then c.tasks else c.tasks + [Task(q.projectId)],
          userMessages := c.userMessages + [UserMessage(q.conversationId, q.mode, q.idempotencyKey)]);
        var execution := Execution(
          q.projectId,
          if q.taskId.Some? then q.taskId.value else |c.tasks|,
          q.providerId,
          q.conversationId,
          acquired.value.id,
          messageId,
          capability.value,
          model,
          selection.value.reasoningEffort,
          selection.value.modelSource);
        var enlisted := Enlist(w, acquired.value.(catalog := written), execution, plan.value, q.now);
        if enlisted.None? then None else Some(Committed(enlisted.value, |c.executions|, false))
  }

  predicate Retryable(s: State) {
    s == Failed || s == TimedOut || s == Cancelled
  }

  function PlanRetryHandoff(w: World, original: Execution, providerId: string, model: Option<string>): Option<HandoffPlan> {
    var prior := LatestReply(w.runtime.replies, original.conversationId);
    var latest := LatestProviderSession(w.catalog, original.conversationId, providerId);
    if prior.None? || w.runtime.replies[prior.value].providerId == "" then Some(NoHandoff)
    else
      var from := w.runtime.replies[prior.value].providerId;
      if from != providerId then
        Some(Handover(from, LatestModel(w.catalog, original.conversationId, from)))
      else if latest.None? then
        // an absent session's model is `undefined`, so the model counts as changed and reading it throws
        None
      else if w.catalog.providerSessions[latest.value].resolvedModel != model then
        Some(Handover(from, w.catalog.providerSessions[latest.value].resolvedModel))
      else
        Some(NoHandoff)
  }

  function RetryTx(w: World, r: RetryInput): (committed: Option<Committed>)
    requires Sized(w)
    ensures committed.Some? ==> Sized(committed.value.world)
  {
    if r.executionId >= |w.catalog.executions| then None
    else
      var original := w.catalog.executions[r.executionId];
      if original.userMessageId >= |w.catalog.userMessages| || original.conversationId >= |w.catalog.conversations| then None
      else
        var mode := w.catalog.userMessages[original.userMessageId].mode;
        if !Retryable(w.runtime.life[r.executionId].state) || ProviderModeCapability(r.providerId, mode).None? then None
        else
          var active := FindActive(w.catalog, w.runtime.life, original.userMessageId, r.providerId);
          if active.Some? then Some(Committed(w, active.value, true))
          else RetryNew(w, r, original, mode)
  }

  /** The part of `retryConversationExecution` after the search for an active execution. */
  function RetryNew(w: World, r: RetryInput, original: Execution, mode: Mode): (committed: Option<Committed>)
    requires Sized(w) && original.conversationId < |w.catalog.conversations|
    ensures committed.Some? ==> Sized(committed.value.world)
  {
    var same := r.providerId == original.providerId;
    var selection := ResolveModelSelection(
      r.providerId,
      r.defaults,
      if same then original.requestedModel else None,
      if same then original.reasoningEffort else None);
    if selection.None? then None
    else
      var model := selection.value.model;
      var acquired := Acquire(w.catalog, w.runtime.sessionStatus, original.conversationId, r.providerId, model);
      var capability := ResolveExecutionCapability(
        r.providerId, mode, Continued(w.catalog, original.conversationId, r.providerId, mode));
      var plan := PlanRetryHandoff(w, original, r.providerId, model);
      if acquired.None? || capability.None? || plan.None? || (plan.value != NoHandoff && !r.handoffFits) then None
      else
        var execution := Execution(
          original.projectId,
          original.taskId,
          r.providerId,
          original.conversationId,
          acquired.value.id,
          original.userMessageId,
          capability.value,
          model,
          selection.value.reasoningEffort,
          selection.value.modelSource);
        var enlisted := Enlist(w, acquired.value, execution, plan.value, r.now);
        if enlisted.None? then None else Some(Committed(enlisted.value, |w.catalog.executions|, false))
  }
}
