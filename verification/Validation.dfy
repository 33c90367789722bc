/**
 The consumer's cross-check of a job payload: `validateExecutionRelationships`
 and the loads before it (apps/worker/src/conversation-worker.ts).
 */
module Validation {
  import opened Wrappers
  import opened Capability
  import opened Tables

  datatype Mismatch =
    | SessionConversation | ConversationProject | SessionTask | TaskProject | MessageConversation
    | TriggerMessage | JobProvider | RoutingConversation | RoutingMessage | RoutingProvider
    | ProviderSessionConversation | ProviderSessionProvider | OwnProviderSession
    | HandoffConversation | HandoffProvider | UnsupportedMode

  /** `RowMissing` is the exception of a load that must find its row. */
  datatype Verdict = Accepted | Rejected(reason: Mismatch) | RowMissing

  predicate RowsExist(c: Catalog, job: Job) {
    && job.sessionId < |c.executions|
    && job.conversationId < |c.conversations|
    && job.messageId < |c.userMessages|
    && job.providerSessionId < |c.providerSessions|
    && job.routingDecisionId < |c.routing|
    && c.executions[job.sessionId].taskId < |c.tasks|
  }

  /** The checks in the order of the source; a capsule that is not found is not checked. */
  function Validate(c: Catalog, job: Job): Verdict {
    if !RowsExist(c, job) then RowMissing
    else
      var session := c.executions[job.sessionId];
      var conversation := c.conversations[job.conversationId];
      var message := c.userMessages[job.messageId];
      var routing := c.routing[job.routingDecisionId];
      var providerSession := c.providerSessions[job.providerSessionId];
      var capsule :=
        if job.handoffCapsuleId.Some? && job.handoffCapsuleId.value < |c.handoffs|
        then Some(c.handoffs[job.handoffCapsuleId.value]) else None;
      if session.conversationId != job.conversationId then Rejected(SessionConversation)
      else if conversation.projectId != session.projectId then Rejected(ConversationProject)
      else if session.taskId != job.taskId then Rejected(SessionTask)
      else if c.tasks[session.taskId].projectId != session.projectId then Rejected(TaskProject)
      else if message.conversationId != job.conversationId then Rejected(MessageConversation)
      else if session.userMessageId != job.messageId then Rejected(TriggerMessage)
      else if job.providerId != session.providerId then Rejected(JobProvider)
      else if routing.conversationId != job.conversationId then Rejected(RoutingConversation)
      else if routing.userMessageId != job.messageId then Rejected(RoutingMessage)
      else if routing.selectedProviderId != session.providerId then Rejected(RoutingProvider)
      else if providerSession.conversationId != job.conversationId then Rejected(ProviderSessionConversation)
      else if providerSession.providerId != session.providerId then Rejected(ProviderSessionProvider)
      else if session.providerSessionId != job.providerSessionId then Rejected(OwnProviderSession)
      else if capsule.Some? && capsule.value.conversationId != job.conversationId then Rejected(HandoffConversation)
      else if capsule.Some? && capsule.value.toProviderId != session.providerId then Rejected(HandoffProvider)
      else if ProviderModeCapability(session.providerId, message.mode).None? then Rejected(UnsupportedMode)
      else Accepted
  }

  /** What each rejection says of the loaded rows. */
  predicate Violates(c: Catalog, job: Job, mismatch: Mismatch)
    requires RowsExist(c, job)
  {
    var session, message := c.executions[job.sessionId], c.userMessages[job.messageId];
    var routing, providerSession := c.routing[job.routingDecisionId], c.providerSessions[job.providerSessionId];
    var capsule := job.handoffCapsuleId.Some? && job.handoffCapsuleId.value < |c.handoffs|;
    match mismatch
    case SessionConversation => session.conversationId != job.conversationId
    case ConversationProject => c.conversations[job.conversationId].projectId != session.projectId
    case SessionTask => session.taskId != job.taskId
    case TaskProject => c.tasks[session.taskId].projectId != session.projectId
    case MessageConversation => message.conversationId != job.conversationId
    case TriggerMessage => session.userMessageId != job.messageId
    case JobProvider => job.providerId != session.providerId
    case RoutingConversation => routing.conversationId != job.conversationId
    case RoutingMessage => routing.userMessageId != job.messageId
    case RoutingProvider => routing.selectedProviderId != session.providerId
    case ProviderSessionConversation => providerSession.conversationId != job.conversationId
    case ProviderSessionProvider => providerSession.providerId != session.providerId
    case OwnProviderSession => session.providerSessionId != job.providerSessionId
    case HandoffConversation => capsule && c.handoffs[job.handoffCapsuleId.value].conversationId != job.conversationId
    case HandoffProvider => capsule && c.handoffs[job.handoffCapsuleId.value].toProviderId != session.providerId
    case UnsupportedMode => ProviderModeCapability(session.providerId, message.mode).None?
  }

  /** The order of the checks. */
  function Rank(mismatch: Mismatch): nat {
    match mismatch
    case SessionConversation => 0
    case ConversationProject => 1
    case SessionTask => 2
    case TaskProject => 3
    case MessageConversation => 4
    case TriggerMessage => 5
    case JobProvider => 6
    case RoutingConversation => 7
    case RoutingMessage => 8
    case RoutingProvider => 9
    case ProviderSessionConversation => 10
    case ProviderSessionProvider => 11
    case OwnProviderSession => 12
    case HandoffConversation => 13
    case HandoffProvider => 14
    case UnsupportedMode => 15
  }

  /** The first mismatch that there is. */
  ghost predicate FirstViolation(c: Catalog, job: Job, mismatch: Mismatch)
    requires RowsExist(c, job)
  {
    Violates(c, job, mismatch) && forall other :: Rank(other) < Rank(mismatch) ==> !Violates(c, job, other)
  }

  lemma RejectionIsFirst(c: Catalog, job: Job)
    requires RowsExist(c, job)
    ensures Validate(c, job) == Accepted ==> forall other :: !Violates(c, job, other)
    ensures Validate(c, job).Rejected? ==> FirstViolation(c, job, Validate(c, job).reason)
    ensures Validate(c, job) != RowMissing
  {
  }

  lemma OnlyOneIsFirst(c: Catalog, job: Job, a: Mismatch, b: Mismatch)
    requires RowsExist(c, job) && FirstViolation(c, job, a) && FirstViolation(c, job, b)
    ensures a == b
  {
    assert Rank(a) == Rank(b);
  }

  /** A rejection names exactly the first mismatch in the order of the checks; without one the job is accepted. */
  lemma RejectionNamesFirstMismatch(c: Catalog, job: Job, mismatch: Mismatch)
    requires RowsExist(c, job)
    ensures Validate(c, job) == Rejected(mismatch) <==> FirstViolation(c, job, mismatch)
    ensures Validate(c, job) == Accepted <==> forall other :: !Violates(c, job, other)
  {
    RejectionIsFirst(c, job);
    if FirstViolation(c, job, mismatch) {
      OnlyOneIsFirst(c, job, mismatch, Validate(c, job).reason);
    }
  }
}
