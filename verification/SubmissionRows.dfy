/**
 Everything that a committed submission writes (packages/database/src/conversation-service.ts), row by row.
 */
module SubmissionRows {
  import opened Wrappers
  import opened Capability
  import opened Tables
  import opened Submission
  import opened Protocol
  import opened CatalogSafety
  import opened Pinning
  import opened Handoffs
  import opened Commits

  // ---------- the provider session ----------

  predicate NewestOf(c: Catalog, i: Id, conversationId: Id, providerId: string) {
    && i < |c.providerSessions| && SamePair(c.providerSessions[i], conversationId, providerId)
    && forall j :: i < j < |c.providerSessions| ==> !SamePair(c.providerSessions[j], conversationId, providerId)
  }

  /** The pair's newest session runs under the model. */
  predicate Reusable(w: World, i: Id, conversationId: Id, providerId: string, model: Option<string>) {
    && NewestOf(w.catalog, i, conversationId, providerId) && i < |w.runtime.sessionStatus|
    && w.runtime.sessionStatus[i] == SessionRunning && w.catalog.providerSessions[i].resolvedModel == model
  }

  /**
   The newest session is used again when it can be; otherwise a new one runs under the model, a newest one that ran
   is COMPLETED, and no other session changes.
   */
  ghost predicate UsesSession(w: World, w': World, e: Execution) {
    var c, c' := w.catalog, w'.catalog;
    var status, status' := w.runtime.sessionStatus, w'.runtime.sessionStatus;
    if exists i :: Reusable(w, i, e.conversationId, e.providerId, e.requestedModel) then
      && Reusable(w, e.providerSessionId, e.conversationId, e.providerId, e.requestedModel)
      && c'.providerSessions == c.providerSessions && status' == status
    else
      && e.providerSessionId == |c.providerSessions|
      && c'.providerSessions == c.providerSessions + [ProviderSession(e.conversationId, e.providerId, e.requestedModel)]
      && |status'| == |status| + 1 && status'[|status|] == SessionRunning
      && forall i :: 0 <= i < |status| ==>
           status'[i] == if NewestOf(c, i, e.conversationId, e.providerId) && status[i] == SessionRunning
                         then SessionCompleted else status[i]
  }

  lemma AcquireUses(w: World, w': World, e: Execution)
    requires Sized(w)
    requires var a := Acquire(w.catalog, w.runtime.sessionStatus, e.conversationId, e.providerId, e.requestedModel);
      && a.Some? && e.providerSessionId == a.value.id
      && w'.catalog.providerSessions == a.value.catalog.providerSessions && w'.runtime.sessionStatus == a.value.status
    ensures UsesSession(w, w', e)
  {
    var latest := LatestProviderSession(w.catalog, e.conversationId, e.providerId);
    assert latest.Some? ==> NewestOf(w.catalog, latest.value, e.conversationId, e.providerId);
    forall i | NewestOf(w.catalog, i, e.conversationId, e.providerId) ensures latest == Some(i) {
      assert latest.Some? && !(latest.value < i) && !(i < latest.value);
    }
  }

  // ---------- the rows of the execution ----------

  /** One execution, its QUEUED row, its routing decision, and a pending outbox row due at once that names them all. */
  ghost predicate EnlistsExecution(w: World, w': World, e: Execution, now: Time) {
    var c, c' := w.catalog, w'.catalog;
    var id := |c.executions|;
    && c'.executions == c.executions + [e]
    && w'.runtime.life == w.runtime.life + [Life(Queued, None, None)]
    && c'.routing == c.routing + [RoutingDecision(e.conversationId, e.userMessageId, e.providerId)]
    && id in w'.mail.outbox && w'.mail.outbox == w.mail.outbox[id := w'.mail.outbox[id]]
    && w'.mail.outbox[id] == OutboxRow(
         Job(id, e.taskId, e.conversationId, e.userMessageId, e.providerId, |c.routing|, e.providerSessionId,
             w'.mail.outbox[id].job.handoffCapsuleId),
         Pending, 0, now, now)
    && w'.mail.(outbox := w.mail.outbox) == w.mail
    && w'.runtime.(life := w.runtime.life, sessionStatus := w.runtime.sessionStatus) == w.runtime
  }

  /** A new message: its row, its task if none was given, its execution, and the conversation's message counter. */
  lemma QueueWrites(w: World, q: QueueInput)
    requires Sized(w) && Submitted(w, q)
    ensures var w' := QueueTx(w, q).value.world;
      var c, c' := w.catalog, w'.catalog;
      && QueueTx(w, q).value.executionId == |c.executions| < |c'.executions|
      && var e := c'.executions[|c.executions|];
      && e.projectId == q.projectId && e.providerId == q.providerId && e.conversationId == q.conversationId
      && e.userMessageId == |c.userMessages|
      && c'.userMessages == c.userMessages + [UserMessage(q.conversationId, q.mode, q.idempotencyKey)]
      && (q.taskId.Some? ==> e.taskId == q.taskId.value && c'.tasks == c.tasks)
      && (q.taskId.None? ==> e.taskId == |c.tasks| && c'.tasks == c.tasks + [Task(q.projectId)])
      && EnlistsExecution(w, w', e, q.now) && UsesSession(w, w', e)
      && |c'.conversations| == |c.conversations| && q.conversationId < |c.conversations|
      && forall i :: 0 <= i < |c.conversations| ==>
           && c'.conversations[i].projectId == c.conversations[i].projectId
           && c'.conversations[i].sequence == c.conversations[i].sequence + (if i == q.conversationId then 1 else 0)
  {
    QueueEnlists(w, q);
    QueueAcquires(w, q);
    AcquireUses(w, QueueTx(w, q).value.world, QueueTx(w, q).value.world.catalog.executions[|w.catalog.executions|]);
  }

  lemma QueueEnlists(w: World, q: QueueInput)
    requires Sized(w) && Submitted(w, q)
    ensures var w' := QueueTx(w, q).value.world;
      && |w.catalog.executions| < |w'.catalog.executions|
      && EnlistsExecution(w, w', w'.catalog.executions[|w.catalog.executions|], q.now)
  {
  }

  lemma QueueAcquires(w: World, q: QueueInput)
    requires Sized(w) && Submitted(w, q)
    ensures var w' := QueueTx(w, q).value.world;
      && |w.catalog.executions| < |w'.catalog.executions|
      && var e := w'.catalog.executions[|w.catalog.executions|];
      var a := Acquire(w.catalog, w.runtime.sessionStatus, q.conversationId, q.providerId, e.requestedModel);
      && a.Some? && e.providerSessionId == a.value.id
      && w'.catalog.providerSessions == a.value.catalog.providerSessions && w'.runtime.sessionStatus == a.value.status
  {
    AcquireIgnoresRest(w.catalog, QueueLocked(w.catalog, q), w.runtime.sessionStatus, q.conversationId, q.providerId,
      QueueSelection(q).value.model);
  }

  predicate Retried(w: World, r: RetryInput)
    requires Sized(w)
  {
    RetryTx(w, r).Some? && !RetryTx(w, r).value.duplicate && r.executionId < |w.catalog.executions|
  }

  /** A retry: one more execution of the same message, task, project and conversation; no message, no task. */
  lemma RetryWrites(w: World, r: RetryInput)
    requires Sized(w) && Retried(w, r)
    ensures var w' := RetryTx(w, r).value.world;
      var c, c' := w.catalog, w'.catalog;
      && RetryTx(w, r).value.executionId == |c.executions| < |c'.executions|
      && var e, original := c'.executions[|c.executions|], c.executions[r.executionId];
      && e.providerId == r.providerId
      && e.projectId == original.projectId && e.taskId == original.taskId
      && e.conversationId == original.conversationId && e.userMessageId == original.userMessageId
      && c'.userMessages == c.userMessages && c'.tasks == c.tasks
      && EnlistsExecution(w, w', e, r.now) && UsesSession(w, w', e)
      && |c'.conversations| == |c.conversations|
      && forall i :: 0 <= i < |c.conversations| ==>
           && c'.conversations[i].projectId == c.conversations[i].projectId
           && c'.conversations[i].sequence == c.conversations[i].sequence
  {
    RetryEnlists(w, r);
    RetryAcquires(w, r);
    AcquireUses(w, RetryTx(w, r).value.world, RetryTx(w, r).value.world.catalog.executions[|w.catalog.executions|]);
  }

  lemma RetryAcquires(w: World, r: RetryInput)
    requires Sized(w) && Retried(w, r)
    ensures var w' := RetryTx(w, r).value.world;
      && |w.catalog.executions| < |w'.catalog.executions|
      && var e := w'.catalog.executions[|w.catalog.executions|];
      var a := Acquire(w.catalog, w.runtime.sessionStatus, e.conversationId, e.providerId, e.requestedModel);
      && a.Some? && e.providerSessionId == a.value.id
      && w'.catalog.providerSessions == a.value.catalog.providerSessions && w'.runtime.sessionStatus == a.value.status
  {
  }

  lemma RetryEnlists(w: World, r: RetryInput)
    requires Sized(w) && Retried(w, r)
    ensures var w' := RetryTx(w, r).value.world;
      && |w.catalog.executions| < |w'.catalog.executions|
      && EnlistsExecution(w, w', w'.catalog.executions[|w.catalog.executions|], r.now)
  {
  }

  // ---------- a retry's capsule ----------

  /** The capsule names the provider of the conversation's last reply, and the model of that provider's newest session. */
  predicate RetryRecords(w: World, e: Execution, h: Handoff) {
    && h.conversationId == e.conversationId && h.toProviderId == e.providerId && h.toModel == e.requestedModel
    && LastAnsweredBy(w.runtime.replies, e.conversationId, h.fromProviderId)
    && LastModelWas(w.catalog, e.conversationId, h.fromProviderId, h.fromModel)
  }

  /** A retry leaves a capsule exactly when it switches provider or model since the last reply, in every reachable world. */
  lemma RetryCapsuleIff(run: seq<Step>, r: RetryInput)
    requires Retried(Exec(EMPTY, run), r)
    ensures var w := Exec(EMPTY, run);
      var w' := RetryTx(w, r).value.world;
      var id := |w.catalog.executions|;
      && id < |w'.catalog.executions| && id in w'.mail.outbox
      && var e := w'.catalog.executions[id];
      && e.conversationId < |w.catalog.conversations|
      && CarriesCapsule(w, w', e, w'.mail.outbox[id].job)
  {
    RunCatalog(EMPTY, run);
    RunRepliesLinked(EMPTY, run);
    RetryCapsule(Exec(EMPTY, run), r);
  }

  predicate CarriesCapsule(w: World, w': World, e: Execution, job: Job)
    requires e.conversationId < |w.catalog.conversations|
  {
    var n := |w.catalog.handoffs|;
    if RetrySwitches(w, e.conversationId, e.providerId, e.requestedModel)
    then
      && |w'.catalog.handoffs| == n + 1 && w'.catalog.handoffs[..n] == w.catalog.handoffs
      && RetryRecords(w, e, w'.catalog.handoffs[n])
      && w'.catalog.handoffs[n].version == w.catalog.conversations[e.conversationId].handoffSequence + 1
      && job.handoffCapsuleId == Some(n)
    else w'.catalog.handoffs == w.catalog.handoffs && job.handoffCapsuleId == None
  }

  /** Whoever gave the last reply has a session, and its newest one's model is the plan's. */
  lemma PlanRecords(w: World, original: Execution, providerId: string, model: Option<string>)
    requires CatalogInv(w) && RepliesLinked(w)
    ensures var plan := PlanRetryHandoff(w, original, providerId, model);
      && plan.Some?
      && (plan.value.Handover? <==> RetrySwitches(w, original.conversationId, providerId, model))
      && (plan.value.Handover? ==>
           && LastAnsweredBy(w.runtime.replies, original.conversationId, plan.value.fromProviderId)
           && LastModelWas(w.catalog, original.conversationId, plan.value.fromProviderId, plan.value.fromModel))
  {
    RetryPlansIff(w, original, providerId, model);
    var replies := w.runtime.replies;
    var prior := LatestReply(replies, original.conversationId);
    if prior.Some? {
      var from := replies[prior.value].providerId;
      LastReplyIs(replies, original.conversationId, from);
      LastModelIs(w.catalog, original.conversationId, from);
      assert ReplyLinked(w.catalog, replies[prior.value]);
      var e := w.catalog.executions[replies[prior.value].executionId];
      assert Linked(w.catalog, e);
      assert HasSession(w.catalog, original.conversationId, from);
    }
  }

  lemma RetryCapsule(w: World, r: RetryInput)
    requires CatalogInv(w) && RepliesLinked(w) && Retried(w, r)
    ensures var w' := RetryTx(w, r).value.world;
      var id := |w.catalog.executions|;
      && id < |w'.catalog.executions| && id in w'.mail.outbox
      && w'.catalog.executions[id].conversationId < |w.catalog.conversations|
      && CarriesCapsule(w, w', w'.catalog.executions[id], w'.mail.outbox[id].job)
  {
    var original := w.catalog.executions[r.executionId];
    PlanRecords(w, original, r.providerId, RetrySelection(original, r).value.model);
  }
}
