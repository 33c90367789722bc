/**
 What every run keeps about the rows that submissions create: references hold, rows
 keep their pinned columns, and every job payload refers to rows that belong together.
 */
module CatalogSafety {
  import opened Wrappers
  import opened Capability
  import opened Tables
  import opened Submission
  import opened Validation
  import opened Protocol

  /** An execution's own references, and the model it shares with its provider session. */
  predicate Linked(c: Catalog, e: Execution) {
    && e.conversationId < |c.conversations|
    && e.taskId < |c.tasks|
    && e.providerSessionId < |c.providerSessions|
    && e.userMessageId < |c.userMessages|
    && SamePair(c.providerSessions[e.providerSessionId], e.conversationId, e.providerId)
    && c.providerSessions[e.providerSessionId].resolvedModel == e.requestedModel
    && c.userMessages[e.userMessageId].conversationId == e.conversationId
    && ProviderModeCapability(e.providerId, c.userMessages[e.userMessageId].mode).Some?
  }

  /** A payload names its execution's own rows, and a routing decision and capsule made for it. */
  predicate JobLinked(c: Catalog, job: Job) {
    && job.sessionId < |c.executions|
    && job.routingDecisionId < |c.routing|
    && var e := c.executions[job.sessionId];
    && job == Job(job.sessionId, e.taskId, e.conversationId, e.userMessageId, e.providerId,
                  job.routingDecisionId, e.providerSessionId, job.handoffCapsuleId)
    && c.routing[job.routingDecisionId] == RoutingDecision(e.conversationId, e.userMessageId, e.providerId)
    && (job.handoffCapsuleId.Some? ==>
      && job.handoffCapsuleId.value < |c.handoffs|
      && c.handoffs[job.handoffCapsuleId.value].conversationId == e.conversationId
      && c.handoffs[job.handoffCapsuleId.value].toProviderId == e.providerId)
  }

  ghost predicate AllLinked(c: Catalog) {
    forall i :: 0 <= i < |c.executions| ==> Linked(c, c.executions[i])
  }

  ghost predicate MailLinked(c: Catalog, m: Mail) {
    && (forall id :: id in m.outbox ==> m.outbox[id].job.sessionId == id && JobLinked(c, m.outbox[id].job))
    && (forall job :: job in m.jobs ==> JobLinked(c, job))
    && m.waiting <= m.jobs
    && (forall d :: d in m.inFlight ==> d.job.sessionId == d.jobId && JobLinked(c, d.job))
  }

  ghost predicate CatalogInv(w: World) {
    Sized(w) && AllLinked(w.catalog) && MailLinked(w.catalog, w.mail)
  }

  lemma ExtendsLinked(c: Catalog, c': Catalog)
    requires Extends(c, c')
    ensures forall e :: Linked(c, e) ==> Linked(c', e)
    ensures forall job :: JobLinked(c, job) ==> JobLinked(c', job)
  {
  }

  /** A committed submission only extends the catalog, and what it adds is linked. */
  ghost predicate GoodSubmission(w: World, w': World) {
    && Extends(w.catalog, w'.catalog)
    && ((w'.catalog.executions == w.catalog.executions && w'.mail == w.mail)
      || (|w'.catalog.executions| == |w.catalog.executions| + 1
        && Linked(w'.catalog, w'.catalog.executions[|w.catalog.executions|])
        && |w.catalog.executions| in w'.mail.outbox && |w.catalog.executions| !in w.mail.outbox
        && w'.mail.outbox[|w.catalog.executions|].status == Pending
        && w'.mail == w.mail.(outbox := w.mail.outbox[|w.catalog.executions| := w'.mail.outbox[|w.catalog.executions|]])
        && w'.mail.outbox[|w.catalog.executions|].job.sessionId == |w.catalog.executions|
        && JobLinked(w'.catalog, w'.mail.outbox[|w.catalog.executions|].job)))
  }

  lemma EnlistGood(w: World, a: Acquired, execution: Execution, plan: HandoffPlan, now: Time)
    requires Extends(w.catalog, a.catalog) && a.catalog.executions == w.catalog.executions
    requires Linked(a.catalog, execution)
    ensures Enlist(w, a, execution, plan, now).Some? ==> GoodSubmission(w, Enlist(w, a, execution, plan, now).value)
  {
  }

  lemma QueueGood(w: World, q: QueueInput)
    requires Sized(w)
    ensures QueueTx(w, q).Some? ==> GoodSubmission(w, QueueTx(w, q).value.world)
  {
    if QueueTx(w, q).Some? && !QueueTx(w, q).value.duplicate {
      var conversation := w.catalog.conversations[q.conversationId];
      var locked := w.(catalog := w.catalog.(conversations :=
        w.catalog.conversations[q.conversationId := conversation.(sequence := conversation.sequence + 1)]));
      assert QueueTx(w, q) == QueueNew(locked, q);
      QueueNewGood(locked, q);
      UnlockGood(w, locked, QueueNew(locked, q).value.world);
    }
  }

  /** The conversation's message counter is not part of what a submission has to keep. */
  lemma UnlockGood(w: World, locked: World, w': World)
    requires Sized(w) && Extends(w.catalog, locked.catalog) && Extends(locked.catalog, w.catalog)
    requires locked == w.(catalog := w.catalog.(conversations := locked.catalog.conversations))
    requires GoodSubmission(locked, w')
    ensures GoodSubmission(w, w')
  {
  }

  lemma QueueNewGood(w: World, q: QueueInput)
    requires Sized(w) && q.conversationId < |w.catalog.conversations|
    requires ProviderModeCapability(q.providerId, q.mode).Some? && QueueNew(w, q).Some?
    ensures GoodSubmission(w, QueueNew(w, q).value.world)
  {
    var selection := ResolveModelSelection(q.providerId, q.defaults, q.requestedModel, q.requestedEffort).value;
    var a := Acquire(w.catalog, w.runtime.sessionStatus, q.conversationId, q.providerId, selection.model).value;
    var c := a.catalog;
    var written := c.(
      tasks := if q.taskId.Some? then c.tasks else c.tasks + [Task(q.projectId)],
      userMessages := c.userMessages + [UserMessage(q.conversationId, q.mode, q.idempotencyKey)]);
    var execution := Execution(
      q.projectId,
      if q.taskId.Some? then q.taskId.value else |c.tasks|,
      q.providerId,
      q.conversationId,
      a.id,
      |c.userMessages|,
      ResolveExecutionCapability(q.providerId, q.mode, Continued(w.catalog, q.conversationId, q.providerId, q.mode)).value,
      selection.model,
      selection.reasoningEffort,
      selection.modelSource);
    AcquireLinks(w.catalog, w.runtime.sessionStatus, q.conversationId, q.providerId, selection.model);
    EnlistGood(w, a.(catalog := written), execution, PlanQueueHandoff(w.catalog, q, selection.model).value, q.now);
  }

  lemma RetryGood(w: World, r: RetryInput)
    requires Sized(w) && AllLinked(w.catalog)
    ensures RetryTx(w, r).Some? ==> GoodSubmission(w, RetryTx(w, r).value.world)
  {
    if r.executionId < |w.catalog.executions| && RetryTx(w, r).Some? && !RetryTx(w, r).value.duplicate {
      var original := w.catalog.executions[r.executionId];
      assert Linked(w.catalog, original);
      RetryNewGood(w, r, original, w.catalog.userMessages[original.userMessageId].mode);
    }
  }

  lemma RetryNewGood(w: World, r: RetryInput, original: Execution, mode: Mode)
    requires Sized(w) && Linked(w.catalog, original) && mode == w.catalog.userMessages[original.userMessageId].mode
    requires ProviderModeCapability(r.providerId, mode).Some? && RetryNew(w, r, original, mode).Some?
    ensures GoodSubmission(w, RetryNew(w, r, original, mode).value.world)
  {
    var same := r.providerId == original.providerId;
    var selection := ResolveModelSelection(
      r.providerId, r.defaults, if same then original.requestedModel else None,
      if same then original.reasoningEffort else None).value;
    var a := Acquire(
      w.catalog, w.runtime.sessionStatus, original.conversationId, r.providerId, selection.model).value;
    var capability := ResolveExecutionCapability(
      r.providerId, mode, Continued(w.catalog, original.conversationId, r.providerId, mode)).value;
    var execution := Execution(
      original.projectId, original.taskId, r.providerId, original.conversationId, a.id, original.userMessageId,
      capability, selection.model, selection.reasoningEffort, selection.modelSource);
    AcquireLinks(w.catalog, w.runtime.sessionStatus, original.conversationId, r.providerId, selection.model);
    EnlistGood(w, a, execution, PlanRetryHandoff(w, original, r.providerId, selection.model).value, r.now);
  }

  lemma AcquireLinks(c: Catalog, status: seq<SessionStatus>, conversationId: Id, providerId: string, model: Option<string>)
    requires |status| == |c.providerSessions|
    ensures var a := Acquire(c, status, conversationId, providerId, model);
      a.Some? ==>
        && Extends(c, a.value.catalog) && a.value.id < |a.value.catalog.providerSessions|
        && a.value.catalog.providerSessions[a.value.id] == ProviderSession(conversationId, providerId, model)
  {
  }

  lemma SubmissionInv(w: World, w': World)
    requires CatalogInv(w) && Sized(w') && GoodSubmission(w, w')
    ensures CatalogInv(w')
  {
    ExtendsLinked(w.catalog, w'.catalog);
    forall i | 0 <= i < |w'.catalog.executions| ensures Linked(w'.catalog, w'.catalog.executions[i]) {
      if i < |w.catalog.executions| { assert Linked(w.catalog, w.catalog.executions[i]); }
    }
  }

  /** Every step keeps the links and only adds rows. */
  lemma StepCatalog(w: World, s: Step)
    requires CatalogInv(w)
    ensures CatalogInv(Apply(w, s)) && Extends(w.catalog, Apply(w, s).catalog)
  {
    if s.Queue? || s.Retry? {
      SubmissionCatalog(w, s);
    } else if s.CreateConversation? || s.CreateTask? {
      SubmissionInv(w, Apply(w, s));
    } else {
      MailStays(w, s);
      MailKeepsLinks(w, Apply(w, s));
    }
  }

  lemma SubmissionCatalog(w: World, s: Step)
    requires CatalogInv(w) && (s.Queue? || s.Retry?)
    ensures CatalogInv(Apply(w, s)) && Extends(w.catalog, Apply(w, s).catalog)
  {
    match s
    case Queue(q) =>
      assert Apply(w, s) == Commit(w, QueueTx(w, q));
      QueueGood(w, q);
      if QueueTx(w, q).Some? { SubmissionInv(w, QueueTx(w, q).value.world); }
    case Retry(r) =>
      assert Apply(w, s) == Commit(w, RetryTx(w, r));
      RetryGood(w, r);
      if RetryTx(w, r).Some? { SubmissionInv(w, RetryTx(w, r).value.world); }
  }

  /** No row is created, and outbox rows, jobs and dispatches carry payloads that were there before. */
  ghost predicate MailFrom(m: Mail, m': Mail) {
    && (forall id :: id in m'.outbox ==> id in m.outbox && m'.outbox[id].job == m.outbox[id].job)
    && (forall job :: job in m'.jobs ==> job in m.jobs || exists d :: d in m.inFlight && d.job == job)
    && (m.waiting <= m.jobs ==> m'.waiting <= m'.jobs)
    && (forall d :: d in m'.inFlight ==>
         d in m.inFlight || (d.jobId in m.outbox && d.job == m.outbox[d.jobId].job))
  }

  lemma MailStays(w: World, s: Step)
    requires Sized(w) && !s.Queue? && !s.Retry? && !s.CreateConversation? && !s.CreateTask?
    ensures Apply(w, s).catalog == w.catalog && MailFrom(w.mail, Apply(w, s).mail)
  {
    if DispatchesOrDelivers(s) {
      OutboxStays(w, s);
    } else {
      OtherwiseStays(w, s);
    }
  }

  predicate DispatchesOrDelivers(s: Step) {
    || s.PurgeOutbox? || s.ClaimRow? || s.Publish? || s.RecordPublished? || s.RecordFailure? || s.DispatcherCrash?
    || s.Recover? || s.SpendJob? || s.TrimJob?
  }

  lemma OutboxStays(w: World, s: Step)
    requires Sized(w) && DispatchesOrDelivers(s)
    ensures Apply(w, s).catalog == w.catalog && MailFrom(w.mail, Apply(w, s).mail)
  {
  }

  lemma OtherwiseStays(w: World, s: Step)
    requires Sized(w) && !s.Queue? && !s.Retry? && !s.CreateConversation? && !s.CreateTask? && !DispatchesOrDelivers(s)
    ensures Apply(w, s).catalog == w.catalog && Apply(w, s).mail == w.mail
  {
    if s.CheckJob? {
      assert Apply(w, s) == DoCheckJob(w, s.id);
    }
  }

  lemma MailKeepsLinks(w: World, w': World)
    requires CatalogInv(w) && Sized(w') && w'.catalog == w.catalog && MailFrom(w.mail, w'.mail)
    ensures CatalogInv(w') && Extends(w.catalog, w'.catalog)
  {
  }

  lemma ExtendsTransitive(a: Catalog, b: Catalog, c: Catalog)
    requires Extends(a, b) && Extends(b, c)
    ensures Extends(a, c)
  {
  }

  lemma {:induction false} RunCatalog(w: World, run: seq<Step>)
    requires CatalogInv(w)
    ensures CatalogInv(Exec(w, run)) && Extends(w.catalog, Exec(w, run).catalog)
    decreases |run|
  {
    if run != [] {
      StepCatalog(w, run[0]);
      RunCatalog(Apply(w, run[0]), run[1..]);
      ExtendsTransitive(w.catalog, Apply(w, run[0]).catalog, Exec(w, run).catalog);
    }
  }

  // ---------- producer and validator agree ----------

  /** The submitted project, and the task's, are the conversation's: what the submitting route checks. */
  predicate ProjectMatches(c: Catalog, e: Execution)
    requires e.conversationId < |c.conversations| && e.taskId < |c.tasks|
  {
    && c.conversations[e.conversationId].projectId == e.projectId
    && c.tasks[e.taskId].projectId == e.projectId
  }

  lemma AcceptedIffProjectMatches(c: Catalog, job: Job)
    requires AllLinked(c) && JobLinked(c, job)
    ensures Linked(c, c.executions[job.sessionId])
    ensures Validate(c, job) == Accepted <==> ProjectMatches(c, c.executions[job.sessionId])
    ensures Validate(c, job) in {Accepted, Rejected(ConversationProject), Rejected(TaskProject)}
  {
    assert Linked(c, c.executions[job.sessionId]);
  }

  /**
   Agreement: a payload that a queue or a retry wrote, published or still in the outbox, is
   accepted in every later world exactly when its execution's project is the conversation's
   and the task's project. No other check of the validator can fail for it.
   */
  lemma ProducedJobsAreAccepted(before: seq<Step>, after: seq<Step>, job: Job)
    requires var m := Exec(EMPTY, before).mail;
      job in m.jobs || (job.sessionId in m.outbox && m.outbox[job.sessionId].job == job)
    ensures var c := Exec(EMPTY, before).catalog;
      var c' := Exec(EMPTY, before + after).catalog;
      && job.sessionId < |c.executions| && Linked(c, c.executions[job.sessionId])
      && (Validate(c', job) == Accepted <==> ProjectMatches(c, c.executions[job.sessionId]))
      && (Validate(c', job) in {Accepted, Rejected(ConversationProject), Rejected(TaskProject)})
  {
    RunCatalog(EMPTY, before);
    var w := Exec(EMPTY, before);
    RunCatalog(w, after);
    ExecConcat(EMPTY, before, after);
    assert JobLinked(w.catalog, job);
    AcceptedLater(w.catalog, Exec(w, after).catalog, job);
  }

  lemma AcceptedLater(c: Catalog, c': Catalog, job: Job)
    requires AllLinked(c) && AllLinked(c') && Extends(c, c') && JobLinked(c, job)
    ensures Linked(c, c.executions[job.sessionId])
    ensures Validate(c', job) == Accepted <==> ProjectMatches(c, c.executions[job.sessionId])
    ensures Validate(c', job) in {Accepted, Rejected(ConversationProject), Rejected(TaskProject)}
  {
    ExtendsLinked(c, c');
    assert Linked(c, c.executions[job.sessionId]);
    AcceptedIffProjectMatches(c', job);
  }

  /** A queue with the conversation's project, and one of its tasks if any, makes a matching execution. */
  lemma QueueProjectMatches(w: World, q: QueueInput)
    requires CatalogInv(w)
    requires QueueTx(w, q).Some? && !QueueTx(w, q).value.duplicate
    ensures var c := QueueTx(w, q).value.world.catalog;
      var id := QueueTx(w, q).value.executionId;
      && q.conversationId < |w.catalog.conversations|
      && id < |c.executions| && Linked(c, c.executions[id])
      && (ProjectMatches(c, c.executions[id]) <==>
        && w.catalog.conversations[q.conversationId].projectId == q.projectId
        && (q.taskId.Some? ==> q.taskId.value < |w.catalog.tasks| && w.catalog.tasks[q.taskId.value].projectId == q.projectId))
  {
    QueueGood(w, q);
  }

  /** A retry carries over its original's project and task, so it matches when the original does. */
  lemma RetryProjectMatches(w: World, r: RetryInput)
    requires CatalogInv(w)
    requires RetryTx(w, r).Some? && !RetryTx(w, r).value.duplicate
    ensures var c := RetryTx(w, r).value.world.catalog;
      var id := RetryTx(w, r).value.executionId;
      && r.executionId < |w.catalog.executions| && Linked(w.catalog, w.catalog.executions[r.executionId])
      && id < |c.executions| && Linked(c, c.executions[id])
      && (ProjectMatches(c, c.executions[id]) <==> ProjectMatches(w.catalog, w.catalog.executions[r.executionId]))
  {
    assert Linked(w.catalog, w.catalog.executions[r.executionId]);
    RetryGood(w, r);
  }

  /** Everything a job loads shares one conversation, one project and one provider. */
  predicate Coherent(c: Catalog, job: Job)
    requires RowsExist(c, job)
  {
    var e := c.executions[job.sessionId];
    var project := c.conversations[job.conversationId].projectId;
    && e.projectId == project && c.tasks[e.taskId].projectId == project
    && job.conversationId == e.conversationId == c.userMessages[job.messageId].conversationId
      == c.routing[job.routingDecisionId].conversationId == c.providerSessions[job.providerSessionId].conversationId
    && job.providerId == e.providerId == c.routing[job.routingDecisionId].selectedProviderId
      == c.providerSessions[job.providerSessionId].providerId
    && e.taskId == job.taskId && e.providerSessionId == job.providerSessionId
    && e.userMessageId == job.messageId == c.routing[job.routingDecisionId].userMessageId
    && (job.handoffCapsuleId.Some? && job.handoffCapsuleId.value < |c.handoffs| ==>
      && c.handoffs[job.handoffCapsuleId.value].conversationId == job.conversationId
      && c.handoffs[job.handoffCapsuleId.value].toProviderId == job.providerId)
  }

  /** For any payload whatever, acceptance is coherence of the loaded rows plus a supported mode. */
  lemma AcceptedIffCoherent(c: Catalog, job: Job)
    ensures Validate(c, job) == Accepted <==>
      RowsExist(c, job) && Coherent(c, job)
      && ProviderModeCapability(job.providerId, c.userMessages[job.messageId].mode).Some?
  {
  }
}
