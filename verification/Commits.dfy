/**
 Exactly when a submission commits, and so exactly when it throws
 (packages/database/src/conversation-service.ts): in every reachable world, over what its caller can see.
 */
module Commits {
  import opened Wrappers
  import opened Capability
  import opened Tables
  import opened Submission
  import opened Protocol
  import opened CatalogSafety
  import opened LifecycleSafety
  import opened Pinning
  import opened Handoffs
  import Conservation

  // ---------- the provider session ----------

  /** A session of the pair runs that is not its newest. */
  predicate OlderRuns(w: World, conversationId: Id, providerId: string)
    requires Sized(w)
  {
    exists i :: 0 <= i < |w.runtime.sessionStatus| && w.runtime.sessionStatus[i] == SessionRunning
      && SamePair(w.catalog.providerSessions[i], conversationId, providerId) && !IsNewest(w.catalog, i)
  }

  lemma AcquiresIff(w: World, conversationId: Id, providerId: string, model: Option<string>)
    requires OneRunningIn(w.catalog.providerSessions, w.runtime.sessionStatus) && Sized(w)
    ensures Acquire(w.catalog, w.runtime.sessionStatus, conversationId, providerId, model).Some? <==>
      !OlderRuns(w, conversationId, providerId)
  {
    var c, status := w.catalog, w.runtime.sessionStatus;
    if OlderRuns(w, conversationId, providerId) {
      var i :| 0 <= i < |status| && status[i] == SessionRunning
        && SamePair(c.providerSessions[i], conversationId, providerId) && !IsNewest(c, i);
      OlderRunningBlocks(c, status, i, model);
    } else {
      var latest := LatestProviderSession(c, conversationId, providerId);
      forall i | 0 <= i < |status| && status[i] == SessionRunning && SamePair(c.providerSessions[i], conversationId, providerId)
        ensures latest == Some(i)
      {
        assert IsNewest(c, i);
      }
    }
  }

  // ---------- the queue ----------

  function QueueSelection(q: QueueInput): Option<Selection> {
    ResolveModelSelection(q.providerId, q.defaults, q.requestedModel, q.requestedEffort)
  }

  /** What a new message needs beyond its provider, mode and conversation. */
  predicate Acceptable(w: World, q: QueueInput)
    requires Sized(w)
  {
    && QueueSelection(q).Some?
    && !OlderRuns(w, q.conversationId, q.providerId)
    && (q.taskId.Some? ==> q.taskId.value < |w.catalog.tasks|)
    && (SwitchesProvider(q) ==> q.handoffFits)
    && (SwitchesModel(w.catalog, q, QueueSelection(q).value.model) ==> q.handoffFits && q.previousReply.Some?)
  }

  predicate KnownKey(c: Catalog, q: QueueInput) {
    exists m :: 0 <= m < |c.userMessages| && SameKey(c.userMessages[m], q.conversationId, q.idempotencyKey)
  }

  lemma PlansIff(c: Catalog, q: QueueInput, model: Option<string>)
    ensures var plan := PlanQueueHandoff(c, q, model);
      && (plan.None? <==> SwitchesModel(c, q, model) && q.previousReply.None?)
      && (plan.Some? ==> (plan.value.Handover? <==> SwitchesProvider(q) || SwitchesModel(c, q, model)))
  {
    LastModelIs(c, q.conversationId, q.providerId);
  }

  lemma QueueNewIff(w: World, q: QueueInput)
    requires CatalogInv(w) && OneRunningIn(w.catalog.providerSessions, w.runtime.sessionStatus)
    requires q.conversationId < |w.catalog.conversations| && ProviderModeCapability(q.providerId, q.mode).Some?
    ensures QueueNew(w, q).Some? <==> Acceptable(w, q)
  {
    if QueueSelection(q).Some? {
      AcquiresIff(w, q.conversationId, q.providerId, QueueSelection(q).value.model);
      PlansIff(w.catalog, q, QueueSelection(q).value.model);
    }
  }

  /** The conversation's message counter does not decide anything. */
  lemma LockKeepsAcceptable(w: World, q: QueueInput)
    requires CatalogInv(w) && q.conversationId < |w.catalog.conversations|
    ensures var locked := w.(catalog := QueueLocked(w.catalog, q));
      && CatalogInv(locked)
      && (Acceptable(locked, q) <==> Acceptable(w, q))
      && (KnownKey(locked.catalog, q) <==> KnownKey(w.catalog, q))
  {
    var locked := w.(catalog := QueueLocked(w.catalog, q));
    assert OlderRuns(locked, q.conversationId, q.providerId) <==> OlderRuns(w, q.conversationId, q.providerId) by {
      assert forall i :: 0 <= i < |w.catalog.providerSessions| ==> (IsNewest(locked.catalog, i) <==> IsNewest(w.catalog, i));
    }
    assert forall e :: Linked(w.catalog, e) ==> Linked(locked.catalog, e);
  }

  /**
   A message is queued exactly when its provider supports its mode, its conversation exists, and either its key is
   known there or the submission is acceptable: everything else throws.
   */
  lemma QueueCommitsIff(run: seq<Step>, q: QueueInput)
    ensures var w := Exec(EMPTY, run);
      QueueTx(w, q).Some? <==>
        && ProviderModeCapability(q.providerId, q.mode).Some?
        && q.conversationId < |w.catalog.conversations|
        && (KnownKey(w.catalog, q) || Acceptable(w, q))
  {
    var w := Exec(EMPTY, run);
    RunCatalog(EMPTY, run);
    RunOneRunning(EMPTY, run);
    Conservation.RunConserves(EMPTY, run);
    if q.conversationId < |w.catalog.conversations| {
      QueueCommits(w, q);
    }
  }

  lemma ReplayCommits(w: World, q: QueueInput)
    requires Sized(w) && Conservation.EveryMessageRuns(w.catalog) && q.conversationId < |w.catalog.conversations|
    requires KnownKey(w.catalog, q) && ProviderModeCapability(q.providerId, q.mode).Some?
    ensures QueueTx(w, q).Some?
  {
    var existing := FindMessage(QueueLocked(w.catalog, q), q.conversationId, q.idempotencyKey);
    if existing.Some? {
      assert Conservation.Runs(w.catalog, existing.value);
    }
  }

  lemma NewIsQueueNew(w: World, q: QueueInput)
    requires Sized(w) && q.conversationId < |w.catalog.conversations|
    requires !KnownKey(w.catalog, q) && ProviderModeCapability(q.providerId, q.mode).Some?
    ensures QueueTx(w, q) == QueueNew(w.(catalog := QueueLocked(w.catalog, q)), q)
  {
  }

  lemma QueueCommits(w: World, q: QueueInput)
    requires CatalogInv(w) && OneRunningIn(w.catalog.providerSessions, w.runtime.sessionStatus)
    requires Conservation.EveryMessageRuns(w.catalog) && q.conversationId < |w.catalog.conversations|
    ensures QueueTx(w, q).Some? <==>
      ProviderModeCapability(q.providerId, q.mode).Some? && (KnownKey(w.catalog, q) || Acceptable(w, q))
  {
    if ProviderModeCapability(q.providerId, q.mode).Some? {
      if KnownKey(w.catalog, q) {
        ReplayCommits(w, q);
      } else {
        NewIsQueueNew(w, q);
        LockKeepsAcceptable(w, q);
        QueueNewIff(w.(catalog := QueueLocked(w.catalog, q)), q);
      }
    }
  }

  // ---------- replies name their execution's conversation and provider ----------

  predicate ReplyLinked(c: Catalog, m: Reply) {
    m.executionId < |c.executions| && SameLine(c.executions[m.executionId], m.conversationId, m.providerId)
  }

  ghost predicate RepliesLinked(w: World) {
    forall k :: 0 <= k < |w.runtime.replies| ==> ReplyLinked(w.catalog, w.runtime.replies[k])
  }

  /** The replies stay, or one is added for an execution. */
  predicate RepliesGrow(w: World, w': World) {
    || w'.runtime.replies == w.runtime.replies
    || (|w'.runtime.replies| == |w.runtime.replies| + 1
        && w'.runtime.replies[..|w.runtime.replies|] == w.runtime.replies
        && ReplyLinked(w.catalog, w'.runtime.replies[|w.runtime.replies|]))
  }

  lemma SubmissionKeepsReplies(w: World, s: Step)
    requires Sized(w) && (s.Queue? || s.Retry?)
    ensures Apply(w, s).runtime.replies == w.runtime.replies
  {
    if s.Queue? {
      QueueLife(w, s.q);
    } else {
      RetryLife(w, s.r);
    }
  }

  lemma RowKeepsReplies(w: World, s: Step)
    requires Sized(w) && (OnRow(s) || OnTurn(s))
    ensures Apply(w, s).runtime.replies == w.runtime.replies
  {
    if s.CheckJob? {
      assert Apply(w, s) == DoCheckJob(w, s.id);
    } else if s.WriteTermination? {
      assert Apply(w, s) == DoWriteTermination(w, s.id);
    }
  }

  lemma OtherRepliesGrow(w: World, s: Step)
    requires Sized(w) && !s.Queue? && !s.Retry? && !OnRow(s) && !OnTurn(s)
    ensures RepliesGrow(w, Apply(w, s))
  {
  }

  lemma StepRepliesGrow(w: World, s: Step)
    requires Sized(w)
    ensures RepliesGrow(w, Apply(w, s))
  {
    if s.Queue? || s.Retry? {
      SubmissionKeepsReplies(w, s);
    } else if OnRow(s) || OnTurn(s) {
      RowKeepsReplies(w, s);
    } else {
      OtherRepliesGrow(w, s);
    }
  }

  lemma GrownRepliesLinked(w: World, w': World)
    requires RepliesLinked(w) && Extends(w.catalog, w'.catalog) && RepliesGrow(w, w')
    ensures RepliesLinked(w')
  {
    var n := |w.runtime.replies|;
    forall k | 0 <= k < |w'.runtime.replies| ensures ReplyLinked(w'.catalog, w'.runtime.replies[k]) {
      if k < n {
        assert w'.runtime.replies[k] == w'.runtime.replies[..n][k] == w.runtime.replies[k];
        assert ReplyLinked(w.catalog, w.runtime.replies[k]);
      }
    }
  }

  lemma {:induction false} RunRepliesLinked(w: World, run: seq<Step>)
    requires CatalogInv(w) && RepliesLinked(w)
    ensures RepliesLinked(Exec(w, run))
    decreases |run|
  {
    if run != [] {
      StepRepliesGrow(w, run[0]);
      StepCatalog(w, run[0]);
      GrownRepliesLinked(w, Apply(w, run[0]));
      RunRepliesLinked(Apply(w, run[0]), run[1..]);
    }
  }

  // ---------- the retry ----------

  predicate Answered(replies: seq<Reply>, conversationId: Id) {
    exists k :: 0 <= k < |replies| && replies[k].conversationId == conversationId
  }

  predicate LastAnsweredBy(replies: seq<Reply>, conversationId: Id, providerId: string) {
    exists k :: 0 <= k < |replies| && replies[k].conversationId == conversationId && replies[k].providerId == providerId
      && forall j :: k < j < |replies| ==> replies[j].conversationId != conversationId
  }

  /** The conversation's last reply came from another provider, or from this one under another model. */
  predicate RetrySwitches(w: World, conversationId: Id, providerId: string, model: Option<string>) {
    && Answered(w.runtime.replies, conversationId)
    && (LastAnsweredBy(w.runtime.replies, conversationId, providerId) ==>
         !LastModelWas(w.catalog, conversationId, providerId, model))
  }

  function RetrySelection(original: Execution, r: RetryInput): Option<Selection> {
    ResolveModelSelection(
      r.providerId,
      r.defaults,
      if r.providerId == original.providerId then original.requestedModel else None,
      if r.providerId == original.providerId then original.reasoningEffort else None)
  }

  predicate HasActive(w: World, userMessageId: Id, providerId: string)
    requires Sized(w)
  {
    exists i :: 0 <= i < |w.runtime.life| && ActiveFor(w.catalog, w.runtime.life, i, userMessageId, providerId)
  }

  /** What a retry needs that has no active execution to return. */
  predicate RetryAcceptable(w: World, r: RetryInput)
    requires Sized(w) && r.executionId < |w.catalog.executions|
  {
    var original := w.catalog.executions[r.executionId];
    && RetrySelection(original, r).Some?
    && !OlderRuns(w, original.conversationId, r.providerId)
    && (RetrySwitches(w, original.conversationId, r.providerId, RetrySelection(original, r).value.model) ==> r.handoffFits)
  }

  lemma LastReplyIs(replies: seq<Reply>, conversationId: Id, providerId: string)
    ensures var prior := LatestReply(replies, conversationId);
      && (prior.Some? <==> Answered(replies, conversationId))
      && (LastAnsweredBy(replies, conversationId, providerId) <==> prior.Some? && replies[prior.value].providerId == providerId)
  {
    var prior := LatestReply(replies, conversationId);
    if prior.Some? {
      forall k | 0 <= k < |replies| && replies[k].conversationId == conversationId
        && forall j :: k < j < |replies| ==> replies[j].conversationId != conversationId
        ensures k == prior.value
      {
        assert !(k < prior.value) && !(prior.value < k);
      }
    }
  }

  /** Whoever answered has a session in the conversation, so the retry's plan never reads a missing one. */
  lemma RetryPlansIff(w: World, original: Execution, providerId: string, model: Option<string>)
    requires CatalogInv(w) && RepliesLinked(w)
    ensures var plan := PlanRetryHandoff(w, original, providerId, model);
      plan.Some? && (plan.value.Handover? <==> RetrySwitches(w, original.conversationId, providerId, model))
  {
    var replies := w.runtime.replies;
    LastReplyIs(replies, original.conversationId, providerId);
    LastModelIs(w.catalog, original.conversationId, providerId);
    var prior := LatestReply(replies, original.conversationId);
    if prior.Some? {
      assert ReplyLinked(w.catalog, replies[prior.value]);
      var e := w.catalog.executions[replies[prior.value].executionId];
      assert Linked(w.catalog, e);
      assert SamePair(w.catalog.providerSessions[e.providerSessionId], e.conversationId, e.providerId);
    }
  }

  lemma RetryNewIff(w: World, r: RetryInput)
    requires CatalogInv(w) && RepliesLinked(w) && OneRunningIn(w.catalog.providerSessions, w.runtime.sessionStatus)
    requires r.executionId < |w.catalog.executions|
    ensures var original := w.catalog.executions[r.executionId];
      && Linked(w.catalog, original)
      && var mode := w.catalog.userMessages[original.userMessageId].mode;
      ProviderModeCapability(r.providerId, mode).Some? ==>
        (RetryNew(w, r, original, mode).Some? <==> RetryAcceptable(w, r))
  {
    var original := w.catalog.executions[r.executionId];
    assert Linked(w.catalog, original);
    if RetrySelection(original, r).Some? {
      AcquiresIff(w, original.conversationId, r.providerId, RetrySelection(original, r).value.model);
      RetryPlansIff(w, original, r.providerId, RetrySelection(original, r).value.model);
    }
  }

  lemma RetryCommits(w: World, r: RetryInput)
    requires CatalogInv(w) && RepliesLinked(w) && OneRunningIn(w.catalog.providerSessions, w.runtime.sessionStatus)
    requires r.executionId < |w.catalog.executions|
    ensures var original := w.catalog.executions[r.executionId];
      && original.userMessageId < |w.catalog.userMessages|
      && (RetryTx(w, r).Some? <==>
        && Retryable(w.runtime.life[r.executionId].state)
        && ProviderModeCapability(r.providerId, w.catalog.userMessages[original.userMessageId].mode).Some?
        && (HasActive(w, original.userMessageId, r.providerId) || RetryAcceptable(w, r)))
  {
    RetryNewIff(w, r);
  }

  /**
   A retry commits exactly when its execution exists, failed, timed out or was cancelled, the provider supports the
   message's mode, and either an execution of the message by that provider is active or the retry is acceptable. Its
   read of a missing session's model, which would throw, is never reached.
   */
  lemma RetryCommitsIff(run: seq<Step>, r: RetryInput)
    ensures var w := Exec(EMPTY, run);
      RetryTx(w, r).Some? <==>
        && r.executionId < |w.catalog.executions|
        && (var state := w.runtime.life[r.executionId].state; state == Failed || state == TimedOut || state == Cancelled)
        && var m := w.catalog.executions[r.executionId].userMessageId;
        && m < |w.catalog.userMessages|
        && ProviderModeCapability(r.providerId, w.catalog.userMessages[m].mode).Some?
        && (HasActive(w, m, r.providerId) || RetryAcceptable(w, r))
  {
    var w := Exec(EMPTY, run);
    RunCatalog(EMPTY, run);
    RunOneRunning(EMPTY, run);
    RunRepliesLinked(EMPTY, run);
    if r.executionId < |w.catalog.executions| {
      RetryCommits(w, r);
    }
  }
}
