/**
 "A same-provider retry preserves the original model exactly": when that is so
 (packages/database/src/conversation-service.ts, `retryConversationExecution`).
 */
module RetryModel {
  import opened Wrappers
  import opened Capability
  import opened Tables
  import opened Submission
  import opened Protocol
  import opened Revival

  /** The stored defaults at the time of the retry resolve to no model. */
  predicate NoDefaultModel(providerId: string, d: Defaults) {
    && !Truthy(if providerId == CLAUDE then d.projectClaudeModel else d.projectCodexModel)
    && !Truthy(if providerId == CLAUDE then d.applicationClaudeModel else d.applicationCodexModel)
  }

  predicate NoDefaultEffort(providerId: string, d: Defaults) {
    providerId == CLAUDE || (d.projectCodexEffort.None? && d.applicationCodexEffort.None?)
  }

  /** The retry committed a new execution, for the provider of the original. */
  predicate SameProviderRetry(w: World, r: RetryInput)
    requires Sized(w)
  {
    && r.executionId < |w.catalog.executions|
    && r.providerId == w.catalog.executions[r.executionId].providerId
    && RetryTx(w, r).Some? && !RetryTx(w, r).value.duplicate
  }

  /**
   An original that named a model keeps it; one that ran on the provider's own default keeps that exactly when
   the defaults stored by the time of the retry name no model either. The effort behaves the same way.
   */
  lemma RetryKeepsModelIff(w: World, r: RetryInput)
    requires Sized(w) && SameProviderRetry(w, r)
    ensures var original := w.catalog.executions[r.executionId];
      var committed := RetryTx(w, r).value;
      && committed.executionId < |committed.world.catalog.executions|
      && var retry := committed.world.catalog.executions[committed.executionId];
      && (retry.requestedModel == original.requestedModel <==>
           || Truthy(original.requestedModel)
           || (original.requestedModel.None? && NoDefaultModel(r.providerId, r.defaults)))
      && (retry.reasoningEffort == original.reasoningEffort <==>
           original.reasoningEffort.Some? || NoDefaultEffort(r.providerId, r.defaults))
  {
  }

  /** The default project setting changed between the message and its retry: the retry switches model. */
  lemma RetrySwitchesModel()
    ensures Retry(RetryInput(0, CLAUDE, OPUS_DEFAULT, 0, true)) in REPLACE
    ensures var c := Exec(EMPTY, QUEUE_TWO + RUN_SECOND + REPLACE).catalog;
      && |c.executions| == 3
      && c.executions[2].userMessageId == c.executions[0].userMessageId
      && c.executions[2].providerId == c.executions[0].providerId == CLAUDE
      && c.executions[0].requestedModel == None
      && c.executions[2].requestedModel == Some("opus")
  {
    assert REPLACE[0] == Retry(RetryInput(0, CLAUDE, OPUS_DEFAULT, 0, true));
    ExecConcat(EMPTY, QUEUE_TWO, RUN_SECOND);
    ExecConcat(EMPTY, QUEUE_TWO + RUN_SECOND, REPLACE);
    QueueTwo();
    RunSecond();
    Replace();
  }
}
