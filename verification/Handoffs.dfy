/**
 When a submission leaves a handoff capsule, and what the capsule says
 (packages/database/src/conversation-service.ts).
 */
module Handoffs {
  import opened Wrappers
  import opened Capability
  import opened Tables
  import opened Submission
  import opened CatalogSafety

  /** The newest provider session of the pair, if any, was pinned to this model. */
  predicate LastModelWas(c: Catalog, conversationId: Id, providerId: string, model: Option<string>) {
    exists i :: 0 <= i < |c.providerSessions| && SamePair(c.providerSessions[i], conversationId, providerId)
      && c.providerSessions[i].resolvedModel == model
      && forall j :: i < j < |c.providerSessions| ==> !SamePair(c.providerSessions[j], conversationId, providerId)
  }

  predicate HasSession(c: Catalog, conversationId: Id, providerId: string) {
    exists i :: 0 <= i < |c.providerSessions| && SamePair(c.providerSessions[i], conversationId, providerId)
  }

  /** The submitting browser last saw an answer of another provider. */
  predicate SwitchesProvider(q: QueueInput) {
    && q.previousReply.Some? && Truthy(q.previousReply.value.providerId)
    && q.previousReply.value.providerId.value != q.providerId
  }

  /** The same provider goes on under another model than its newest session's. */
  predicate SwitchesModel(c: Catalog, q: QueueInput, model: Option<string>) {
    && !SwitchesProvider(q) && HasSession(c, q.conversationId, q.providerId)
    && !LastModelWas(c, q.conversationId, q.providerId, model)
  }

  /** The capsule names both ends of the switch. */
  predicate Records(c: Catalog, q: QueueInput, e: Execution, h: Handoff) {
    && h.conversationId == q.conversationId && h.toProviderId == e.providerId && h.toModel == e.requestedModel
    && (SwitchesProvider(q) ==>
         && h.fromProviderId == q.previousReply.value.providerId.value
         && (LastModelWas(c, q.conversationId, h.fromProviderId, h.fromModel)
             || (!HasSession(c, q.conversationId, h.fromProviderId) && h.fromModel == None)))
    && (!SwitchesProvider(q) ==>
         && LastModelWas(c, q.conversationId, q.providerId, h.fromModel)
         && (q.previousReply.Some? && q.previousReply.value.providerId != Some("") ==> h.fromProviderId == q.providerId)
         && (q.previousReply.Some? && q.previousReply.value.providerId == Some("") ==> h.fromProviderId == ""))
  }

  predicate Submitted(w: World, q: QueueInput)
    requires Sized(w)
  {
    QueueTx(w, q).Some? && !QueueTx(w, q).value.duplicate
  }

  /** A new queue leaves a capsule exactly when it switches provider or model, and its job carries exactly that capsule. */
  lemma CapsuleIffSwitch(w: World, q: QueueInput)
    requires Sized(w) && Submitted(w, q)
    ensures var id := QueueTx(w, q).value.executionId;
      var w' := QueueTx(w, q).value.world;
      && id < |w'.catalog.executions| && id in w'.mail.outbox && q.conversationId < |w.catalog.conversations|
      && var e := w'.catalog.executions[id];
      var n := |w.catalog.handoffs|;
      if SwitchesProvider(q) || SwitchesModel(w.catalog, q, e.requestedModel)
      then
        && |w'.catalog.handoffs| == n + 1 && w'.catalog.handoffs[..n] == w.catalog.handoffs
        && Records(w.catalog, q, e, w'.catalog.handoffs[n])
        && w'.catalog.handoffs[n].version == w.catalog.conversations[q.conversationId].handoffSequence + 1
        && w'.mail.outbox[id].job.handoffCapsuleId == Some(n)
      else w'.catalog.handoffs == w.catalog.handoffs && w'.mail.outbox[id].job.handoffCapsuleId == None
  {
    var model := ResolveModelSelection(q.providerId, q.defaults, q.requestedModel, q.requestedEffort).value.model;
    LastModelIs(w.catalog, q.conversationId, q.providerId);
    if SwitchesProvider(q) {
      LastModelIs(w.catalog, q.conversationId, q.previousReply.value.providerId.value);
    }
  }

  lemma LastModelIs(c: Catalog, conversationId: Id, providerId: string)
    ensures HasSession(c, conversationId, providerId) <==> LatestProviderSession(c, conversationId, providerId).Some?
    ensures HasSession(c, conversationId, providerId) ==>
      forall m :: LastModelWas(c, conversationId, providerId, m) <==> m == LatestModel(c, conversationId, providerId)
    ensures !HasSession(c, conversationId, providerId) ==> LatestModel(c, conversationId, providerId).None?
  {
    var latest := LatestProviderSession(c, conversationId, providerId);
    if latest.Some? {
      forall i | 0 <= i < |c.providerSessions| && SamePair(c.providerSessions[i], conversationId, providerId)
        && forall j :: i < j < |c.providerSessions| ==> !SamePair(c.providerSessions[j], conversationId, providerId)
        ensures i == latest.value
      {
        assert !(i < latest.value) && !(latest.value < i);
      }
    }
  }
}
