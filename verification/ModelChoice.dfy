/**
 "Explicit selection, project default, application default, provider default"
 (packages/database/src/conversation-service.ts): which model and effort an execution gets, and what its row says.
 */
module ModelChoice {
  import opened Wrappers
  import opened Capability
  import opened Tables
  import opened Submission
  import opened CatalogSafety
  import opened Handoffs

  // ---------- the priority chain ----------

  /** Who may name the model, highest priority first; a provider only sees its own defaults. */
  function ModelCandidates(providerId: string, d: Defaults, explicit: Option<string>): seq<Option<string>> {
    if providerId == CLAUDE then [explicit, d.projectClaudeModel, d.applicationClaudeModel]
    else [explicit, d.projectCodexModel, d.applicationCodexModel]
  }

  const SOURCES: seq<ModelSource> := [UserSelected, ProjectDefault, SystemDefault]

  /** Claude has no stored efforts. */
  function EffortCandidates(providerId: string, d: Defaults, explicit: Option<string>): seq<Option<string>> {
    if providerId == CLAUDE then [explicit] else [explicit, d.projectCodexEffort, d.applicationCodexEffort]
  }

  predicate WinsAt(candidates: seq<Option<string>>, k: nat) {
    k < |candidates| && Truthy(candidates[k]) && forall j :: 0 <= j < k ==> !Truthy(candidates[j])
  }

  /** The first candidate that names a model is chosen, and the source says which it was. */
  ghost predicate ModelFollows(model: Option<string>, source: ModelSource, candidates: seq<Option<string>>)
    requires |candidates| == |SOURCES|
  {
    && (forall k: nat :: WinsAt(candidates, k) ==> model == candidates[k] && source == SOURCES[k])
    && ((forall k: nat :: !WinsAt(candidates, k)) ==> model == None && source == ProviderDefault)
  }

  predicate PresentAt(candidates: seq<Option<string>>, k: nat) {
    k < |candidates| && candidates[k].Some? && forall j :: 0 <= j < k ==> candidates[j].None?
  }

  /** The first effort that is set is chosen, even an empty one. */
  ghost predicate EffortFollows(effort: Option<string>, candidates: seq<Option<string>>) {
    && (forall k: nat :: PresentAt(candidates, k) ==> effort == candidates[k])
    && ((forall k: nat :: !PresentAt(candidates, k)) ==> effort == None)
  }

  /** What a provider can run: no model of its own choosing but a registered one, an effort only for a Codex model. */
  predicate Runnable(providerId: string, model: Option<string>, effort: Option<string>) {
    && (model.Some? ==> model.value in ModelsOf(providerId))
    && (effort.Some? && effort.value != "" ==> providerId == CODEX && model.Some? && effort.value in CODEX_EFFORTS)
  }

  lemma ModelIsFirst(a: Option<string>, b: Option<string>, c: Option<string>, model: Option<string>, source: ModelSource)
    ensures ModelFollows(model, source, [a, b, c]) <==> ResolveEffectiveModel(a, b, c) == (model, source)
  {
    var candidates := [a, b, c];
    assert Truthy(a) ==> WinsAt(candidates, 0);
    assert !Truthy(a) && Truthy(b) ==> WinsAt(candidates, 1);
    assert !Truthy(a) && !Truthy(b) && Truthy(c) ==> WinsAt(candidates, 2);
  }

  lemma EffortIsFirst(a: Option<string>, b: Option<string>, c: Option<string>, effort: Option<string>)
    ensures EffortFollows(effort, [a, b, c]) <==> FirstPresent(a, b, c) == effort
    ensures EffortFollows(effort, [a]) <==> FirstPresent(a, None, None) == effort
  {
    var candidates := [a, b, c];
    assert a.Some? ==> PresentAt(candidates, 0) && PresentAt([a], 0);
    assert a.None? && b.Some? ==> PresentAt(candidates, 1);
    assert a.None? && b.None? && c.Some? ==> PresentAt(candidates, 2);
  }

  /** The one model and effort that the chain yields. */
  ghost predicate Chosen(
      providerId: string, d: Defaults, explicitModel: Option<string>, explicitEffort: Option<string>, s: Selection)
  {
    && ModelFollows(s.model, s.modelSource, ModelCandidates(providerId, d, explicitModel))
    && EffortFollows(s.reasoningEffort, EffortCandidates(providerId, d, explicitEffort))
  }

  /** A selection is accepted exactly when it follows the chain and the provider can run it; there is only one. */
  lemma SelectionFollowsChain(
      providerId: string, d: Defaults, explicitModel: Option<string>, explicitEffort: Option<string>, s: Selection)
    ensures ResolveModelSelection(providerId, d, explicitModel, explicitEffort) == Some(s) <==>
      && Chosen(providerId, d, explicitModel, explicitEffort, s)
      && Runnable(providerId, s.model, s.reasoningEffort)
  {
    if providerId == CLAUDE {
      ModelIsFirst(explicitModel, d.projectClaudeModel, d.applicationClaudeModel, s.model, s.modelSource);
      EffortIsFirst(explicitEffort, None, None, s.reasoningEffort);
    } else {
      ModelIsFirst(explicitModel, d.projectCodexModel, d.applicationCodexModel, s.model, s.modelSource);
      EffortIsFirst(explicitEffort, d.projectCodexEffort, d.applicationCodexEffort, s.reasoningEffort);
    }
    if s.model != Some("") {
      RunnableIff(providerId, s.model, s.reasoningEffort);
    }
  }

  lemma RunnableIff(providerId: string, model: Option<string>, effort: Option<string>)
    requires model != Some("")
    ensures Runnable(providerId, model, effort) <==>
      IsModelSupported(providerId, model) && IsReasoningEffortAllowed(providerId, model, effort)
  {
  }

  // ---------- what the rows say ----------

  ghost predicate RowFollows(
      e: Execution, d: Defaults, explicitModel: Option<string>, explicitEffort: Option<string>)
  {
    && Chosen(e.providerId, d, explicitModel, explicitEffort, Selection(e.requestedModel, e.reasoningEffort, e.modelSource))
    && Runnable(e.providerId, e.requestedModel, e.reasoningEffort)
  }

  /** A new message's execution runs the chain's choice for the submitted provider, model and effort. */
  lemma QueuedRowFollowsChain(w: World, q: QueueInput)
    requires Sized(w) && Submitted(w, q)
    ensures var c := QueueTx(w, q).value;
      && c.executionId < |c.world.catalog.executions|
      && c.world.catalog.executions[c.executionId].providerId == q.providerId
      && RowFollows(c.world.catalog.executions[c.executionId], q.defaults, q.requestedModel, q.requestedEffort)
  {
    var s := ResolveModelSelection(q.providerId, q.defaults, q.requestedModel, q.requestedEffort);
    SelectionFollowsChain(q.providerId, q.defaults, q.requestedModel, q.requestedEffort, s.value);
  }

  /** A retry by the same provider takes the original's model and effort as the explicit ones, another takes none. */
  lemma RetriedRowFollowsChain(w: World, r: RetryInput)
    requires Sized(w) && RetryTx(w, r).Some? && !RetryTx(w, r).value.duplicate
    ensures var c := RetryTx(w, r).value;
      && r.executionId < |w.catalog.executions| && c.executionId < |c.world.catalog.executions|
      && var original, retry := w.catalog.executions[r.executionId], c.world.catalog.executions[c.executionId];
      && retry.providerId == r.providerId
      && (r.providerId == original.providerId ==>
           RowFollows(retry, r.defaults, original.requestedModel, original.reasoningEffort))
      && (r.providerId != original.providerId ==> RowFollows(retry, r.defaults, None, None))
  {
    var original := w.catalog.executions[r.executionId];
    var same := r.providerId == original.providerId;
    var model, effort := if same then original.requestedModel else None, if same then original.reasoningEffort else None;
    SelectionFollowsChain(r.providerId, r.defaults, model, effort,
      ResolveModelSelection(r.providerId, r.defaults, model, effort).value);
  }
}
