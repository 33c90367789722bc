/**
 The provider/mode capability matrix, the model registry and the model
 priority chain (packages/shared/src/index.ts).
 */
module Capability {
  import opened Wrappers

  datatype Mode = Ask | Implement | Review | Continue | Verify

  datatype ExecutionCapability = ReadOnly | WorkspaceWrite

  const CLAUDE := "claude-cli"
  const CODEX := "codex-cli"

  /** `None` for a combination that must be rejected before queueing. */
  function ProviderModeCapability(providerId: string, mode: Mode): Option<ExecutionCapability> {
    if providerId == CLAUDE || providerId == CODEX then
      Some(if mode == Implement then WorkspaceWrite else ReadOnly)
    else
      None
  }

  /** Only Claude's CONTINUE deviates from the matrix: it inherits. */
  function ResolveExecutionCapability(providerId: string, mode: Mode, continued: Option<ExecutionCapability>)
    : Option<ExecutionCapability>
  {
    if providerId == CLAUDE && mode == Continue && continued.Some? then
      continued
    else
      ProviderModeCapability(providerId, mode)
  }

  /** A nullable string that is neither null nor empty: the source tests it for truth. */
  predicate Truthy(s: Option<string>) {
    s.Some? && s.value != ""
  }

  const CLAUDE_MODELS: seq<string> := ["sonnet", "opus"]
  const CODEX_MODELS: seq<string> := ["o3", "gpt-5-codex"]
  const CODEX_EFFORTS: seq<string> := ["minimal", "low", "medium", "high"]

  function ModelsOf(providerId: string): seq<string> {
    if providerId == CLAUDE then CLAUDE_MODELS else if providerId == CODEX then CODEX_MODELS else []
  }

  predicate IsModelSupported(providerId: string, model: Option<string>) {
    Truthy(model) ==> model.value in ModelsOf(providerId)
  }

  predicate IsReasoningEffortAllowed(providerId: string, model: Option<string>, effort: Option<string>) {
    Truthy(effort) ==>
      && Truthy(model)
      && model.value in ModelsOf(providerId)
      && providerId == CODEX
      && effort.value in CODEX_EFFORTS
  }

  datatype ModelSource = UserSelected | ProjectDefault | SystemDefault | ProviderDefault

  function ResolveEffectiveModel(explicit: Option<string>, projectDefault: Option<string>, applicationDefault: Option<string>)
    : (Option<string>, ModelSource)
  {
    if Truthy(explicit) then (explicit, UserSelected)
    else if Truthy(projectDefault) then (projectDefault, ProjectDefault)
    else if Truthy(applicationDefault) then (applicationDefault, SystemDefault)
    else (None, ProviderDefault)
  }

  /** The `??` chain of reasoning efforts: the first that is not null. */
  function FirstPresent(a: Option<string>, b: Option<string>, c: Option<string>): Option<string> {
    if a.Some? then a else if b.Some? then b else c
  }

  /** Project and application defaults as read inside the submitting transaction. */
  datatype Defaults = Defaults(
    projectClaudeModel: Option<string>,
    projectCodexModel: Option<string>,
    projectCodexEffort: Option<string>,
    applicationClaudeModel: Option<string>,
    applicationCodexModel: Option<string>,
    applicationCodexEffort: Option<string>)

  datatype Selection = Selection(model: Option<string>, reasoningEffort: Option<string>, modelSource: ModelSource)

  /** `None` is the rejection of the whole submission. */
  function ResolveModelSelection(providerId: string, defaults: Defaults, explicitModel: Option<string>, explicitEffort: Option<string>)
    : Option<Selection>
  {
    var claude := providerId == CLAUDE;
    var (model, modelSource) := ResolveEffectiveModel(
      explicitModel,
      if claude then defaults.projectClaudeModel else defaults.projectCodexModel,
      if claude then defaults.applicationClaudeModel else defaults.applicationCodexModel);
    var effort := FirstPresent(
      explicitEffort,
      if claude then None else defaults.projectCodexEffort,
      if claude then None else defaults.applicationCodexEffort);
    if IsModelSupported(providerId, model) && IsReasoningEffortAllowed(providerId, model, effort) then
      Some(Selection(model, effort, modelSource))
    else
      None
  }

  /**
   Whatever the browser and the stored defaults say, a selection that is not
   rejected names a model registered for the selected provider and no other,
   and an effort only for a registered Codex model.
   */
  lemma SelectionIsRegistered(providerId: string, defaults: Defaults, explicitModel: Option<string>, explicitEffort: Option<string>)
    requires ResolveModelSelection(providerId, defaults, explicitModel, explicitEffort).Some?
    ensures var s := ResolveModelSelection(providerId, defaults, explicitModel, explicitEffort).value;
      && (s.model.None? <==> s.modelSource == ProviderDefault)
      && (s.model.Some? ==> s.model.value in ModelsOf(providerId))
      && (s.model.Some? ==> forall other | other != providerId :: s.model.value !in ModelsOf(other))
      && (Truthy(s.reasoningEffort) ==> providerId == CODEX && s.model.Some?)
  {
    var s := ResolveModelSelection(providerId, defaults, explicitModel, explicitEffort).value;
    if s.model.Some? {
      assert "sonnet"[0] == 's' && "opus"[1] == 'p' && |"o3"| == 2 && |"gpt-5-codex"| == 11;
      assert s.model.value in ModelsOf(providerId);
    }
  }
}
