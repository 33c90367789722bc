/**
 The shared tables as mutable state, and the code that updates them: the submitting
 transactions, the claim and heartbeat, the reaper's sweep and the dispatcher's pass.
 Each method is proved to make exactly the steps of the protocol.

 Between two database calls of one actor, any other actors may make any steps:
 `Interference` stands for them, and its caller learns only its contract.
 */
module Persistence {
  import opened Wrappers
  import opened Capability
  import opened Tables
  import opened Submission
  import opened Protocol
  import opened OutboxSafety
  import opened CatalogSafety
  import opened LifecycleSafety
  import opened Backoff

  datatype Actor = ADispatcher(dispatcher: nat) | ASweep(sweep: SweepId) | ACanceller(execution: Id)

  /** A step that is not made in the name of this actor: what the rest of the system may do. */
  predicate ByOthers(s: Step, actor: Actor) {
    match s
    case ClaimRow(d, _, _, _) => ADispatcher(d) != actor
    case RecordPublished(d, _) => ADispatcher(d.dispatcher) != actor
    case RecordFailure(d, _, _, _) => ADispatcher(d.dispatcher) != actor
    case DispatcherCrash(d) => ADispatcher(d) != actor
    case PurgeOutbox(id) => ACanceller(id) != actor
    case Reap(_, _, sweep) => ASweep(sweep) != actor
    case ReapProviderSession(_, sweep) => ASweep(sweep) != actor
    case ReapReply(_, sweep) => ASweep(sweep) != actor
    case AbandonReap(_, sweep) => ASweep(sweep) != actor
    case _ => true
  }

  class Database {
    var catalog: Catalog
    var runtime: Runtime
    var mail: Mail

    function View(): World
      reads this
    {
      World(catalog, runtime, mail)
    }

    constructor ()
      ensures View() == EMPTY
    {
      catalog, runtime, mail := EMPTY.catalog, EMPTY.runtime, EMPTY.mail;
    }

    /**
     Any number of steps of other actors. The body is only one history that the contract allows: a caller
     learns nothing but the contract, so what is proved about it holds for every such history.
     */
    method Interference(actor: Actor) returns (ghost run: seq<Step>)
      requires Sized(View())
      modifies this
      ensures View() == Exec(old(View()), run)
      ensures forall k :: 0 <= k < |run| ==> ByOthers(run[k], actor)
    {
      run := [];
    }

    // ---------- submitting transactions ----------

    method RollBack(saved: World)
      modifies this
      ensures View() == saved
    {
      catalog, runtime, mail := saved.catalog, saved.runtime, saved.mail;
    }

    method AcquireProviderSession(conversationId: Id, providerId: string, model: Option<string>) returns (id: Option<Id>)
      requires Sized(View())
      modifies this
      ensures var a := Acquire(old(catalog), old(runtime.sessionStatus), conversationId, providerId, model);
        && (id.None? <==> a.None?)
        && (id.Some? ==>
          && id.value == a.value.id && catalog == a.value.catalog
          && runtime == old(runtime).(sessionStatus := a.value.status) && mail == old(mail))
    {
      var latest := LatestProviderSession(catalog, conversationId, providerId);
      if latest.Some? && runtime.sessionStatus[latest.value] == SessionRunning {
        if catalog.providerSessions[latest.value].resolvedModel == model {
          return latest;
        }
        runtime := runtime.(sessionStatus := runtime.sessionStatus[latest.value := SessionCompleted]);
      }
      if OtherRunning(catalog, runtime.sessionStatus, conversationId, providerId, -1) {
        return None;
      }
      id := Some(|catalog.providerSessions|);
      catalog := catalog.(providerSessions := catalog.providerSessions + [ProviderSession(conversationId, providerId, model)]);
      runtime := runtime.(sessionStatus := runtime.sessionStatus + [SessionRunning]);
    }

    method CreateHandoffCapsule(conversationId: Id, plan: HandoffPlan, toProviderId: string, toModel: Option<string>)
      returns (id: Option<Id>)
      requires conversationId < |catalog.conversations|
      modifies this`catalog
      ensures catalog == AddHandoff(old(catalog), conversationId, plan, toProviderId, toModel)
      ensures id == if plan.NoHandoff? then None else Some(|old(catalog).handoffs|)
    {
      if plan.NoHandoff? {
        return None;
      }
      var conversation := catalog.conversations[conversationId];
      conversation := conversation.(handoffSequence := conversation.handoffSequence + 1);
      catalog := catalog.(conversations := catalog.conversations[conversationId := conversation]);
      id := Some(|catalog.handoffs|);
      catalog := catalog.(handoffs := catalog.handoffs +
        [Handoff(conversationId, plan.fromProviderId, toProviderId, plan.fromModel, toModel, conversation.handoffSequence)]);
    }

    /** The inserts both transactions end with; `false` when the outbox key is taken. */
    method InsertExecution(execution: Execution, plan: HandoffPlan, now: Time) returns (ok: bool)
      requires execution.conversationId < |catalog.conversations|
      modifies this
      ensures var enlisted := Enlist(old(View()), Acquired(old(catalog), old(runtime.sessionStatus), 0), execution, plan, now);
        && (ok <==> enlisted.Some?)
        && (ok ==> View() == enlisted.value)
    {
      var id := |catalog.executions|;
      catalog := catalog.(executions := catalog.executions + [execution]);
      runtime := runtime.(life := runtime.life + [QUEUED]);
      var routingId := |catalog.routing|;
      catalog := catalog.(routing := catalog.routing +
        [RoutingDecision(execution.conversationId, execution.userMessageId, execution.providerId)]);
      var capsule := CreateHandoffCapsule(execution.conversationId, plan, execution.providerId, execution.requestedModel);
      var job := Job(id, execution.taskId, execution.conversationId, execution.userMessageId, execution.providerId,
        routingId, execution.providerSessionId, capsule);
      if id in mail.outbox {
        return false;
      }
      mail := mail.(outbox := mail.outbox[id := OutboxRow(job, Pending, 0, now, now)]);
      ok := true;
    }

    method QueueConversationMessage(q: QueueInput) returns (result: Option<(Id, bool)>)
      requires Sized(View())
      modifies this
      ensures View() == Commit(old(View()), QueueTx(old(View()), q))
      ensures var c := QueueTx(old(View()), q);
        result == if c.None? then None else Some((c.value.executionId, c.value.duplicate))
    {
      var saved := View();
      if ProviderModeCapability(q.providerId, q.mode).None? || q.conversationId >= |catalog.conversations| {
        return None;
      }
      var conversation := catalog.conversations[q.conversationId];
      catalog := catalog.(conversations :=
        catalog.conversations[q.conversationId := conversation.(sequence := conversation.sequence + 1)]);
      var existing := FindMessage(catalog, q.conversationId, q.idempotencyKey);
      if existing.Some? {
        var original := ExecutionOf(catalog, existing.value);
        if original.None? {
          RollBack(saved);
          return None;
        }
        return Some((original.value, true));
      }
      var selection := ResolveModelSelection(q.providerId, q.defaults, q.requestedModel, q.requestedEffort);
      if selection.None? {
        RollBack(saved);
        return None;
      }
      var model := selection.value.model;
      var plan := PlanQueueHandoff(catalog, q, model);
      var capability := ResolveExecutionCapability(q.providerId, q.mode, Continued(catalog, q.conversationId, q.providerId, q.mode));
      var session := AcquireProviderSession(q.conversationId, q.providerId, model);
      if session.None? || capability.None? || plan.None? || (plan.value != NoHandoff && !q.handoffFits)
        || (q.taskId.Some? && q.taskId.value >= |catalog.tasks|)
      {
        RollBack(saved);
        return None;
      }
      var taskId := |catalog.tasks|;
      if q.taskId.Some? {
        taskId := q.taskId.value;
      } else {
        catalog := catalog.(tasks := catalog.tasks + [Task(q.projectId)]);
      }
      var messageId := |catalog.userMessages|;
      catalog := catalog.(userMessages := catalog.userMessages + [UserMessage(q.conversationId, q.mode, q.idempotencyKey)]);
      var id := |catalog.executions|;
      var ok := InsertExecution(
        Execution(q.projectId, taskId, q.providerId, q.conversationId, session.value, messageId, capability.value, model,
          selection.value.reasoningEffort, selection.value.modelSource),
        plan.value, q.now);
      if !ok {
        RollBack(saved);
        return None;
      }
      result := Some((id, false));
    }

    method RetryConversationExecution(r: RetryInput) returns (result: Option<(Id, bool)>)
      requires Sized(View())
      modifies this
      ensures View() == Commit(old(View()), RetryTx(old(View()), r))
      ensures var c := RetryTx(old(View()), r);
        result == if c.None? then None else Some((c.value.executionId, c.value.duplicate))
    {
      var saved := View();
      if r.executionId >= |catalog.executions| {
        return None;
      }
      var original := catalog.executions[r.executionId];
      if original.userMessageId >= |catalog.userMessages| || original.conversationId >= |catalog.conversations| {
        return None;
      }
      var mode := catalog.userMessages[original.userMessageId].mode;
      if !Retryable(runtime.life[r.executionId].state) || ProviderModeCapability(r.providerId, mode).None? {
        return None;
      }
      var active := FindActive(catalog, runtime.life, original.userMessageId, r.providerId);
      if active.Some? {
        return Some((active.value, true));
      }
      var explicitModel, explicitEffort := None, None;
      if r.providerId == original.providerId {
        explicitModel, explicitEffort := original.requestedModel, original.reasoningEffort;
      }
      var selection := ResolveModelSelection(r.providerId, r.defaults, explicitModel, explicitEffort);
      if selection.None? {
        return None;
      }
      var model := selection.value.model;
      var plan := PlanRetryHandoff(View(), original, r.providerId, model);
      var capability := ResolveExecutionCapability(
        r.providerId, mode, Continued(catalog, original.conversationId, r.providerId, mode));
      var session := AcquireProviderSession(original.conversationId, r.providerId, model);
      if session.None? || capability.None? || plan.None? || (plan.value != NoHandoff && !r.handoffFits) {
        RollBack(saved);
        return None;
      }
      var id := |catalog.executions|;
      var ok := InsertExecution(
        original.(providerId := r.providerId, providerSessionId := session.value, capability := capability.value,
          requestedModel := model, reasoningEffort := selection.value.reasoningEffort,
          modelSource := selection.value.modelSource),
        plan.value, r.now);
      if !ok {
        RollBack(saved);
        return None;
      }
      result := Some((id, false));
    }

    // ---------- leases ----------

    method ClaimAgentSession(job: Job, worker: WorkerId, now: Time, leaseMs: int) returns (claimed: bool)
      requires Sized(View()) && job in mail.waiting
      modifies this
      ensures View() == Apply(old(View()), Claim(job, worker, now, leaseMs))
      ensures claimed <==> Starts(old(View()), Claim(job, worker, now, leaseMs), job.sessionId)
    {
      var id := job.sessionId;
      claimed := id < |runtime.life| && runtime.life[id].state == Queued;
      if claimed {
        runtime := runtime.(
          life := runtime.life[id := Life(Starting, Some(worker), Some(now + leaseMs))],
          turns := runtime.turns[id := NewTurn(worker, job)]);
      }
    }

    method RenewLease(id: Id, worker: WorkerId, now: Time, leaseMs: int)
      requires Sized(View())
      modifies this
      ensures View() == Apply(old(View()), Heartbeat(id, worker, now, leaseMs))
    {
      if id < |runtime.life| && runtime.life[id].worker == Some(worker) && InProgress(runtime.life[id].state) {
        runtime := runtime.(life := runtime.life[id := runtime.life[id].(lease := Some(now + leaseMs))]);
      }
    }
  }
}
