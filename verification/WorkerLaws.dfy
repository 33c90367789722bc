/**
 What the writes of a worker and of a sweep change, in every reachable world
 (apps/worker/src/conversation-worker.ts and worker-lease.ts).
 */
module WorkerLaws {
  import opened Wrappers
  import opened Tables
  import opened Submission
  import opened Validation
  import opened Protocol
  import opened CatalogSafety
  import opened LifecycleSafety

  /** The execution is in progress and this worker's. */
  predicate Owns(w: World, id: Id, worker: WorkerId) {
    && id < |w.runtime.life| && w.runtime.life[id].worker == Some(worker)
    && (w.runtime.life[id].state == Starting || w.runtime.life[id].state == Running)
  }

  /** Nothing but this execution's row has changed. */
  predicate OnlyRow(w: World, w': World, id: Id, l: Life) {
    && id < |w.runtime.life|
    && w' == w.(runtime := w.runtime.(life := w.runtime.life[id := l]))
  }

  // ---------- fenced writes ----------

  /** A heartbeat renews the owner's lease from its own reading of the time, and nobody else's. */
  lemma HeartbeatIff(w: World, id: Id, worker: WorkerId, now: Time, leaseMs: int)
    requires Sized(w)
    ensures var w' := Apply(w, Heartbeat(id, worker, now, leaseMs));
      if Owns(w, id, worker)
      then OnlyRow(w, w', id, Life(w.runtime.life[id].state, Some(worker), Some(now + leaseMs)))
      else w' == w
  {
  }

  /** A process is recorded, and the execution RUNNING, exactly for its owner and provider. */
  lemma ProcessStartedIff(w: World, id: Id, providerId: string, worker: WorkerId, process: OwnedProcess)
    requires Sized(w)
    ensures var w' := Apply(w, ProcessStarted(id, providerId, worker, process));
      if Owns(w, id, worker) && w.catalog.executions[id].providerId == providerId
      then
        && OnlyRow(w, w'.(runtime := w'.runtime.(processes := w.runtime.processes)), id, w.runtime.life[id].(state := Running))
        && w'.runtime.processes == w.runtime.processes[id := process]
      else w' == w
  {
  }

  /** Losing the ownership of the process fails exactly the owner's execution. */
  lemma OwnershipFailedIff(w: World, id: Id, providerId: string, worker: WorkerId)
    requires Sized(w)
    ensures var w' := Apply(w, OwnershipFailed(id, providerId, worker));
      if Owns(w, id, worker) && w.catalog.executions[id].providerId == providerId
      then OnlyRow(w, w', id, Life(Failed, None, None)) else w' == w
  {
  }

  /** The cross-check: accepted, the turn begins; rejected, a STARTING execution of this worker fails. */
  lemma CrossCheckDecides(w: World, id: Id)
    requires Sized(w) && id in w.runtime.turns && w.runtime.turns[id].stage == Validating
    ensures var t := w.runtime.turns[id];
      var w' := Apply(w, CheckJob(id));
      var verdict := Validate(w.catalog, t.job);
      && w'.catalog == w.catalog && w'.mail == w.mail && w'.runtime.replies == w.runtime.replies
      && w'.runtime.turns == w.runtime.turns[id := t.(stage := if verdict == Accepted then InTurn else Abandoned)]
      && w'.runtime.life ==
           if verdict.Rejected? && Owns(w, id, t.worker) && w.runtime.life[id].state == Starting
           then w.runtime.life[id := Life(Failed, None, None)] else w.runtime.life
  {
    assert Apply(w, CheckJob(id)) == DoCheckJob(w, id);
  }

  /** The termination's write releases the row exactly when it still is the worker's, and, for a timeout, in progress. */
  lemma TerminationWritesIff(w: World, id: Id)
    requires Sized(w) && id in w.runtime.turns && w.runtime.turns[id].termination.Requested? && id < |w.runtime.life|
    ensures var t := w.runtime.turns[id];
      var target := t.termination.target;
      var w' := Apply(w, WriteTermination(id));
      && w'.runtime.turns == w.runtime.turns[id := t.(termination := Written(target))]
      && w'.catalog == w.catalog && w'.mail == w.mail
      && w'.runtime.life ==
           if w.runtime.life[id].worker == Some(t.worker) && (target == TimedOut ==> Owns(w, id, t.worker))
           then w.runtime.life[id := Life(target, None, None)] else w.runtime.life
  {
    assert Apply(w, WriteTermination(id)) == DoWriteTermination(w, id);
  }

  /**
   A timer asks for a timeout exactly while its turn runs, or, for inactivity, after a turn whose stream still runs;
   and only as the first request of the turn.
   */
  lemma TimerAsksIff(run: seq<Step>, id: Id, code: TimeoutCode)
    requires id in Exec(EMPTY, run).runtime.turns
    ensures var w := Exec(EMPTY, run);
      var w' := Apply(w, Timer(id, code));
      var t := w.runtime.turns[id];
      if t.termination == NotRequested && (t.stage == InTurn || (t.stage.Ended? && t.draining && code == Inactivity))
      then
        w' == w.(runtime := w.runtime.(turns :=
          w.runtime.turns[id := t.(timeoutCode := Some(code), termination := Requested(TimedOut))]))
      else w' == w
  {
    RunInv(EMPTY, run);
    TimerAsks(Exec(EMPTY, run), id, code);
  }

  lemma TimerAsks(w: World, id: Id, code: TimeoutCode)
    requires Inv(w) && id in w.runtime.turns
    ensures var t := w.runtime.turns[id];
      Apply(w, Timer(id, code)) ==
        if t.termination == NotRequested && (t.stage == InTurn || (t.stage.Ended? && t.draining && code == Inactivity))
        then
          w.(runtime := w.runtime.(turns :=
            w.runtime.turns[id := t.(timeoutCode := Some(code), termination := Requested(TimedOut))]))
        else w
  {
    assert Apply(w, Timer(id, code)) == DoTimer(w, id, code);
    assert TurnSound(w.runtime, id);
    assert w.runtime.turns[id := w.runtime.turns[id]] == w.runtime.turns;
  }

  /** A turn ends exactly when it runs and no termination is pending; a stream is left behind only by one that raised. */
  lemma TurnEndsIff(w: World, id: Id, raised: bool, rejected: bool, draining: bool)
    requires Sized(w) && id in w.runtime.turns
    ensures var t := w.runtime.turns[id];
      var w' := Apply(w, EndTurn(id, raised, rejected, draining));
      if t.stage == InTurn && !t.termination.Requested?
      then
        && w'.runtime.turns.Keys == w.runtime.turns.Keys && w'.runtime.turns[id].stage.Ended?
        && (w'.runtime.turns[id].draining <==> raised && draining)
        && w'.runtime.turns[id].(stage := t.stage, draining := t.draining) == t
        && w'.runtime.(turns := w.runtime.turns) == w.runtime
      else w' == w
  {
  }

  // ---------- finalizing ----------

  /** The session of the execution, in every reachable world. */
  lemma SessionExists(w: World, id: Id)
    requires CatalogInv(w) && id < |w.catalog.executions|
    ensures w.catalog.executions[id].providerSessionId < |w.runtime.sessionStatus|
  {
    assert Linked(w.catalog, w.catalog.executions[id]);
  }

  /** What a finalizer, or a sweep, has written: the row, one reply at the end, and the session's status. */
  predicate Finished(w: World, w': World, id: Id, state: State, completed: bool, status: SessionStatus) {
    && id < |w.runtime.life| && id < |w.catalog.executions|
    && var e := w.catalog.executions[id];
    && e.providerSessionId < |w.runtime.sessionStatus|
    && w' == w.(runtime := w.runtime.(
         life := w.runtime.life[id := Life(state, None, None)],
         replies := w.runtime.replies + [Reply(id, e.conversationId, e.providerId, completed)],
         sessionStatus := w.runtime.sessionStatus[e.providerSessionId := status]))
  }

  predicate AnotherRuns(w: World, id: Id) {
    && id < |w.catalog.executions|
    && var e := w.catalog.executions[id];
    exists i :: 0 <= i < |w.runtime.sessionStatus| && i < |w.catalog.providerSessions| && i != e.providerSessionId
      && w.runtime.sessionStatus[i] == SessionRunning
      && w.catalog.providerSessions[i].conversationId == e.conversationId
      && w.catalog.providerSessions[i].providerId == e.providerId
  }

  /** An execution in progress has no reply yet. */
  lemma NoReplyYet(w: World, id: Id, worker: WorkerId)
    requires Inv(w) && Owns(w, id, worker)
    ensures !HasReply(w.runtime.replies, id)
  {
  }

  /**
   The success finalizer commits, in every reachable world, exactly for an answered turn whose execution is RUNNING
   and still its worker's, unless another session of the pair runs; then the turn raises an error instead.
   */
  lemma SuccessFinalizesIff(run: seq<Step>, id: Id)
    requires var r := Exec(EMPTY, run).runtime; id in r.turns && r.turns[id].stage == Ended(Answered)
    ensures var w := Exec(EMPTY, run);
      var w' := Apply(w, FinalizeSuccess(id));
      var t := w.runtime.turns[id];
      if !Owns(w, id, t.worker) || w.runtime.life[id].state != Running then w' == w
      else if AnotherRuns(w, id) then
        w' == w.(runtime := w.runtime.(turns := w.runtime.turns[id := t.(stage := Ended(ErrorRaised))]))
      else Finished(w, w', id, Succeeded, true, SessionRunning)
  {
    RunInv(EMPTY, run);
    RunCatalog(EMPTY, run);
    SuccessFinalizes(Exec(EMPTY, run), id);
  }

  lemma SuccessFinalizes(w: World, id: Id)
    requires Inv(w) && CatalogInv(w) && id in w.runtime.turns && w.runtime.turns[id].stage == Ended(Answered)
    ensures var w' := Apply(w, FinalizeSuccess(id));
      var t := w.runtime.turns[id];
      if !Owns(w, id, t.worker) || w.runtime.life[id].state != Running then w' == w
      else if AnotherRuns(w, id) then
        w' == w.(runtime := w.runtime.(turns := w.runtime.turns[id := t.(stage := Ended(ErrorRaised))]))
      else Finished(w, w', id, Succeeded, true, SessionRunning)
  {
    var t := w.runtime.turns[id];
    assert Apply(w, FinalizeSuccess(id)) == DoFinalizeSuccess(w, id);
    if Owns(w, id, t.worker) && w.runtime.life[id].state == Running {
      NoReplyYet(w, id, t.worker);
      SessionExists(w, id);
      assert AnotherRuns(w, id) <==> SuccessConflicts(w, id);
    }
  }

  /** The failure finalizer commits exactly for a turn that raised, whose execution is in progress and its worker's. */
  lemma FailureFinalizesIff(run: seq<Step>, id: Id)
    requires var r := Exec(EMPTY, run).runtime;
      id in r.turns && r.turns[id].stage.Ended? && r.turns[id].stage.outcome != Answered
    ensures var w := Exec(EMPTY, run);
      var w' := Apply(w, FinalizeFailure(id));
      if Owns(w, id, w.runtime.turns[id].worker) then Finished(w, w', id, Failed, false, SessionFailed) else w' == w
  {
    RunInv(EMPTY, run);
    RunCatalog(EMPTY, run);
    FailureFinalizes(Exec(EMPTY, run), id);
  }

  lemma FailureFinalizes(w: World, id: Id)
    requires Inv(w) && CatalogInv(w)
    requires id in w.runtime.turns && w.runtime.turns[id].stage.Ended? && w.runtime.turns[id].stage.outcome != Answered
    ensures var w' := Apply(w, FinalizeFailure(id));
      if Owns(w, id, w.runtime.turns[id].worker) then Finished(w, w', id, Failed, false, SessionFailed) else w' == w
  {
    var t := w.runtime.turns[id];
    assert Apply(w, FinalizeFailure(id)) == DoFinalizeFailure(w, id);
    if Owns(w, id, t.worker) {
      NoReplyYet(w, id, t.worker);
      SessionExists(w, id);
      assert TurnSound(w.runtime, id);
    }
  }

  /**
   A sweep's three writes, with nobody in between: the expired execution is FAILED, has a FAILED reply, and its
   session is FAILED, just as if its worker had failed it.
   */
  lemma SweepFinishesLikeFailure(run: seq<Step>, id: Id, now: Time, sweep: SweepId)
    requires id < |Exec(EMPTY, run).runtime.life| && Expired(Exec(EMPTY, run).runtime.life[id], now)
    ensures var w := Exec(EMPTY, run);
      var w' := Apply(Apply(Apply(w, Reap(id, now, sweep)), ReapProviderSession(id, sweep)), ReapReply(id, sweep));
      Finished(w, w'.(runtime := w'.runtime.(reaped := w.runtime.reaped)), id, Failed, false, SessionFailed)
  {
    RunInv(EMPTY, run);
    RunCatalog(EMPTY, run);
    SweepFinishes(Exec(EMPTY, run), id, now, sweep);
  }

  lemma SweepFinishes(w: World, id: Id, now: Time, sweep: SweepId)
    requires Inv(w) && CatalogInv(w) && id < |w.runtime.life| && Expired(w.runtime.life[id], now)
    ensures var w' := Apply(Apply(Apply(w, Reap(id, now, sweep)), ReapProviderSession(id, sweep)), ReapReply(id, sweep));
      Finished(w, w'.(runtime := w'.runtime.(reaped := w.runtime.reaped)), id, Failed, false, SessionFailed)
  {
    SessionExists(w, id);
    assert !HasReply(w.runtime.replies, id);
    var w1 := DoReap(w, id, now, sweep);
    var w2 := DoReapProviderSession(w1, id, sweep);
    SweepSteps(w, id, now, sweep);
    assert DoReapReply(w2, id, sweep).runtime.replies == w.runtime.replies + [ReplyOf(w, id, false)];
  }

  lemma SweepSteps(w: World, id: Id, now: Time, sweep: SweepId)
    requires Sized(w)
    ensures Apply(Apply(Apply(w, Reap(id, now, sweep)), ReapProviderSession(id, sweep)), ReapReply(id, sweep)) ==
      DoReapReply(DoReapProviderSession(DoReap(w, id, now, sweep), id, sweep), id, sweep)
  {
    assert Apply(w, Reap(id, now, sweep)) == DoReap(w, id, now, sweep);
  }

  // ---------- processes ----------

  /** Every RUNNING execution has a recorded process. */
  ghost predicate RunningHasProcess(r: Runtime) {
    forall i :: 0 <= i < |r.life| && r.life[i].state == Running ==> i in r.processes
  }

  /** Processes stay recorded, and only a start makes an execution RUNNING. */
  ghost predicate KeepsProcesses(r: Runtime, r': Runtime) {
    && (forall i :: i in r.processes ==> i in r'.processes)
    && forall i :: 0 <= i < |r'.life| && r'.life[i].state == Running ==>
         i in r'.processes || (i < |r.life| && r.life[i].state == Running)
  }

  lemma SubmissionKeepsProcesses(w: World, c: Option<Committed>)
    requires c.Some? ==> AddsQueued(w, c.value.world) && c.value.world.runtime.processes == w.runtime.processes
    ensures KeepsProcesses(w.runtime, Commit(w, c).runtime)
  {
  }

  lemma QueueProcesses(w: World, q: QueueInput)
    requires Sized(w)
    ensures QueueTx(w, q).Some? ==> QueueTx(w, q).value.world.runtime.processes == w.runtime.processes
  {
  }

  lemma RetryProcesses(w: World, r: RetryInput)
    requires Sized(w)
    ensures RetryTx(w, r).Some? ==> RetryTx(w, r).value.world.runtime.processes == w.runtime.processes
  {
  }

  lemma RowKeepsProcesses(w: World, s: Step)
    requires Inv(w) && OnRow(s)
    ensures KeepsProcesses(w.runtime, Apply(w, s).runtime)
  {
    match s
    case CheckJob(id) =>
      assert Apply(w, s) == DoCheckJob(w, id);
      CheckKeepsProcesses(w, id);
    case WriteTermination(id) =>
      assert Apply(w, s) == DoWriteTermination(w, id);
      TerminationKeepsProcesses(w, id);
    case Claim(job, worker, now, leaseMs) => assert Apply(w, s) == DoClaim(w, job, worker, now, leaseMs);
    case ProcessStarted(id, providerId, worker, process) =>
      assert Apply(w, s) == DoProcessStarted(w, id, providerId, worker, process);
      StartKeepsProcesses(w, id, providerId, worker, process);
    case _ => PlainRowKeepsProcesses(w, s);
  }

  lemma PlainRowKeepsProcesses(w: World, s: Step)
    requires Sized(w) && (s.Cancel? || s.Heartbeat? || s.OwnershipFailed? || s.Reap?)
    ensures KeepsProcesses(w.runtime, Apply(w, s).runtime)
  {
  }

  lemma CheckKeepsProcesses(w: World, id: Id)
    requires Sized(w)
    ensures KeepsProcesses(w.runtime, DoCheckJob(w, id).runtime)
  {
  }

  lemma StartKeepsProcesses(w: World, id: Id, providerId: string, worker: WorkerId, process: OwnedProcess)
    requires Sized(w)
    ensures KeepsProcesses(w.runtime, DoProcessStarted(w, id, providerId, worker, process).runtime)
  {
  }

  lemma TerminationKeepsProcesses(w: World, id: Id)
    requires Inv(w)
    ensures KeepsProcesses(w.runtime, DoWriteTermination(w, id).runtime)
  {
    if id in w.runtime.turns {
      assert TurnSound(w.runtime, id);
    }
  }

  lemma OtherKeepsProcesses(w: World, s: Step)
    requires Sized(w) && !OnRow(s) && !s.Queue? && !s.Retry?
    ensures KeepsProcesses(w.runtime, Apply(w, s).runtime)
  {
  }

  lemma StepKeepsProcesses(w: World, s: Step)
    requires Inv(w)
    ensures KeepsProcesses(w.runtime, Apply(w, s).runtime)
  {
    if s.Queue? {
      QueueLife(w, s.q);
      QueueProcesses(w, s.q);
      SubmissionKeepsProcesses(w, QueueTx(w, s.q));
    } else if s.Retry? {
      RetryLife(w, s.r);
      RetryProcesses(w, s.r);
      SubmissionKeepsProcesses(w, RetryTx(w, s.r));
    } else if OnRow(s) {
      RowKeepsProcesses(w, s);
    } else {
      OtherKeepsProcesses(w, s);
    }
  }

  lemma {:induction false} RunRunningHasProcess(w: World, run: seq<Step>)
    requires Inv(w) && RunningHasProcess(w.runtime)
    ensures RunningHasProcess(Exec(w, run).runtime)
    decreases |run|
  {
    if run != [] {
      StepKeepsProcesses(w, run[0]);
      StepInv(w, run[0]);
      RunRunningHasProcess(Apply(w, run[0]), run[1..]);
    }
  }
}
