/**
 Fencing, absorption and replies: what every interleaving of the protocol keeps
 about one execution's state, its owner and its assistant message.
 */
module LifecycleSafety {
  import opened Wrappers
  import opened Tables
  import opened Submission
  import opened Validation
  import opened Protocol

  // ---------- the invariant ----------

  /** A worker and a lease sit on a row in progress, or on one the cancel route took from its worker. */
  ghost predicate Owned(r: Runtime, i: Id)
    requires i < |r.life|
  {
    var l := r.life[i];
    && (l.worker.Some? <==> l.lease.Some?)
    && (l.state == Queued ==> l.worker.None? && i !in r.turns)
    && (InProgress(l.state) ==> l.worker.Some?)
    && (Terminal(l.state) && l.worker.Some? ==> l.state == Cancelled)
    && (l.worker.Some? ==> i in r.turns && r.turns[i].worker == l.worker.value)
  }

  ghost predicate OutcomeJustified(t: Turn) {
    t.stage.Ended? ==>
      match t.stage.outcome
      case CancelRaised => t.cancellationRequested && t.termination.Written?
      case TimeoutRaised(code) => t.timeoutCode == Some(code) && t.termination == Written(TimedOut)
      case Answered => true
      case ErrorRaised => true
  }

  /** What a worker's locals say about the shared row. */
  ghost predicate TurnSound(r: Runtime, i: Id)
    requires i in r.turns && i < |r.life|
  {
    var t := r.turns[i];
    var l := r.life[i];
    && (t.cancellationRequested ==> l.state == Cancelled && t.termination != NotRequested)
    && (t.termination != NotRequested ==>
         t.termination.target == if t.timeoutCode.Some? then TimedOut else Cancelled)
    && (t.termination == NotRequested ==> t.timeoutCode.None?)
    && (t.termination != NotRequested && t.timeoutCode.None? ==> t.cancellationRequested)
    && (t.termination.Written? ==> !InProgress(l.state))
    && (t.termination == Written(Cancelled) ==> l.worker.None?)
    && OutcomeJustified(t)
  }

  ghost predicate RepliesSound(r: Runtime) {
    && (forall k :: 0 <= k < |r.replies| ==>
        && r.replies[k].executionId < |r.life|
        && r.life[r.replies[k].executionId].state == (if r.replies[k].completed then Succeeded else Failed))
    && (forall j, k :: 0 <= j < k < |r.replies| ==> r.replies[j].executionId != r.replies[k].executionId)
    && (forall i :: 0 <= i < |r.life| && r.life[i].state == Succeeded ==> HasReply(r.replies, i))
  }

  ghost predicate RuntimeInv(r: Runtime) {
    && (forall i :: i in r.turns ==> i < |r.life| && TurnSound(r, i))
    && (forall i :: 0 <= i < |r.life| ==> Owned(r, i))
    && RepliesSound(r)
    && (forall i :: i in r.reaped ==> i < |r.life| && r.life[i].state == Failed)
    && (forall i :: i in r.purging ==> i < |r.life| && r.life[i].state == Cancelled)
  }

  ghost predicate Inv(w: World) {
    Sized(w) && RuntimeInv(w.runtime)
  }

  // ---------- what one step may do to one row ----------

  /** Progress only goes QUEUED, STARTING, RUNNING, terminal, and a terminal state is final. */
  predicate Forward(a: State, b: State) {
    || a == b
    || (a == Queued && (b == Starting || b == Cancelled))
    || (a == Starting && (b == Running || Terminal(b)))
    || (a == Running && Terminal(b))
  }

  /** Every old row moves forward and no row disappears. */
  ghost predicate RowsForward(w: World, w': World) {
    && |w.runtime.life| <= |w'.runtime.life|
    && (forall i :: 0 <= i < |w.runtime.life| ==> Forward(w.runtime.life[i].state, w'.runtime.life[i].state))
    && (forall i :: |w.runtime.life| <= i < |w'.runtime.life| ==> w'.runtime.life[i] == QUEUED)
  }

  /** A row that the step finishes is left without owner and lease. */
  ghost predicate ReleasesFinished(w: World, w': World) {
    forall i :: 0 <= i < |w.runtime.life| && i < |w'.runtime.life| ==>
      !Terminal(w.runtime.life[i].state) && Terminal(w'.runtime.life[i].state) ==> w'.runtime.life[i].worker.None?
  }

  lemma StepForward(w: World, s: Step)
    requires Inv(w)
    ensures RowsForward(w, Apply(w, s))
  {
    if OnRow(s) {
      RowForward(w, s);
    } else if s.Queue? {
      CommitLife(w, QueueTx(w, s.q)) by { QueueLife(w, s.q); }
    } else if s.Retry? {
      CommitLife(w, RetryTx(w, s.r)) by { RetryLife(w, s.r); }
    } else if s.FinalizeSuccess? || s.FinalizeFailure? {
      assert Apply(w, s) == if s.FinalizeSuccess? then DoFinalizeSuccess(w, s.id) else DoFinalizeFailure(w, s.id);
      FinalizeForward(w, s.id);
    } else {
      RowsUntouched(w, s);
    }
  }

  lemma RowForward(w: World, s: Step)
    requires Inv(w) && OnRow(s)
    ensures RowsForward(w, Apply(w, s))
  {
    match s
    case Cancel(id) =>
      assert Apply(w, s) == DoCancel(w, id);
      CancelForward(w, id);
    case Claim(job, worker, now, leaseMs) =>
      assert Apply(w, s) == DoClaim(w, job, worker, now, leaseMs);
      ClaimForward(w, job, worker, now, leaseMs);
    case Heartbeat(id, worker, now, leaseMs) =>
      assert Apply(w, s) == DoHeartbeat(w, id, worker, now, leaseMs);
      HeartbeatForward(w, id, worker, now, leaseMs);
    case CheckJob(id) =>
      assert Apply(w, s) == DoCheckJob(w, id);
      CheckJobForward(w, id);
    case ProcessStarted(id, providerId, worker, process) =>
      assert Apply(w, s) == DoProcessStarted(w, id, providerId, worker, process);
      StartForward(w, id, providerId, worker, process);
    case OwnershipFailed(id, providerId, worker) =>
      assert Apply(w, s) == DoOwnershipFailed(w, id, providerId, worker);
      OwnershipForward(w, id, providerId, worker);
    case WriteTermination(id) =>
      assert Apply(w, s) == DoWriteTermination(w, id);
      TerminationForward(w, id);
    case Reap(id, now, sweep) =>
      assert Apply(w, s) == DoReap(w, id, now, sweep);
      ReapForward(w, id, now, sweep);
  }

  /** Steps that write no AgentSession row. */
  predicate LeavesRows(s: Step) {
    || s.CreateConversation? || s.CreateTask? || s.PurgeOutbox? || s.ClaimRow? || s.Publish? || s.RecordPublished?
    || s.RecordFailure? || s.DispatcherCrash? || s.Recover? || s.SpendJob? || s.TrimJob?
    || s.PollCancellation? || s.PollReturns? || s.Timer? || s.LoseTermination? || s.EndTurn?
    || s.ReapProviderSession? || s.ReapReply? || s.AbandonReap?
  }

  lemma RowsUntouched(w: World, s: Step)
    requires Sized(w) && LeavesRows(s)
    ensures Apply(w, s).runtime.life == w.runtime.life
  {
  }

  lemma CancelForward(w: World, id: Id)
    requires Sized(w)
    ensures RowsForward(w, DoCancel(w, id))
  {
  }

  lemma ClaimForward(w: World, job: Job, worker: WorkerId, now: Time, leaseMs: int)
    requires Sized(w)
    ensures RowsForward(w, DoClaim(w, job, worker, now, leaseMs))
    ensures ReleasesFinished(w, DoClaim(w, job, worker, now, leaseMs))
  {
  }

  lemma HeartbeatForward(w: World, id: Id, worker: WorkerId, now: Time, leaseMs: int)
    requires Sized(w)
    ensures RowsForward(w, DoHeartbeat(w, id, worker, now, leaseMs))
    ensures ReleasesFinished(w, DoHeartbeat(w, id, worker, now, leaseMs))
  {
  }

  lemma CheckJobForward(w: World, id: Id)
    requires Sized(w)
    ensures RowsForward(w, DoCheckJob(w, id)) && ReleasesFinished(w, DoCheckJob(w, id))
  {
  }

  lemma StartForward(w: World, id: Id, providerId: string, worker: WorkerId, process: OwnedProcess)
    requires Sized(w)
    ensures RowsForward(w, DoProcessStarted(w, id, providerId, worker, process))
    ensures ReleasesFinished(w, DoProcessStarted(w, id, providerId, worker, process))
  {
  }

  lemma OwnershipForward(w: World, id: Id, providerId: string, worker: WorkerId)
    requires Sized(w)
    ensures RowsForward(w, DoOwnershipFailed(w, id, providerId, worker)) && ReleasesFinished(w, DoOwnershipFailed(w, id, providerId, worker))
  {
  }

  lemma FinalizeForward(w: World, id: Id)
    requires Sized(w)
    ensures RowsForward(w, DoFinalizeSuccess(w, id)) && ReleasesFinished(w, DoFinalizeSuccess(w, id))
    ensures RowsForward(w, DoFinalizeFailure(w, id)) && ReleasesFinished(w, DoFinalizeFailure(w, id))
  {
  }

  lemma ReapForward(w: World, id: Id, now: Time, sweep: SweepId)
    requires Sized(w)
    ensures RowsForward(w, DoReap(w, id, now, sweep)) && ReleasesFinished(w, DoReap(w, id, now, sweep))
  {
  }

  lemma TerminationForward(w: World, id: Id)
    requires Inv(w)
    ensures RowsForward(w, DoWriteTermination(w, id)) && ReleasesFinished(w, DoWriteTermination(w, id))
  {
    if id in w.runtime.turns && Exists(w, id) {
      assert TurnSound(w.runtime, id) && Owned(w.runtime, id);
    }
  }

  /** The submitting transactions touch the runtime only by adding a queued row and changing session statuses. */
  ghost predicate AddsQueued(w: World, w': World) {
    && (w'.runtime.life == w.runtime.life || w'.runtime.life == w.runtime.life + [QUEUED])
    && w'.runtime == w.runtime.(life := w'.runtime.life, sessionStatus := w'.runtime.sessionStatus)
  }

  lemma QueueLife(w: World, q: QueueInput)
    requires Sized(w)
    ensures QueueTx(w, q).Some? ==> AddsQueued(w, QueueTx(w, q).value.world)
  {
  }

  lemma RetryLife(w: World, r: RetryInput)
    requires Sized(w)
    ensures RetryTx(w, r).Some? ==> AddsQueued(w, RetryTx(w, r).value.world)
  {
  }

  lemma CommitLife(w: World, c: Option<Committed>)
    requires Sized(w) && (c.Some? ==> Sized(c.value.world) && AddsQueued(w, c.value.world))
    ensures RowsForward(w, Commit(w, c))
  {
  }

  lemma InvSubmission(w: World, s: Step)
    requires Inv(w) && (s.Queue? || s.Retry? || s.CreateConversation? || s.CreateTask?)
    ensures Inv(Apply(w, s))
  {
    if s.Queue? { QueueLife(w, s.q); }
    if s.Retry? { RetryLife(w, s.r); }
    var r, r' := w.runtime, Apply(w, s).runtime;
    forall i | i in r'.turns ensures i < |r'.life| && TurnSound(r', i) { assert TurnSound(r, i); }
    forall i | 0 <= i < |r'.life| ensures Owned(r', i) { if i < |r.life| { assert Owned(r, i); } }
  }

  lemma InvMail(w: World, s: Step)
    requires Inv(w)
    requires s.ClaimRow? || s.Publish? || s.RecordPublished? || s.RecordFailure? || s.DispatcherCrash? || s.Recover?
      || s.SpendJob? || s.TrimJob? || s.PurgeOutbox? || s.ReapProviderSession?
    ensures Inv(Apply(w, s))
  {
    var r, r' := w.runtime, Apply(w, s).runtime;
    forall i | i in r'.turns ensures i < |r'.life| && TurnSound(r', i) { assert TurnSound(r, i); }
    forall i | 0 <= i < |r'.life| ensures Owned(r', i) { assert Owned(r, i); }
  }

  /** One row changes: enough for the invariant. */
  lemma RowChange(r: Runtime, id: Id, l: Life)
    requires RuntimeInv(r) && id < |r.life|
    requires l.state != Queued && (l.state == r.life[id].state || (!Terminal(r.life[id].state) && l.state != Succeeded))
    requires InProgress(l.state) ==> InProgress(r.life[id].state)
    requires l.worker.Some? ==> l.worker == r.life[id].worker
    requires Owned(r.(life := r.life[id := l]), id)
    ensures RuntimeInv(r.(life := r.life[id := l]))
  {
    var r' := r.(life := r.life[id := l]);
    forall i | i in r'.turns ensures i < |r'.life| && TurnSound(r', i) { assert TurnSound(r, i); }
    forall i | 0 <= i < |r'.life| ensures Owned(r', i) { assert Owned(r, i); }
    assert RepliesSound(r') by {
      forall k | 0 <= k < |r'.replies|
        ensures r'.life[r'.replies[k].executionId].state == (if r'.replies[k].completed then Succeeded else Failed)
      {
        assert r.replies[k].executionId < |r.life|;
      }
      forall i | 0 <= i < |r'.life| && r'.life[i].state == Succeeded ensures HasReply(r'.replies, i) {
        assert HasReply(r.replies, i);
      }
    }
  }

  /** One worker's locals change. */
  lemma TurnChange(r: Runtime, id: Id, t: Turn)
    requires RuntimeInv(r) && id in r.turns && id < |r.life|
    requires t.worker == r.turns[id].worker
    requires TurnSound(r.(turns := r.turns[id := t]), id)
    ensures RuntimeInv(r.(turns := r.turns[id := t]))
  {
    var r' := r.(turns := r.turns[id := t]);
    forall i | i in r'.turns ensures i < |r'.life| && TurnSound(r', i) { assert i in r.turns; assert TurnSound(r, i); }
    forall i | 0 <= i < |r'.life| ensures Owned(r', i) { assert Owned(r, i); }
  }

  /** The pending work of routes and reapers changes. */
  lemma SideSets(r: Runtime, r': Runtime)
    requires RuntimeInv(r) && r' == r.(purging := r'.purging, reaped := r'.reaped, processes := r'.processes)
    requires forall i :: i in r'.reaped ==> i < |r'.life| && r'.life[i].state == Failed
    requires forall i :: i in r'.purging ==> i < |r'.life| && r'.life[i].state == Cancelled
    ensures RuntimeInv(r')
  {
    forall i | i in r'.turns ensures i < |r'.life| && TurnSound(r', i) { assert TurnSound(r, i); }
    forall i | 0 <= i < |r'.life| ensures Owned(r', i) { assert Owned(r, i); }
  }

  lemma InvCancel(w: World, id: Id)
    requires Inv(w)
    ensures Inv(DoCancel(w, id))
  {
    if Exists(w, id) && Active(w.runtime.life[id].state) {
      assert Owned(w.runtime, id);
      var l := w.runtime.life[id].(state := Cancelled);
      RowChange(w.runtime, id, l);
      SideSets(w.runtime.(life := w.runtime.life[id := l]), DoCancel(w, id).runtime);
    }
  }

  lemma InvClaim(w: World, job: Job, worker: WorkerId, now: Time, leaseMs: int)
    requires Inv(w)
    ensures Inv(DoClaim(w, job, worker, now, leaseMs))
  {
    var id := job.sessionId;
    if job in w.mail.waiting && Exists(w, id) && w.runtime.life[id].state == Queued {
      var r, r' := w.runtime, DoClaim(w, job, worker, now, leaseMs).runtime;
      assert Owned(r, id);
      forall i | i in r'.turns ensures i < |r'.life| && TurnSound(r', i) {
        if i != id { assert i in r.turns; assert TurnSound(r, i); }
      }
      forall i | 0 <= i < |r'.life| ensures Owned(r', i) { assert Owned(r, i); }
      assert RepliesSound(r') by {
        forall i | 0 <= i < |r'.life| && r'.life[i].state == Succeeded ensures HasReply(r'.replies, i) {
          assert HasReply(r.replies, i);
        }
      }
    }
  }

  lemma InvHeartbeat(w: World, id: Id, worker: WorkerId, now: Time, leaseMs: int)
    requires Inv(w)
    ensures Inv(DoHeartbeat(w, id, worker, now, leaseMs))
  {
    if Holds(w, id, worker) {
      assert Owned(w.runtime, id);
      RowChange(w.runtime, id, w.runtime.life[id].(lease := Some(now + leaseMs)));
    }
  }

  lemma InvStarted(w: World, id: Id, providerId: string, worker: WorkerId, process: OwnedProcess)
    requires Inv(w)
    ensures Inv(DoProcessStarted(w, id, providerId, worker, process))
  {
    if HoldsFor(w, id, providerId, worker) {
      assert Owned(w.runtime, id);
      var l := w.runtime.life[id].(state := Running);
      RowChange(w.runtime, id, l);
      SideSets(w.runtime.(life := w.runtime.life[id := l]), DoProcessStarted(w, id, providerId, worker, process).runtime);
    }
  }

  lemma InvOwnership(w: World, id: Id, providerId: string, worker: WorkerId)
    requires Inv(w)
    ensures Inv(DoOwnershipFailed(w, id, providerId, worker))
  {
    if HoldsFor(w, id, providerId, worker) {
      RowChange(w.runtime, id, Released(Failed));
    }
  }

  lemma InvReap(w: World, id: Id, now: Time, sweep: SweepId)
    requires Inv(w)
    ensures Inv(DoReap(w, id, now, sweep))
  {
    if Exists(w, id) && Expired(w.runtime.life[id], now) {
      RowChange(w.runtime, id, Released(Failed));
      SideSets(w.runtime.(life := w.runtime.life[id := Released(Failed)]), DoReap(w, id, now, sweep).runtime);
    }
  }

  lemma InvAbandon(w: World, id: Id, sweep: SweepId)
    requires Inv(w)
    ensures Inv(DoAbandonReap(w, id, sweep))
  {
    SideSets(w.runtime, DoAbandonReap(w, id, sweep).runtime);
  }

  lemma InvCheckJob(w: World, id: Id)
    requires Inv(w)
    ensures Inv(DoCheckJob(w, id))
  {
    if id in w.runtime.turns && w.runtime.turns[id].stage == Validating {
      var turn := w.runtime.turns[id];
      assert TurnSound(w.runtime, id);
      match Validate(w.catalog, turn.job)
      case Accepted => TurnChange(w.runtime, id, turn.(stage := InTurn));
      case RowMissing => TurnChange(w.runtime, id, turn.(stage := Abandoned));
      case Rejected(_) =>
        if Holds(w, id, turn.worker) && w.runtime.life[id].state == Starting {
          RowChange(w.runtime, id, Released(Failed));
          assert TurnSound(w.runtime.(life := w.runtime.life[id := Released(Failed)]), id);
          TurnChange(w.runtime.(life := w.runtime.life[id := Released(Failed)]), id, turn.(stage := Abandoned));
        } else {
          TurnChange(w.runtime, id, turn.(stage := Abandoned));
        }
    }
  }

  lemma InvPoll(w: World, id: Id)
    requires Inv(w)
    ensures Inv(DoPoll(w, id))
  {
    if id in w.runtime.turns && w.runtime.turns[id].stage == InTurn {
      assert TurnSound(w.runtime, id);
      TurnChange(w.runtime, id, w.runtime.turns[id].(readings := w.runtime.turns[id].readings + 1));
    }
  }

  lemma InvPollReturns(w: World, id: Id, current: bool)
    requires Inv(w)
    ensures Inv(DoPollReturns(w, id, current))
  {
    if id in w.runtime.turns && Exists(w, id) && w.runtime.turns[id].readings > 0 {
      assert TurnSound(w.runtime, id) && Owned(w.runtime, id);
      TurnChange(w.runtime, id, DoPollReturns(w, id, current).runtime.turns[id]);
    }
  }

  lemma InvTimer(w: World, id: Id, code: TimeoutCode)
    requires Inv(w)
    ensures Inv(DoTimer(w, id, code))
  {
    if id in w.runtime.turns && TimerArmed(w.runtime.turns[id], code) {
      assert TurnSound(w.runtime, id);
      TurnChange(w.runtime, id, TimerTurn(w.runtime.turns[id], code));
    }
  }

  lemma InvLoseTermination(w: World, id: Id)
    requires Inv(w)
    ensures Inv(DoLoseTermination(w, id))
  {
    if id in w.runtime.turns && w.runtime.turns[id].termination.Requested? {
      assert TurnSound(w.runtime, id);
      TurnChange(w.runtime, id, w.runtime.turns[id].(termination := Lost(w.runtime.turns[id].termination.target)));
    }
  }

  lemma InvEndTurn(w: World, id: Id, raised: bool, rejected: bool, draining: bool)
    requires Inv(w)
    ensures Inv(DoEndTurn(w, id, raised, rejected, draining))
  {
    if id in w.runtime.turns && DoEndTurn(w, id, raised, rejected, draining) != w {
      assert TurnSound(w.runtime, id);
      TurnChange(w.runtime, id, DoEndTurn(w, id, raised, rejected, draining).runtime.turns[id]);
    }
  }

  lemma InvWriteTermination(w: World, id: Id)
    requires Inv(w)
    ensures Inv(DoWriteTermination(w, id))
  {
    if id in w.runtime.turns && Exists(w, id) && w.runtime.turns[id].termination.Requested? {
      var turn := w.runtime.turns[id];
      assert TurnSound(w.runtime, id) && Owned(w.runtime, id);
      var l := TerminationWrite(w.runtime.life[id], turn.termination.target, turn.worker);
      if l != w.runtime.life[id] {
        RowChange(w.runtime, id, l);
      }
      var r' := w.runtime.(life := w.runtime.life[id := l]);
      assert RuntimeInv(r') by { assert l == w.runtime.life[id] ==> r' == w.runtime; }
      assert TurnSound(r', id);
      TurnChange(r', id, turn.(termination := Written(turn.termination.target)));
    }
  }

  /** A reply and its terminal state are written together. */
  lemma FinalChange(r: Runtime, id: Id, reply: Reply, status: seq<SessionStatus>)
    requires RuntimeInv(r) && id < |r.life|
    requires reply.executionId == id && !HasReply(r.replies, id) && !Terminal(r.life[id].state)
    ensures RuntimeInv(r.(
      life := r.life[id := Released(if reply.completed then Succeeded else Failed)],
      replies := r.replies + [reply], sessionStatus := status))
  {
    var l := Released(if reply.completed then Succeeded else Failed);
    var r' := r.(life := r.life[id := l], replies := r.replies + [reply], sessionStatus := status);
    forall i | i in r'.turns ensures i < |r'.life| && TurnSound(r', i) { assert TurnSound(r, i); }
    forall i | 0 <= i < |r'.life| ensures Owned(r', i) { assert Owned(r, i); }
    assert RepliesSound(r') by {
      forall i | 0 <= i < |r'.life| && r'.life[i].state == Succeeded ensures HasReply(r'.replies, i) {
        if i == id {
          assert r'.replies[|r.replies|].executionId == id;
        } else {
          assert HasReply(r.replies, i);
          var k :| 0 <= k < |r.replies| && r.replies[k].executionId == i;
          assert r'.replies[k].executionId == i;
        }
      }
    }
  }

  /** The failure finalizer's guard cannot match after a cancelled or timed-out turn. */
  lemma CommittedFailureIsPlain(w: World, id: Id)
    requires Inv(w) && id in w.runtime.turns && w.runtime.turns[id].stage.Ended?
    requires w.runtime.turns[id].stage.outcome != Answered && Holds(w, id, w.runtime.turns[id].worker)
    ensures w.runtime.turns[id].stage.outcome == ErrorRaised
  {
    assert TurnSound(w.runtime, id);
  }

  lemma InvFinalizeSuccess(w: World, id: Id)
    requires Inv(w)
    ensures Inv(DoFinalizeSuccess(w, id))
  {
    if id in w.runtime.turns && w.runtime.turns[id].stage == Ended(Answered) {
      var turn := w.runtime.turns[id];
      assert TurnSound(w.runtime, id);
      if Holds(w, id, turn.worker) && w.runtime.life[id].state == Running {
        if SuccessConflicts(w, id) {
          TurnChange(w.runtime, id, turn.(stage := Ended(ErrorRaised)));
        } else {
          FinalChange(w.runtime, id, ReplyOf(w, id, true), DoFinalizeSuccess(w, id).runtime.sessionStatus);
        }
      }
    }
  }

  lemma InvFinalizeFailure(w: World, id: Id)
    requires Inv(w)
    ensures Inv(DoFinalizeFailure(w, id))
  {
    if id in w.runtime.turns && w.runtime.turns[id].stage.Ended? && w.runtime.turns[id].stage.outcome != Answered {
      if Holds(w, id, w.runtime.turns[id].worker) && !HasReply(w.runtime.replies, id) {
        CommittedFailureIsPlain(w, id);
        FinalChange(w.runtime, id, ReplyOf(w, id, false), DoFinalizeFailure(w, id).runtime.sessionStatus);
      }
    }
  }

  lemma InvReapReply(w: World, id: Id, sweep: SweepId)
    requires Inv(w)
    ensures Inv(DoReapReply(w, id, sweep))
  {
    if Recording(w.runtime, id, sweep) && Exists(w, id) && !HasReply(w.runtime.replies, id) {
      var r, r' := w.runtime, DoReapReply(w, id, sweep).runtime;
      forall i | i in r'.turns ensures i < |r'.life| && TurnSound(r', i) { assert TurnSound(r, i); }
      forall i | 0 <= i < |r'.life| ensures Owned(r', i) { assert Owned(r, i); }
      forall i | 0 <= i < |r'.life| && r'.life[i].state == Succeeded ensures HasReply(r'.replies, i) {
        assert HasReply(r.replies, i);
        var k :| 0 <= k < |r.replies| && r.replies[k].executionId == i;
        assert r'.replies[k].executionId == i;
      }
    }
  }

  /** Steps on the locals of one worker. */
  predicate OnTurn(s: Step) {
    s.PollCancellation? || s.PollReturns? || s.Timer? || s.LoseTermination? || s.EndTurn?
  }

  lemma InvOnTurn(w: World, s: Step)
    requires Inv(w) && OnTurn(s)
    ensures Inv(Apply(w, s))
  {
    match s
    case PollCancellation(id) =>
      assert Apply(w, s) == DoPoll(w, id);
      InvPoll(w, id);
    case PollReturns(id, current) =>
      assert Apply(w, s) == DoPollReturns(w, id, current);
      InvPollReturns(w, id, current);
    case Timer(id, code) =>
      assert Apply(w, s) == DoTimer(w, id, code);
      InvTimer(w, id, code);
    case LoseTermination(id) =>
      assert Apply(w, s) == DoLoseTermination(w, id);
      InvLoseTermination(w, id);
    case EndTurn(id, raised, rejected, draining) =>
      assert Apply(w, s) == DoEndTurn(w, id, raised, rejected, draining);
      InvEndTurn(w, id, raised, rejected, draining);
  }

  /** Steps of a worker, a cancel route or a sweep on an AgentSession row alone. */
  predicate OnRow(s: Step) {
    || s.Cancel? || s.Claim? || s.Heartbeat? || s.CheckJob? || s.ProcessStarted? || s.OwnershipFailed?
    || s.WriteTermination? || s.Reap?
  }

  lemma InvOnRow(w: World, s: Step)
    requires Inv(w) && OnRow(s)
    ensures Inv(Apply(w, s))
  {
    match s
    case Cancel(id) =>
      assert Apply(w, s) == DoCancel(w, id);
      InvCancel(w, id);
    case Claim(job, worker, now, leaseMs) =>
      assert Apply(w, s) == DoClaim(w, job, worker, now, leaseMs);
      InvClaim(w, job, worker, now, leaseMs);
    case Heartbeat(id, worker, now, leaseMs) =>
      assert Apply(w, s) == DoHeartbeat(w, id, worker, now, leaseMs);
      InvHeartbeat(w, id, worker, now, leaseMs);
    case CheckJob(id) =>
      assert Apply(w, s) == DoCheckJob(w, id);
      InvCheckJob(w, id);
    case ProcessStarted(id, providerId, worker, process) =>
      assert Apply(w, s) == DoProcessStarted(w, id, providerId, worker, process);
      InvStarted(w, id, providerId, worker, process);
    case OwnershipFailed(id, providerId, worker) =>
      assert Apply(w, s) == DoOwnershipFailed(w, id, providerId, worker);
      InvOwnership(w, id, providerId, worker);
    case WriteTermination(id) =>
      assert Apply(w, s) == DoWriteTermination(w, id);
      InvWriteTermination(w, id);
    case Reap(id, now, sweep) =>
      assert Apply(w, s) == DoReap(w, id, now, sweep);
      InvReap(w, id, now, sweep);
  }

  /** Every step keeps the invariant. */
  lemma StepInv(w: World, s: Step)
    requires Inv(w)
    ensures Inv(Apply(w, s))
  {
    if OnTurn(s) {
      InvOnTurn(w, s);
    } else if OnRow(s) {
      InvOnRow(w, s);
    } else if s.Queue? || s.Retry? || s.CreateConversation? || s.CreateTask? {
      InvSubmission(w, s);
    } else if s.FinalizeSuccess? {
      InvFinalizeSuccess(w, s.id);
    } else if s.FinalizeFailure? {
      InvFinalizeFailure(w, s.id);
    } else if s.ReapReply? {
      InvReapReply(w, s.id, s.sweep);
    } else if s.AbandonReap? {
      InvAbandon(w, s.id, s.sweep);
    } else {
      InvMail(w, s);
    }
  }

  lemma {:induction false} RunInv(w: World, run: seq<Step>)
    requires Inv(w)
    ensures Inv(Exec(w, run))
    decreases |run|
  {
    if run != [] {
      StepInv(w, run[0]);
      RunInv(Apply(w, run[0]), run[1..]);
    }
  }

  // ---------- main results ----------

  lemma {:induction false} RunForward(w: World, run: seq<Step>, i: Id)
    requires Inv(w) && i < |w.runtime.life|
    ensures i < |Exec(w, run).runtime.life|
    ensures Rank(w.runtime.life[i].state) <= Rank(Exec(w, run).runtime.life[i].state)
    ensures Terminal(w.runtime.life[i].state) ==> Exec(w, run).runtime.life[i].state == w.runtime.life[i].state
    decreases |run|
  {
    if run != [] {
      StepInv(w, run[0]);
      StepForward(w, run[0]);
      RunForward(Apply(w, run[0]), run[1..], i);
    }
  }

  function Rank(s: State): nat {
    match s
    case Queued => 0
    case Starting => 1
    case Running => 2
    case _ => 3
  }

  /**
   Absorption: in a world reached from the empty one, an execution that is SUCCEEDED,
   FAILED, CANCELLED or TIMED_OUT keeps that state through every further run, whatever
   workers, reapers and cancel routes still attempt.
   */
  lemma TerminalIsFinal(before: seq<Step>, after: seq<Step>, i: Id)
    requires i < |Exec(EMPTY, before).runtime.life|
    requires Terminal(Exec(EMPTY, before).runtime.life[i].state)
    ensures i < |Exec(EMPTY, before + after).runtime.life|
    ensures Exec(EMPTY, before + after).runtime.life[i].state == Exec(EMPTY, before).runtime.life[i].state
  {
    RunInv(EMPTY, before);
    RunForward(Exec(EMPTY, before), after, i);
    ExecConcat(EMPTY, before, after);
  }

  /** The writes that code holding a claimed job makes to the shared rows. */
  predicate WorkerWrite(s: Step, i: Id) {
    match s
    case Heartbeat(id, _, _, _) => id == i
    case CheckJob(id) => id == i
    case ProcessStarted(id, _, _, _) => id == i
    case OwnershipFailed(id, _, _) => id == i
    case WriteTermination(id) => id == i
    case FinalizeSuccess(id) => id == i
    case FinalizeFailure(id) => id == i
    case Reap(id, _, _) => id == i
    case _ => false
  }

  /**
   Fencing: once the row is terminal, no write of any worker or reaper for it changes the
   row, adds a reply or touches a provider session. The one exception is the owner of a
   cancelled row recording its termination, which only gives up the ownership.
   */
  lemma ZombieHasNoEffect(before: seq<Step>, i: Id, s: Step)
    requires WorkerWrite(s, i)
    requires i < |Exec(EMPTY, before).runtime.life| && Terminal(Exec(EMPTY, before).runtime.life[i].state)
    ensures OnlyReleases(Exec(EMPTY, before), Apply(Exec(EMPTY, before), s), s, i)
  {
    RunInv(EMPTY, before);
    if s.WriteTermination? {
      LateTermination(Exec(EMPTY, before), i);
    } else {
      LateWrite(Exec(EMPTY, before), i, s);
    }
  }

  ghost predicate OnlyReleases(w: World, w': World, s: Step, i: Id)
    requires i < |w.runtime.life|
  {
    && w'.runtime.replies == w.runtime.replies
    && w'.runtime.sessionStatus == w.runtime.sessionStatus
    && w'.catalog == w.catalog && w'.mail == w.mail
    && (w'.runtime.life == w.runtime.life
      || (s.WriteTermination? && w.runtime.life[i].state == Cancelled
        && w'.runtime.life == w.runtime.life[i := Released(Cancelled)]))
  }

  lemma LateWrite(w: World, i: Id, s: Step)
    requires Sized(w) && i < |w.runtime.life| && Terminal(w.runtime.life[i].state)
    requires WorkerWrite(s, i) && !s.WriteTermination?
    ensures OnlyReleases(w, Apply(w, s), s, i)
  {
  }

  lemma LateTermination(w: World, i: Id)
    requires Inv(w) && i < |w.runtime.life| && Terminal(w.runtime.life[i].state)
    ensures OnlyReleases(w, DoWriteTermination(w, i), WriteTermination(i), i)
  {
    assert Owned(w.runtime, i);
    if i in w.runtime.turns {
      assert TurnSound(w.runtime, i);
    }
    assert w.runtime.life[i := w.runtime.life[i]] == w.runtime.life;
  }

  predicate Replied(replies: seq<Reply>, i: Id, completed: bool) {
    exists k :: 0 <= k < |replies| && replies[k].executionId == i && replies[k].completed == completed
  }

  /**
   In every reachable world an execution has at most one assistant message; a COMPLETED
   one exists exactly when it is SUCCEEDED, a FAILED one only when it is FAILED, and a
   cancelled or timed-out execution has none.
   */
  lemma OneReplyPerExecution(run: seq<Step>, i: Id)
    requires i < |Exec(EMPTY, run).runtime.life|
    ensures var r := Exec(EMPTY, run).runtime;
      && (forall j, k :: 0 <= j < k < |r.replies| ==> !(r.replies[j].executionId == i == r.replies[k].executionId))
      && (Replied(r.replies, i, true) <==> r.life[i].state == Succeeded)
      && (Replied(r.replies, i, false) ==> r.life[i].state == Failed)
      && (r.life[i].state == Cancelled || r.life[i].state == TimedOut ==> !HasReply(r.replies, i))
  {
    RunInv(EMPTY, run);
    var r := Exec(EMPTY, run).runtime;
    if r.life[i].state == Succeeded {
      assert HasReply(r.replies, i);
      var k :| 0 <= k < |r.replies| && r.replies[k].executionId == i;
      assert r.replies[k].completed;
    }
  }

  /** An execution whose turn raised a cancellation is CANCELLED ever after and never gains a reply. */
  lemma CancelledTurnIsFinal(before: seq<Step>, after: seq<Step>, i: Id)
    requires i in Exec(EMPTY, before).runtime.turns
    requires Exec(EMPTY, before).runtime.turns[i].stage == Ended(CancelRaised)
    ensures var r := Exec(EMPTY, before + after).runtime;
      i < |r.life| && r.life[i].state == Cancelled && !HasReply(r.replies, i)
  {
    RunInv(EMPTY, before);
    assert TurnSound(Exec(EMPTY, before).runtime, i);
    TerminalIsFinal(before, after, i);
    OneReplyPerExecution(before + after, i);
  }

  /**
   The TIMED_OUT and CANCELLED branches of the failure finalizer never commit: by the time
   such a turn ends, its termination write has already closed the row. What the finalizer
   commits is FAILED, so a timed-out execution is left without an assistant message.
   */
  lemma FailureFinalizerOnlyFails(run: seq<Step>, id: Id)
    ensures var w := Exec(EMPTY, run);
      var w' := Apply(w, FinalizeFailure(id));
      w' == w || PlainFailure(w, w', id)
  {
    RunInv(EMPTY, run);
    FinalizedPlainly(Exec(EMPTY, run), id);
  }

  ghost predicate PlainFailure(w: World, w': World, id: Id) {
    && id < |w.runtime.life| && w'.runtime.life == w.runtime.life[id := Released(Failed)]
    && id in w.runtime.turns && w.runtime.turns[id].stage == Ended(ErrorRaised)
  }

  lemma FinalizedPlainly(w: World, id: Id)
    requires Inv(w)
    ensures DoFinalizeFailure(w, id) == w || PlainFailure(w, DoFinalizeFailure(w, id), id)
  {
    if id in w.runtime.turns && w.runtime.turns[id].stage.Ended? && w.runtime.turns[id].stage.outcome != Answered
      && Holds(w, id, w.runtime.turns[id].worker)
    {
      CommittedFailureIsPlain(w, id);
    }
  }

  // ---------- a finished execution can still look claimed ----------

  /** The step takes the row to a terminal state. */
  predicate Finishes(w: World, s: Step, i: Id)
    requires Sized(w)
  {
    && i < |w.runtime.life| && !Terminal(w.runtime.life[i].state)
    && InTerminal(Apply(w, s).runtime, i)
  }

  predicate InTerminal(r: Runtime, i: Id) {
    i < |r.life| && Terminal(r.life[i].state)
  }

  predicate Claimed(r: Runtime, i: Id) {
    i < |r.life| && r.life[i].worker.Some?
  }

  lemma StepReleases(w: World, s: Step)
    requires Inv(w) && OnRow(s) && !s.Cancel?
    ensures ReleasesFinished(w, Apply(w, s))
  {
    match s
    case CheckJob(id) =>
      assert Apply(w, s) == DoCheckJob(w, id);
      CheckJobForward(w, id);
    case OwnershipFailed(id, providerId, worker) =>
      assert Apply(w, s) == DoOwnershipFailed(w, id, providerId, worker);
      OwnershipForward(w, id, providerId, worker);
    case WriteTermination(id) =>
      assert Apply(w, s) == DoWriteTermination(w, id);
      TerminationForward(w, id);
    case Reap(id, now, sweep) =>
      assert Apply(w, s) == DoReap(w, id, now, sweep);
      ReapForward(w, id, now, sweep);
    case Claim(job, worker, now, leaseMs) =>
      assert Apply(w, s) == DoClaim(w, job, worker, now, leaseMs);
      ClaimForward(w, job, worker, now, leaseMs);
    case Heartbeat(id, worker, now, leaseMs) =>
      assert Apply(w, s) == DoHeartbeat(w, id, worker, now, leaseMs);
      HeartbeatForward(w, id, worker, now, leaseMs);
    case ProcessStarted(id, providerId, worker, process) =>
      assert Apply(w, s) == DoProcessStarted(w, id, providerId, worker, process);
      StartForward(w, id, providerId, worker, process);
  }

  lemma StepFinishing(w: World, s: Step, i: Id)
    requires Inv(w) && Finishes(w, s, i)
    ensures Claimed(Apply(w, s).runtime, i) <==> s == Cancel(i) && InProgress(w.runtime.life[i].state)
  {
    if s.Cancel? {
      assert Owned(w.runtime, i);
    } else if OnRow(s) {
      StepReleases(w, s);
    } else if s.FinalizeSuccess? || s.FinalizeFailure? {
      FinalizeForward(w, s.id);
    } else if s.Queue? {
      QueueLife(w, s.q);
    } else if s.Retry? {
      RetryLife(w, s.r);
    } else {
      RowsUntouched(w, s);
    }
  }

  /** The step that finishes a row leaves it claimed exactly when it is the cancel route taking a row in progress. */
  lemma FinishedAndClaimed(run: seq<Step>, s: Step, i: Id)
    requires Finishes(Exec(EMPTY, run), s, i)
    ensures Claimed(Apply(Exec(EMPTY, run), s).runtime, i)
      <==> s == Cancel(i) && InProgress(Exec(EMPTY, run).runtime.life[i].state)
  {
    RunInv(EMPTY, run);
    StepFinishing(Exec(EMPTY, run), s, i);
  }
}
