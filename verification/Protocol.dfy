/**
 The conversation-execution protocol as a transition system: one step for each
 `updateMany`, each transaction and each worker-local decision. Steps of any
 number of submitters, dispatchers, workers, cancel routes and reapers interleave
 freely; a crash is an actor that takes no further step. A write whose guard
 matches no row, and a transaction that throws, leave the world unchanged.
 */
module Protocol {
  import opened Wrappers
  import opened Tables
  import opened Submission
  import opened Validation
  import opened Backoff

  datatype Step =
    // submitters
    | CreateConversation(projectId: Id)
    | CreateTask(projectId: Id)
    | Queue(q: QueueInput)
    | Retry(r: RetryInput)
    // cancel route
    | Cancel(id: Id)
    | PurgeOutbox(id: Id)
    // dispatchers
    | ClaimRow(dispatcher: nat, id: Id, now: Time, attemptsRead: nat)
    | Publish(dispatch: Dispatch)
    | RecordPublished(dispatch: Dispatch, now: Time)
    | RecordFailure(dispatch: Dispatch, now: Time, policy: Policy, jitter: real)
    | DispatcherCrash(dispatcher: nat)
    | Recover(cutoff: Time, now: Time)
    // the queue
    | SpendJob(job: Job)
    | TrimJob(job: Job)
    // workers
    | Claim(job: Job, worker: WorkerId, now: Time, leaseMs: int)
    | Heartbeat(id: Id, worker: WorkerId, now: Time, leaseMs: int)
    | CheckJob(id: Id)
    | ProcessStarted(id: Id, providerId: string, worker: WorkerId, process: OwnedProcess)
    | OwnershipFailed(id: Id, providerId: string, worker: WorkerId)
    | PollCancellation(id: Id)
    | PollReturns(id: Id, current: bool)
    | Timer(id: Id, code: TimeoutCode)
    | WriteTermination(id: Id)
    | LoseTermination(id: Id)
    | EndTurn(id: Id, raised: bool, terminationRejected: bool, draining: bool)
    | FinalizeSuccess(id: Id)
    | FinalizeFailure(id: Id)
    // reaper
    | Reap(id: Id, now: Time, sweep: SweepId)
    | ReapProviderSession(id: Id, sweep: SweepId)
    | ReapReply(id: Id, sweep: SweepId)
    | AbandonReap(id: Id, sweep: SweepId)

  function SetLife(w: World, id: Id, l: Life): World
    requires id < |w.runtime.life|
  {
    w.(runtime := w.runtime.(life := w.runtime.life[id := l]))
  }

  function SetTurn(w: World, id: Id, t: Turn): World {
    w.(runtime := w.runtime.(turns := w.runtime.turns[id := t]))
  }

  predicate Exists(w: World, id: Id) {
    id < |w.runtime.life| && id < |w.catalog.executions|
  }

  /** The guard shared by a worker's writes: the row is in progress and this worker owns it. */
  predicate Holds(w: World, id: Id, worker: WorkerId) {
    Exists(w, id) && InProgress(w.runtime.life[id].state) && w.runtime.life[id].worker == Some(worker)
  }

  // ---------- cancel route ----------

  function DoCancel(w: World, id: Id): World {
    if Exists(w, id) && Active(w.runtime.life[id].state) then
      // the worker id and the lease stay on the row
      var cancelled := SetLife(w, id, w.runtime.life[id].(state := Cancelled));
      cancelled.(runtime := cancelled.runtime.(purging := cancelled.runtime.purging + {id}))
    else w
  }

  predicate Purgeable(row: OutboxRow) {
    row.status == Pending || row.status == PublishFailed
  }

  function DoPurge(w: World, id: Id): World {
    if id in w.runtime.purging then
      w.(runtime := w.runtime.(purging := w.runtime.purging - {id}),
         mail := w.mail.(outbox :=
           if id in w.mail.outbox && Purgeable(w.mail.outbox[id]) then w.mail.outbox - {id} else w.mail.outbox))
    else w
  }

  // ---------- outbox ----------

  predicate Due(row: OutboxRow, now: Time) {
    Purgeable(row) && row.nextAttemptAt <= now
  }

  function DoClaimRow(m: Mail, dispatcher: nat, id: Id, now: Time, attemptsRead: nat): Mail {
    if id in m.outbox && Due(m.outbox[id], now) then
      m.(outbox := m.outbox[id := m.outbox[id].(status := Dispatching, updatedAt := now)],
         inFlight := m.inFlight + {Dispatch(dispatcher, id, m.outbox[id].job, attemptsRead)})
    else m
  }

  /** `Queue.add` with the row's `jobId`: ignored while the queue still keeps a job of that id. */
  function DoPublish(m: Mail, d: Dispatch): Mail {
    if d in m.inFlight then
      m.(jobs := m.jobs + {d.job}, waiting := if d.job in m.spent then m.waiting else m.waiting + {d.job})
    else m
  }

  /** The queue's single attempt is over: the job was processed, or its processor threw. */
  function DoSpend(m: Mail, job: Job): Mail {
    if job in m.waiting then m.(waiting := m.waiting - {job}, spent := m.spent + {job}) else m
  }

  /** The queue forgets a finished job once enough others have finished. */
  function DoTrim(m: Mail, job: Job): Mail {
    m.(spent := m.spent - {job})
  }

  /** Only after the publish has resolved. */
  function DoRecordPublished(m: Mail, d: Dispatch, now: Time): Mail {
    if d !in m.inFlight || d.job !in m.jobs then m
    else
      m.(inFlight := m.inFlight - {d},
         outbox := if d.jobId !in m.outbox then m.outbox else
           var row := m.outbox[d.jobId];
           m.outbox[d.jobId := row.(status := Published, attempts := row.attempts + 1, nextAttemptAt := now, updatedAt := now)])
  }

  function DoRecordFailure(m: Mail, d: Dispatch, now: Time, policy: Policy, jitter: real): Mail {
    if d !in m.inFlight then m
    else
      var attempt := d.attemptsRead + 1;
      m.(inFlight := m.inFlight - {d},
         outbox := if d.jobId !in m.outbox then m.outbox else
           var row := m.outbox[d.jobId];
           m.outbox[d.jobId := row.(
             status := if attempt >= policy.maxAttempts then DeadLetter else PublishFailed,
             attempts := row.attempts + 1,
             nextAttemptAt := now + RetryDelay(attempt, policy, jitter),
             updatedAt := now)])
  }

  predicate Stuck(row: OutboxRow, cutoff: Time) {
    row.status == Dispatching && row.updatedAt < cutoff
  }

  function DoRecover(m: Mail, cutoff: Time, now: Time): Mail {
    m.(outbox := map id | id in m.outbox ::
      if Stuck(m.outbox[id], cutoff) then m.outbox[id].(status := Pending, updatedAt := now) else m.outbox[id])
  }

  // ---------- worker ----------

  function NewTurn(worker: WorkerId, job: Job): Turn {
    Turn(worker, job, None, false, NotRequested, Validating, 0, false)
  }

  function DoClaim(w: World, job: Job, worker: WorkerId, now: Time, leaseMs: int): World {
    var id := job.sessionId;
    if job in w.mail.waiting && Exists(w, id) && w.runtime.life[id].state == Queued then
      SetTurn(SetLife(w, id, Life(Starting, Some(worker), Some(now + leaseMs))), id, NewTurn(worker, job))
    else w
  }

  function DoHeartbeat(w: World, id: Id, worker: WorkerId, now: Time, leaseMs: int): World {
    if Holds(w, id, worker) then SetLife(w, id, w.runtime.life[id].(lease := Some(now + leaseMs))) else w
  }

  /** The `ownershipLifecycle` hooks also compare the provider. */
  predicate HoldsFor(w: World, id: Id, providerId: string, worker: WorkerId) {
    Holds(w, id, worker) && w.catalog.executions[id].providerId == providerId
  }

  function DoProcessStarted(w: World, id: Id, providerId: string, worker: WorkerId, process: OwnedProcess): World {
    if HoldsFor(w, id, providerId, worker) then
      var running := SetLife(w, id, w.runtime.life[id].(state := Running));
      running.(runtime := running.runtime.(processes := running.runtime.processes[id := process]))
    else w
  }

  function DoOwnershipFailed(w: World, id: Id, providerId: string, worker: WorkerId): World {
    if HoldsFor(w, id, providerId, worker) then SetLife(w, id, Released(Failed)) else w
  }

  function DoCheckJob(w: World, id: Id): World {
    if id in w.runtime.turns && w.runtime.turns[id].stage == Validating then
      var turn := w.runtime.turns[id];
      match Validate(w.catalog, turn.job)
      case Accepted => SetTurn(w, id, turn.(stage := InTurn))
      case RowMissing => SetTurn(w, id, turn.(stage := Abandoned))
      case Rejected(_) =>
        var rejected :=
          if Holds(w, id, turn.worker) && w.runtime.life[id].state == Starting then SetLife(w, id, Released(Failed)) else w;
        SetTurn(rejected, id, turn.(stage := Abandoned))
    else w
  }

  /** `terminate`: the termination promise is stored once. */
  function Terminate(t: Turn, target: State): Turn {
    if t.termination == NotRequested then t.(termination := Requested(target)) else t
  }

  /** The cancellation timer has read the row. */
  function PollTurn(t: Turn, row: Life): Turn {
    if row.state == Cancelled && row.worker == Some(t.worker) && !t.cancellationRequested then
      Terminate(t.(cancellationRequested := true), Cancelled)
    else t
  }

  /** `abort`: one of the two timeout timers has fired. */
  function TimerTurn(t: Turn, code: TimeoutCode): Turn {
    if t.timeoutCode.None? && !t.cancellationRequested then Terminate(t.(timeoutCode := Some(code)), TimedOut) else t
  }

  /** The interval sends a reading; it is cleared when the turn ends. */
  function DoPoll(w: World, id: Id): World {
    if id in w.runtime.turns && w.runtime.turns[id].stage == InTurn then
      SetTurn(w, id, w.runtime.turns[id].(readings := w.runtime.turns[id].readings + 1))
    else w
  }

  /** A reading comes back, possibly after the turn; one that failed or was taken too early says nothing. */
  function DoPollReturns(w: World, id: Id, current: bool): World {
    if id in w.runtime.turns && Exists(w, id) && w.runtime.turns[id].readings > 0 then
      var back := w.runtime.turns[id].(readings := w.runtime.turns[id].readings - 1);
      SetTurn(w, id, if current then PollTurn(back, w.runtime.life[id]) else back)
    else w
  }

  /** Both timers are cleared when the turn ends, but a stream loop that still runs re-arms the inactivity timer. */
  predicate TimerArmed(t: Turn, code: TimeoutCode) {
    t.stage == InTurn || (t.stage.Ended? && t.draining && code == Inactivity)
  }

  function DoTimer(w: World, id: Id, code: TimeoutCode): World {
    if id in w.runtime.turns && TimerArmed(w.runtime.turns[id], code) then
      SetTurn(w, id, TimerTurn(w.runtime.turns[id], code))
    else w
  }

  /** The first write of `terminateRecordedProviderProcess`: only TIMED_OUT has a guard on the state. */
  function TerminationWrite(l: Life, target: State, worker: WorkerId): Life {
    if l.worker == Some(worker) && (target == TimedOut ==> InProgress(l.state)) then Released(target) else l
  }

  function DoWriteTermination(w: World, id: Id): World {
    if id in w.runtime.turns && Exists(w, id) && w.runtime.turns[id].termination.Requested? then
      var turn := w.runtime.turns[id];
      var target := turn.termination.target;
      SetTurn(SetLife(w, id, TerminationWrite(w.runtime.life[id], target, turn.worker)),
        id, turn.(termination := Written(target)))
    else w
  }

  /** The promise rejects before its first write, and is never stored again. */
  function DoLoseTermination(w: World, id: Id): World {
    if id in w.runtime.turns && w.runtime.turns[id].termination.Requested? then
      SetTurn(w, id, w.runtime.turns[id].(termination := Lost(w.runtime.turns[id].termination.target)))
    else w
  }

  /** What leaves `executeProviderTurn`; a rejected termination promise is rethrown by its `await`. */
  function OutcomeOf(turn: Turn, raised: bool, terminationRejected: bool): Outcome {
    if turn.termination != NotRequested && terminationRejected then ErrorRaised
    else if turn.cancellationRequested then CancelRaised
    else if turn.timeoutCode.Some? then TimeoutRaised(turn.timeoutCode.value)
    else if raised then ErrorRaised
    else Answered
  }

  /** The end of the turn awaits the promise. Only a turn whose start rejected can leave its stream loop running. */
  function DoEndTurn(w: World, id: Id, raised: bool, terminationRejected: bool, draining: bool): World {
    if id in w.runtime.turns && w.runtime.turns[id].stage == InTurn && !w.runtime.turns[id].termination.Requested? then
      var turn := w.runtime.turns[id];
      var outcome := OutcomeOf(turn, raised, terminationRejected || turn.termination.Lost?);
      SetTurn(w, id, turn.(stage := Ended(outcome), draining := raised && draining))
    else w
  }

  function ReplyOf(w: World, id: Id, completed: bool): Reply
    requires Exists(w, id)
  {
    Reply(id, w.catalog.executions[id].conversationId, w.catalog.executions[id].providerId, completed)
  }

  function SetStatus(status: seq<SessionStatus>, id: Id, s: SessionStatus): seq<SessionStatus> {
    if id < |status| then status[id := s] else status
  }

  /** The finalizing transaction violates a unique index: a second reply, or a second RUNNING provider session. */
  predicate SuccessConflicts(w: World, id: Id)
    requires Sized(w) && Exists(w, id)
  {
    var e := w.catalog.executions[id];
    || HasReply(w.runtime.replies, id)
    || OtherRunning(w.catalog, w.runtime.sessionStatus, e.conversationId, e.providerId, e.providerSessionId)
  }

  function DoFinalizeSuccess(w: World, id: Id): World
    requires Sized(w)
  {
    if id in w.runtime.turns && w.runtime.turns[id].stage == Ended(Answered) then
      var turn := w.runtime.turns[id];
      if !(Holds(w, id, turn.worker) && w.runtime.life[id].state == Running) then w
      else if SuccessConflicts(w, id) then SetTurn(w, id, turn.(stage := Ended(ErrorRaised)))
      else
        w.(runtime := w.runtime.(
          life := w.runtime.life[id := Released(Succeeded)],
          replies := w.runtime.replies + [ReplyOf(w, id, true)],
          sessionStatus := SetStatus(w.runtime.sessionStatus, w.catalog.executions[id].providerSessionId, SessionRunning)))
    else w
  }

  function FailureState(o: Outcome): State {
    match o
    case TimeoutRaised(_) => TimedOut
    case CancelRaised => Cancelled
    case Answered => Failed
    case ErrorRaised => Failed
  }

  function DoFinalizeFailure(w: World, id: Id): World {
    if id in w.runtime.turns && w.runtime.turns[id].stage.Ended? && w.runtime.turns[id].stage.outcome != Answered then
      var turn := w.runtime.turns[id];
      if !Holds(w, id, turn.worker) || HasReply(w.runtime.replies, id) then w
      else
        w.(runtime := w.runtime.(
          life := w.runtime.life[id := Released(FailureState(turn.stage.outcome))],
          replies := w.runtime.replies + [ReplyOf(w, id, false)],
          sessionStatus := SetStatus(w.runtime.sessionStatus, w.catalog.executions[id].providerSessionId, SessionFailed)))
    else w
  }

  // ---------- reaper ----------

  predicate Expired(l: Life, now: Time) {
    InProgress(l.state) && (l.lease.None? || l.lease.value < now)
  }

  function DoReap(w: World, id: Id, now: Time, sweep: SweepId): World {
    if Exists(w, id) && Expired(w.runtime.life[id], now) then
      var failed := SetLife(w, id, Released(Failed));
      failed.(runtime := failed.runtime.(reaped := failed.runtime.reaped[id := Some(sweep)]))
    else w
  }

  /** The sweep that failed the row has still to record it. */
  predicate Recording(r: Runtime, id: Id, sweep: SweepId) {
    id in r.reaped && r.reaped[id] == Some(sweep)
  }

  /** The sweep throws, or crashes, before it has recorded the row. */
  function DoAbandonReap(w: World, id: Id, sweep: SweepId): World {
    if Recording(w.runtime, id, sweep) then
      w.(runtime := w.runtime.(reaped := w.runtime.reaped[id := None]))
    else w
  }

  function DoReapProviderSession(w: World, id: Id, sweep: SweepId): World {
    if Recording(w.runtime, id, sweep) && Exists(w, id) then
      w.(runtime := w.runtime.(sessionStatus :=
        SetStatus(w.runtime.sessionStatus, w.catalog.executions[id].providerSessionId, SessionFailed)))
    else w
  }

  function DoReapReply(w: World, id: Id, sweep: SweepId): World {
    if Recording(w.runtime, id, sweep) && Exists(w, id) && !HasReply(w.runtime.replies, id) then
      w.(runtime := w.runtime.(replies := w.runtime.replies + [ReplyOf(w, id, false)]))
    else w
  }

  // ---------- the step function ----------

  function Commit(w: World, c: Option<Committed>): World {
    if c.None? then w else c.value.world
  }

  function Apply(w: World, s: Step): (w': World)
    requires Sized(w)
    ensures Sized(w')
  {
    match s
    case CreateConversation(projectId) =>
      w.(catalog := w.catalog.(conversations := w.catalog.conversations + [Conversation(projectId, 0, 0)]))
    case CreateTask(projectId) => w.(catalog := w.catalog.(tasks := w.catalog.tasks + [Task(projectId)]))
    case Queue(q) => Commit(w, QueueTx(w, q))
    case Retry(r) => Commit(w, RetryTx(w, r))
    case Cancel(id) => DoCancel(w, id)
    case PurgeOutbox(id) => DoPurge(w, id)
    case ClaimRow(dispatcher, id, now, attemptsRead) => w.(mail := DoClaimRow(w.mail, dispatcher, id, now, attemptsRead))
    case Publish(d) => w.(mail := DoPublish(w.mail, d))
    case RecordPublished(d, now) => w.(mail := DoRecordPublished(w.mail, d, now))
    case RecordFailure(d, now, policy, jitter) => w.(mail := DoRecordFailure(w.mail, d, now, policy, jitter))
    case DispatcherCrash(dispatcher) =>
      w.(mail := w.mail.(inFlight := set d | d in w.mail.inFlight && d.dispatcher != dispatcher))
    case Recover(cutoff, now) => w.(mail := DoRecover(w.mail, cutoff, now))
    case SpendJob(job) => w.(mail := DoSpend(w.mail, job))
    case TrimJob(job) => w.(mail := DoTrim(w.mail, job))
    case Claim(job, worker, now, leaseMs) => DoClaim(w, job, worker, now, leaseMs)
    case Heartbeat(id, worker, now, leaseMs) => DoHeartbeat(w, id, worker, now, leaseMs)
    case CheckJob(id) => DoCheckJob(w, id)
    case ProcessStarted(id, providerId, worker, process) => DoProcessStarted(w, id, providerId, worker, process)
    case OwnershipFailed(id, providerId, worker) => DoOwnershipFailed(w, id, providerId, worker)
    case PollCancellation(id) => DoPoll(w, id)
    case PollReturns(id, current) => DoPollReturns(w, id, current)
    case Timer(id, code) => DoTimer(w, id, code)
    case WriteTermination(id) => DoWriteTermination(w, id)
    case LoseTermination(id) => DoLoseTermination(w, id)
    case EndTurn(id, raised, rejected, draining) => DoEndTurn(w, id, raised, rejected, draining)
    case FinalizeSuccess(id) => DoFinalizeSuccess(w, id)
    case FinalizeFailure(id) => DoFinalizeFailure(w, id)
    case Reap(id, now, sweep) => DoReap(w, id, now, sweep)
    case ReapProviderSession(id, sweep) => DoReapProviderSession(w, id, sweep)
    case ReapReply(id, sweep) => DoReapReply(w, id, sweep)
    case AbandonReap(id, sweep) => DoAbandonReap(w, id, sweep)
  }

  /** The world after a run. */
  function Exec(w: World, run: seq<Step>): (w': World)
    requires Sized(w)
    ensures Sized(w')
    decreases |run|
  {
    if run == [] then w else Exec(Apply(w, run[0]), run[1..])
  }

  lemma {:induction false} ExecConcat(w: World, a: seq<Step>, b: seq<Step>)
    requires Sized(w)
    ensures Exec(w, a + b) == Exec(Exec(w, a), b)
    decreases |a|
  {
    if a == [] {
      assert a + b == b;
    } else {
      assert (a + b)[0] == a[0] && (a + b)[1..] == a[1..] + b;
      ExecConcat(Apply(w, a[0]), a[1..], b);
    }
  }

  lemma ExecOne(w: World, s: Step)
    requires Sized(w)
    ensures Exec(w, [s]) == Apply(w, s)
  {
    assert [s][1..] == [];
    assert Exec(Apply(w, s), []) == Apply(w, s);
  }
}
