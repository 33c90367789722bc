/**
 A reachable run in which a success finalizer revives a retired provider session: two
 executions share a session, a retry under another default model replaces it, the
 replacement fails, and then the slower execution succeeds.
 */
module Revival {
  import opened Wrappers
  import opened Capability
  import opened Tables
  import opened Submission
  import opened Validation
  import opened Protocol
  import opened Pinning

  const NO_DEFAULTS := Defaults(None, None, None, None, None, None)
  const OPUS_DEFAULT := NO_DEFAULTS.(projectClaudeModel := Some("opus"))

  function Ask(key: string): QueueInput {
    QueueInput(0, 0, Mode.Ask, None, CLAUDE, None, None, None, key, NO_DEFAULTS, 0, true)
  }

  const EXECUTION := Execution(0, 0, CLAUDE, 0, 0, 0, ReadOnly, None, None, ProviderDefault)

  function JobOf(id: Id, task: Id, message: Id, session: Id): Job {
    Job(id, task, 0, message, CLAUDE, id, session, None)
  }

  function Row(job: Job, status: OutboxStatus): OutboxRow { OutboxRow(job, status, 0, 0, 0) }

  /** After two queues share one provider session. */
  const TWO_QUEUED := World(
    Catalog(
      [Conversation(0, 2, 0)],
      [Task(0), Task(0)],
      [UserMessage(0, Mode.Ask, "a"), UserMessage(0, Mode.Ask, "b")],
      [EXECUTION, EXECUTION.(taskId := 1, userMessageId := 1)],
      [ProviderSession(0, CLAUDE, None)],
      [RoutingDecision(0, 0, CLAUDE), RoutingDecision(0, 1, CLAUDE)],
      []),
    Runtime([QUEUED, QUEUED], [SessionRunning], [], map[], {}, map[], map[]),
    Mail(map[0 := Row(JobOf(0, 0, 0, 0), Pending), 1 := Row(JobOf(1, 1, 1, 0), Pending)], {}, {}, {}, {}))

  lemma QueueTwo()
    ensures Exec(EMPTY, [CreateConversation(0), Queue(Ask("a")), Queue(Ask("b"))]) == TWO_QUEUED
  {
    var w1 := Apply(EMPTY, CreateConversation(0));
    var w2 := Apply(w1, Queue(Ask("a")));
    assert w2.catalog.executions == [EXECUTION];
    var w3 := Apply(w2, Queue(Ask("b")));
    assert w3.catalog == TWO_QUEUED.catalog;
    assert w3.mail.outbox == TWO_QUEUED.mail.outbox;
    assert w3 == TWO_QUEUED;
    ExecOne(EMPTY, CreateConversation(0));
    ExecOne(w1, Queue(Ask("a")));
    ExecOne(w2, Queue(Ask("b")));
    ExecConcat(EMPTY, [CreateConversation(0)], [Queue(Ask("a"))]);
    ExecConcat(EMPTY, [CreateConversation(0)] + [Queue(Ask("a"))], [Queue(Ask("b"))]);
    assert [CreateConversation(0)] + [Queue(Ask("a"))] + [Queue(Ask("b"))]
        == [CreateConversation(0), Queue(Ask("a")), Queue(Ask("b"))];
  }

  function TurnOf(job: Job, worker: WorkerId, stage: Stage): Turn {
    NewTurn(worker, job).(stage := stage)
  }

  function DispatchOf(job: Job): Dispatch { Dispatch(0, job.sessionId, job, 0) }

  const SLOW := JobOf(1, 1, 1, 0)

  /** The first execution is cancelled while queued; the second is running on the shared session. */
  const SECOND_RUNS := TWO_QUEUED.(
    runtime := TWO_QUEUED.runtime.(
      life := [Life(Cancelled, None, None), Life(Running, Some(1), Some(70_000))],
      turns := map[1 := TurnOf(SLOW, 1, InTurn)],
      purging := {0},
      processes := map[1 := OwnedProcess(100, "start")]),
    mail := Mail(
      TWO_QUEUED.mail.outbox[1 := Row(SLOW, Dispatching)], {SLOW}, {SLOW}, {}, {DispatchOf(SLOW)}))

  const RUN_SECOND: seq<Step> := [
    Cancel(0), ClaimRow(0, 1, 0, 0), Publish(DispatchOf(SLOW)), Claim(SLOW, 1, 10_000, 60_000),
    CheckJob(1), ProcessStarted(1, CLAUDE, 1, OwnedProcess(100, "start"))]

  /** The first is cancelled and the second delivered. */
  const SECOND_DELIVERED := TWO_QUEUED.(
    runtime := TWO_QUEUED.runtime.(life := [Life(Cancelled, None, None), QUEUED], purging := {0}),
    mail := SECOND_RUNS.mail)

  lemma DeliverSecond()
    ensures Apply(Apply(Apply(TWO_QUEUED, RUN_SECOND[0]), RUN_SECOND[1]), RUN_SECOND[2]) == SECOND_DELIVERED
  {
    var w1 := Apply(TWO_QUEUED, Cancel(0));
    var w2 := Apply(w1, ClaimRow(0, 1, 0, 0));
    assert w2.mail.outbox == SECOND_RUNS.mail.outbox;
    assert Apply(w2, Publish(DispatchOf(SLOW))).runtime.life == SECOND_DELIVERED.runtime.life;
  }

  lemma StartSecond()
    ensures Sized(SECOND_DELIVERED)
    ensures Apply(Apply(Apply(SECOND_DELIVERED, RUN_SECOND[3]), RUN_SECOND[4]), RUN_SECOND[5]) == SECOND_RUNS
  {
    var w4 := Apply(SECOND_DELIVERED, Claim(SLOW, 1, 10_000, 60_000));
    assert w4.runtime.turns == map[1 := TurnOf(SLOW, 1, Validating)];
    var w5 := Apply(w4, CheckJob(1));
    assert Validate(w4.catalog, SLOW) == Accepted;
    var w6 := Apply(w5, ProcessStarted(1, CLAUDE, 1, OwnedProcess(100, "start")));
    assert w6.runtime.life == SECOND_RUNS.runtime.life;
    assert w6.runtime.turns == SECOND_RUNS.runtime.turns;
    assert w6.runtime.processes == SECOND_RUNS.runtime.processes;
  }

  lemma RunSecond()
    ensures Exec(TWO_QUEUED, RUN_SECOND) == SECOND_RUNS
  {
    DeliverSecond();
    StartSecond();
    Unroll6(TWO_QUEUED, RUN_SECOND);
  }

  lemma Unroll6(w: World, run: seq<Step>)
    requires Sized(w) && |run| == 6
    ensures Exec(w, run) == Apply(Apply(Apply(Apply(Apply(Apply(w, run[0]), run[1]), run[2]), run[3]), run[4]), run[5])
  {
    var rest := run[1..];
    Unroll5(Apply(w, run[0]), rest);
  }

  lemma Unroll5(w: World, run: seq<Step>)
    requires Sized(w) && |run| == 5
    ensures Exec(w, run) == Apply(Apply(Apply(Apply(Apply(w, run[0]), run[1]), run[2]), run[3]), run[4])
  {
    assert run[..3] + run[3..] == run;
    ExecConcat(w, run[..3], run[3..]);
    assert run[..3] == [run[0]] + [run[1]] + [run[2]];
    ExecConcat(w, [run[0]] + [run[1]], [run[2]]);
    ExecConcat(w, [run[0]], [run[1]]);
    assert run[3..] == [run[3]] + [run[4]];
    ExecConcat(Exec(w, run[..3]), [run[3]], [run[4]]);
    ExecOne(w, run[0]);
    ExecOne(Apply(w, run[0]), run[1]);
    ExecOne(Apply(Apply(w, run[0]), run[1]), run[2]);
    ExecOne(Exec(w, run[..3]), run[3]);
    ExecOne(Apply(Exec(w, run[..3]), run[3]), run[4]);
  }

  const REPLACEMENT := Job(2, 0, 0, 0, CLAUDE, 2, 1, None)

  /** A retry of the cancelled execution, now under "opus", retired the shared session and was then reaped. */
  const REPLACED := World(
    SECOND_RUNS.catalog.(
      executions := SECOND_RUNS.catalog.executions + [EXECUTION.(providerSessionId := 1, requestedModel := Some("opus"),
        modelSource := ProjectDefault)],
      providerSessions := [ProviderSession(0, CLAUDE, None), ProviderSession(0, CLAUDE, Some("opus"))],
      routing := SECOND_RUNS.catalog.routing + [RoutingDecision(0, 0, CLAUDE)]),
    SECOND_RUNS.runtime.(
      life := SECOND_RUNS.runtime.life + [Released(Failed)],
      sessionStatus := [SessionCompleted, SessionFailed],
      turns := SECOND_RUNS.runtime.turns[2 := TurnOf(REPLACEMENT, 2, Validating)],
      reaped := map[2 := Some(0)]),
    Mail(
      SECOND_RUNS.mail.outbox[2 := Row(REPLACEMENT, Dispatching)], {SLOW, REPLACEMENT}, {SLOW, REPLACEMENT}, {},
      {DispatchOf(SLOW), DispatchOf(REPLACEMENT)}))

  const REPLACE: seq<Step> := [
    Retry(RetryInput(0, CLAUDE, OPUS_DEFAULT, 0, true)), ClaimRow(0, 2, 0, 0), Publish(DispatchOf(REPLACEMENT)),
    Claim(REPLACEMENT, 2, 0, 60_000), Reap(2, 60_001, 0), ReapProviderSession(2, 0)]

  /** The retry alone. */
  const RETRIED := World(
    REPLACED.catalog,
    SECOND_RUNS.runtime.(life := SECOND_RUNS.runtime.life + [QUEUED], sessionStatus := [SessionCompleted, SessionRunning]),
    SECOND_RUNS.mail.(outbox := SECOND_RUNS.mail.outbox[2 := Row(REPLACEMENT, Pending)]))

  lemma RetrySecond()
    ensures Apply(SECOND_RUNS, REPLACE[0]) == RETRIED
  {
    var r := RetryInput(0, CLAUDE, OPUS_DEFAULT, 0, true);
    assert FindActive(SECOND_RUNS.catalog, SECOND_RUNS.runtime.life, 0, CLAUDE).None?;
    assert LatestProviderSession(SECOND_RUNS.catalog, 0, CLAUDE) == Some(0);
    assert Apply(SECOND_RUNS, REPLACE[0]).catalog == RETRIED.catalog;
  }

  const DELIVERED := World(REPLACED.catalog, RETRIED.runtime, REPLACED.mail)

  lemma Deliver()
    ensures Sized(RETRIED) && Apply(Apply(RETRIED, REPLACE[1]), REPLACE[2]) == DELIVERED
  {
    var w2 := Apply(RETRIED, REPLACE[1]);
    assert w2.mail.outbox == REPLACED.mail.outbox;
    assert w2.mail.inFlight == REPLACED.mail.inFlight;
    assert Apply(w2, REPLACE[2]).mail.jobs == REPLACED.mail.jobs;
  }

  /** The replacement has been claimed. */
  const CLAIMED := World(
    REPLACED.catalog,
    RETRIED.runtime.(
      life := SECOND_RUNS.runtime.life + [Life(Starting, Some(2), Some(60_000))],
      turns := REPLACED.runtime.turns),
    REPLACED.mail)

  lemma ClaimReplacement()
    ensures Sized(DELIVERED) && Apply(DELIVERED, REPLACE[3]) == CLAIMED
  {
    assert Apply(DELIVERED, REPLACE[3]) == DoClaim(DELIVERED, REPLACEMENT, 2, 0, 60_000);
    assert DoClaim(DELIVERED, REPLACEMENT, 2, 0, 60_000).runtime.turns == REPLACED.runtime.turns;
    assert DoClaim(DELIVERED, REPLACEMENT, 2, 0, 60_000).runtime.life == CLAIMED.runtime.life;
  }

  lemma Reaped()
    ensures DoReapProviderSession(DoReap(CLAIMED, 2, 60_001, 0), 2, 0) == REPLACED
  {
    var w5 := DoReap(CLAIMED, 2, 60_001, 0);
    assert w5.runtime.life == REPLACED.runtime.life;
    assert w5.runtime.reaped == map[2 := Some(0)];
    var w6 := DoReapProviderSession(w5, 2, 0);
    assert w6.runtime.sessionStatus == REPLACED.runtime.sessionStatus;
  }

  lemma ReapReplacement()
    ensures Sized(CLAIMED) && Apply(Apply(CLAIMED, REPLACE[4]), REPLACE[5]) == REPLACED
  {
    Reaped();
    ReapSteps(CLAIMED, 2, 60_001, 0);
  }

  lemma ReapSteps(w: World, id: Id, now: Time, sweep: SweepId)
    requires Sized(w)
    ensures Apply(Apply(w, Reap(id, now, sweep)), ReapProviderSession(id, sweep)) ==
      DoReapProviderSession(DoReap(w, id, now, sweep), id, sweep)
  {
  }

  lemma Replace()
    ensures Exec(SECOND_RUNS, REPLACE) == REPLACED
  {
    RetrySecond();
    Deliver();
    ClaimReplacement();
    ReapReplacement();
    Unroll6(SECOND_RUNS, REPLACE);
  }

  const QUEUE_TWO: seq<Step> := [CreateConversation(0), Queue(Ask("a")), Queue(Ask("b"))]

  const SUCCEED: seq<Step> := [EndTurn(1, false, false, false), FinalizeSuccess(1)]

  /** The second turn has answered. */
  const ANSWERED := REPLACED.(runtime := REPLACED.runtime.(
    turns := REPLACED.runtime.turns[1 := TurnOf(SLOW, 1, Ended(Answered))]))

  lemma Answer()
    ensures Sized(REPLACED) && Apply(REPLACED, SUCCEED[0]) == ANSWERED
  {
    assert REPLACED.runtime.turns[1] == TurnOf(SLOW, 1, InTurn);
  }

  lemma Finalize()
    ensures Sized(ANSWERED)
    ensures Apply(ANSWERED, SUCCEED[1]).runtime.sessionStatus == [SessionRunning, SessionFailed]
    ensures Apply(ANSWERED, SUCCEED[1]).catalog == REPLACED.catalog
  {
    assert !HasReply(ANSWERED.runtime.replies, 1);
    assert !SuccessConflicts(ANSWERED, 1);
    assert DoFinalizeSuccess(ANSWERED, 1).runtime.sessionStatus == [SessionRunning, SessionFailed];
  }

  lemma Succeed()
    ensures Sized(REPLACED)
    ensures Exec(REPLACED, SUCCEED).runtime.sessionStatus == [SessionRunning, SessionFailed]
    ensures Exec(REPLACED, SUCCEED).catalog == REPLACED.catalog
  {
    Answer();
    Finalize();
    assert SUCCEED == [SUCCEED[0]] + [SUCCEED[1]];
    ExecConcat(REPLACED, [SUCCEED[0]], [SUCCEED[1]]);
    ExecOne(REPLACED, SUCCEED[0]);
    ExecOne(ANSWERED, SUCCEED[1]);
  }

  lemma ExecParts(a: seq<Step>, b: seq<Step>, c: seq<Step>, d: seq<Step>)
    ensures Exec(EMPTY, a + b + c + d) == Exec(Exec(Exec(Exec(EMPTY, a), b), c), d)
  {
    ExecConcat(EMPTY, a, b);
    ExecConcat(EMPTY, a + b, c);
    ExecConcat(EMPTY, a + b + c, d);
  }

  /**
   "The RUNNING provider session is the newest" is false of the code: this run of ordinary
   steps leaves the retired session RUNNING beside a newer failed one.
   */
  lemma RetiredSessionRevived()
    ensures var w := Exec(EMPTY, QUEUE_TWO + RUN_SECOND + REPLACE + SUCCEED);
      && w.runtime.sessionStatus == [SessionRunning, SessionFailed]
      && |w.catalog.providerSessions| == 2
      && !IsNewest(w.catalog, 0)
  {
    ExecParts(QUEUE_TWO, RUN_SECOND, REPLACE, SUCCEED);
    QueueTwo();
    RunSecond();
    Replace();
    Succeed();
    assert SamePair(REPLACED.catalog.providerSessions[1], 0, CLAUDE);
  }
}
