/**
 "A finished session never looks claimed" (apps/worker/src/worker-lease.ts): which cancelled executions still get
 released by their worker, and which keep its name for ever.
 */
module Release {
  import opened Wrappers
  import opened Capability
  import opened Tables
  import opened Submission
  import opened Validation
  import opened Protocol
  import opened LifecycleSafety
  import opened CatalogSafety
  import opened Revival

  // ---------- the worker's job ----------

  /** A worker's turn is about a delivered job of its own row. */
  ghost predicate TurnsLinked(w: World) {
    forall i :: i in w.runtime.turns ==> w.runtime.turns[i].job in w.mail.jobs && w.runtime.turns[i].job.sessionId == i
  }

  /** Turns appear only for waiting jobs and keep their job. */
  ghost predicate TurnsFrom(w: World, w': World) {
    && w.mail.jobs <= w'.mail.jobs
    && forall i :: i in w'.runtime.turns ==>
         || (i in w.runtime.turns && w'.runtime.turns[i].job == w.runtime.turns[i].job)
         || (w'.runtime.turns[i].job in w.mail.waiting && w'.runtime.turns[i].job.sessionId == i)
  }

  lemma StepTurnsFrom(w: World, s: Step)
    requires Sized(w)
    ensures TurnsFrom(w, Apply(w, s))
  {
    if s.Queue? {
      assert Apply(w, s) == Commit(w, QueueTx(w, s.q));
      SubmissionTurns(w, QueueTx(w, s.q)) by { QueueLife(w, s.q); QueueGood(w, s.q); }
    } else if s.Retry? {
      assert Apply(w, s) == Commit(w, RetryTx(w, s.r));
      SubmissionTurns(w, RetryTx(w, s.r)) by { RetryLife(w, s.r); RetryMail(w, s.r); }
    } else {
      OtherTurns(w, s);
    }
  }

  lemma RetryMail(w: World, r: RetryInput)
    requires Sized(w)
    ensures RetryTx(w, r).Some? ==> RetryTx(w, r).value.world.mail.jobs == w.mail.jobs
  {
  }

  lemma SubmissionTurns(w: World, c: Option<Committed>)
    requires c.Some? ==> AddsQueued(w, c.value.world) && c.value.world.mail.jobs == w.mail.jobs
    ensures TurnsFrom(w, Commit(w, c))
  {
  }

  lemma OtherTurns(w: World, s: Step)
    requires Sized(w) && !s.Queue? && !s.Retry?
    ensures TurnsFrom(w, Apply(w, s))
  {
    if OnTurn(s) {
      TurnsOnTurn(w, s);
    } else if OnRow(s) {
      TurnsOnRow(w, s);
    } else {
      TurnsOtherwise(w, s);
    }
  }

  lemma TurnsOnTurn(w: World, s: Step)
    requires Sized(w) && OnTurn(s)
    ensures TurnsFrom(w, Apply(w, s))
  {
  }

  lemma TurnsOnRow(w: World, s: Step)
    requires Sized(w) && OnRow(s)
    ensures TurnsFrom(w, Apply(w, s))
  {
    if s.Claim? {
      assert Apply(w, s) == DoClaim(w, s.job, s.worker, s.now, s.leaseMs);
      TurnsOfClaim(w, s.job, s.worker, s.now, s.leaseMs);
    } else if s.CheckJob? {
      assert Apply(w, s) == DoCheckJob(w, s.id);
      TurnsOfCheck(w, s.id);
    } else if s.WriteTermination? {
      assert Apply(w, s) == DoWriteTermination(w, s.id);
    } else {
      assert Apply(w, s).runtime.turns == w.runtime.turns;
    }
  }

  lemma TurnsOfClaim(w: World, job: Job, worker: WorkerId, now: Time, leaseMs: int)
    requires Sized(w)
    ensures TurnsFrom(w, DoClaim(w, job, worker, now, leaseMs))
  {
  }

  lemma TurnsOfCheck(w: World, id: Id)
    requires Sized(w)
    ensures TurnsFrom(w, DoCheckJob(w, id))
  {
  }

  lemma TurnsOtherwise(w: World, s: Step)
    requires Sized(w) && !OnTurn(s) && !OnRow(s) && !s.Queue? && !s.Retry?
    ensures TurnsFrom(w, Apply(w, s))
  {
  }

  lemma {:induction false} RunTurnsLinked(w: World, run: seq<Step>)
    requires CatalogInv(w) && TurnsLinked(w)
    ensures TurnsLinked(Exec(w, run))
    decreases |run|
  {
    if run != [] {
      StepTurnsFrom(w, run[0]);
      StepCatalog(w, run[0]);
      RunTurnsLinked(Apply(w, run[0]), run[1..]);
    }
  }

  // ---------- what is released ----------

  /**
   Nothing was requested yet and a reading can still come back: one is under way, or the turn runs, or it will
   run because its job passes the cross-check; or the cancelling write has been requested and not rejected.
   */
  predicate Releasable(c: Catalog, t: Turn) {
    match t.termination
    case NotRequested =>
      t.readings > 0 || t.stage == InTurn || (t.stage == Validating && Validate(c, t.job) == Accepted)
    case Requested(target) => target == Cancelled
    case Written(_) => false
    case Lost(_) => false
  }

  predicate CancelledAndClaimed(r: Runtime, i: Id) {
    && i < |r.life| && r.life[i].state == Cancelled && r.life[i].worker.Some?
    && i in r.turns && r.turns[i].worker == r.life[i].worker.value
  }

  ghost predicate CanBeReleased(w: World, i: Id)
    requires Sized(w)
  {
    exists run :: i < |Exec(w, run).runtime.life| && Exec(w, run).runtime.life[i].worker.None?
  }

  lemma ReleasedBy(w: World, run: seq<Step>, i: Id)
    requires Sized(w) && i < |Exec(w, run).runtime.life| && Exec(w, run).runtime.life[i].worker.None?
    ensures CanBeReleased(w, i)
  {
  }

  lemma ReleasedAfter(w: World, s: Step, i: Id)
    requires Sized(w) && CanBeReleased(Apply(w, s), i)
    ensures CanBeReleased(w, i)
  {
    var run :| i < |Exec(Apply(w, s), run).runtime.life| && Exec(Apply(w, s), run).runtime.life[i].worker.None?;
    assert ([s] + run)[1..] == run;
    ReleasedBy(w, [s] + run, i);
  }

  lemma WriteReleases(w: World, i: Id)
    requires Sized(w) && CancelledAndClaimed(w.runtime, i) && w.runtime.turns[i].termination == Requested(Cancelled)
    ensures CanBeReleased(w, i)
  {
    assert Apply(w, WriteTermination(i)) == DoWriteTermination(w, i);
    ExecOne(w, WriteTermination(i));
    ReleasedBy(w, [WriteTermination(i)], i);
  }

  lemma ReadingReleases(w: World, i: Id)
    requires Sized(w) && CancelledAndClaimed(w.runtime, i) && w.runtime.turns[i].termination == NotRequested
    requires w.runtime.turns[i].readings > 0 && !w.runtime.turns[i].cancellationRequested
    ensures CanBeReleased(w, i)
  {
    assert Apply(w, PollReturns(i, true)) == DoPollReturns(w, i, true);
    WriteReleases(DoPollReturns(w, i, true), i);
    ReleasedAfter(w, PollReturns(i, true), i);
  }

  lemma TurnReleases(w: World, i: Id)
    requires Sized(w) && CancelledAndClaimed(w.runtime, i) && w.runtime.turns[i].termination == NotRequested
    requires w.runtime.turns[i].stage == InTurn && !w.runtime.turns[i].cancellationRequested
    ensures CanBeReleased(w, i)
  {
    assert Apply(w, PollCancellation(i)) == DoPoll(w, i);
    ReadingReleases(DoPoll(w, i), i);
    ReleasedAfter(w, PollCancellation(i), i);
  }

  lemma CheckReleases(w: World, i: Id)
    requires Sized(w) && CancelledAndClaimed(w.runtime, i) && w.runtime.turns[i].termination == NotRequested
    requires w.runtime.turns[i].stage == Validating && !w.runtime.turns[i].cancellationRequested
    requires Validate(w.catalog, w.runtime.turns[i].job) == Accepted
    ensures CanBeReleased(w, i)
  {
    assert Apply(w, CheckJob(i)) == DoCheckJob(w, i);
    TurnReleases(DoCheckJob(w, i), i);
    ReleasedAfter(w, CheckJob(i), i);
  }

  // ---------- what never is ----------

  predicate Stuck(c: Catalog, r: Runtime, i: Id) {
    CancelledAndClaimed(r, i) && !Releasable(c, r.turns[i])
  }

  lemma StuckSubmission(w: World, s: Step, i: Id)
    requires CatalogInv(w) && TurnsLinked(w) && Stuck(w.catalog, w.runtime, i)
    requires s.Queue? || s.Retry? || s.CreateConversation? || s.CreateTask?
    ensures Stuck(Apply(w, s).catalog, Apply(w, s).runtime, i)
  {
    StepCatalog(w, s);
    var job := w.runtime.turns[i].job;
    assert JobLinked(w.catalog, job);
    AcceptedLater(w.catalog, Apply(w, s).catalog, job);
    AcceptedIffProjectMatches(w.catalog, job);
    if s.Queue? { QueueLife(w, s.q); }
    if s.Retry? { RetryLife(w, s.r); }
  }

  lemma StuckOnTurn(w: World, s: Step, i: Id)
    requires Sized(w) && OnTurn(s) && Stuck(w.catalog, w.runtime, i)
    ensures Stuck(Apply(w, s).catalog, Apply(w, s).runtime, i)
  {
    match s
    case PollCancellation(id) => assert Apply(w, s) == DoPoll(w, id);
    case PollReturns(id, current) =>
      assert Apply(w, s) == DoPollReturns(w, id, current);
      StuckPollReturns(w, id, current, i);
    case Timer(id, code) => assert Apply(w, s) == DoTimer(w, id, code);
    case LoseTermination(id) => assert Apply(w, s) == DoLoseTermination(w, id);
    case EndTurn(id, raised, rejected, draining) => assert Apply(w, s) == DoEndTurn(w, id, raised, rejected, draining);
  }

  lemma StuckPollReturns(w: World, id: Id, current: bool, i: Id)
    requires Sized(w) && Stuck(w.catalog, w.runtime, i)
    ensures Stuck(w.catalog, DoPollReturns(w, id, current).runtime, i) && DoPollReturns(w, id, current).catalog == w.catalog
  {
  }

  lemma StuckOnRow(w: World, s: Step, i: Id)
    requires Inv(w) && OnRow(s) && Stuck(w.catalog, w.runtime, i)
    ensures Stuck(Apply(w, s).catalog, Apply(w, s).runtime, i)
  {
    match s
    case Cancel(id) =>
      assert Apply(w, s) == DoCancel(w, id);
      StuckCancel(w, id, i);
    case Claim(job, worker, now, leaseMs) =>
      assert Apply(w, s) == DoClaim(w, job, worker, now, leaseMs);
      StuckClaim(w, job, worker, now, leaseMs, i);
    case CheckJob(id) =>
      assert Apply(w, s) == DoCheckJob(w, id);
      StuckCheckJob(w, id, i);
    case WriteTermination(id) =>
      assert Apply(w, s) == DoWriteTermination(w, id);
      StuckWrite(w, id, i);
    case _ => StuckInProgress(w, s, i);
  }

  /** Writes guarded by a state in progress. */
  lemma StuckInProgress(w: World, s: Step, i: Id)
    requires Sized(w) && Stuck(w.catalog, w.runtime, i)
    requires s.Heartbeat? || s.ProcessStarted? || s.OwnershipFailed? || s.Reap?
    ensures Stuck(Apply(w, s).catalog, Apply(w, s).runtime, i)
  {
  }

  lemma StuckCancel(w: World, id: Id, i: Id)
    requires Sized(w) && Stuck(w.catalog, w.runtime, i)
    ensures Stuck(w.catalog, DoCancel(w, id).runtime, i) && DoCancel(w, id).catalog == w.catalog
  {
  }

  lemma StuckClaim(w: World, job: Job, worker: WorkerId, now: Time, leaseMs: int, i: Id)
    requires Sized(w) && Stuck(w.catalog, w.runtime, i)
    ensures Stuck(w.catalog, DoClaim(w, job, worker, now, leaseMs).runtime, i)
    ensures DoClaim(w, job, worker, now, leaseMs).catalog == w.catalog
  {
  }

  lemma StuckCheckJob(w: World, id: Id, i: Id)
    requires Sized(w) && Stuck(w.catalog, w.runtime, i)
    ensures Stuck(w.catalog, DoCheckJob(w, id).runtime, i) && DoCheckJob(w, id).catalog == w.catalog
  {
  }

  lemma StuckWrite(w: World, id: Id, i: Id)
    requires Inv(w) && Stuck(w.catalog, w.runtime, i)
    ensures Stuck(w.catalog, DoWriteTermination(w, id).runtime, i) && DoWriteTermination(w, id).catalog == w.catalog
  {
    assert TurnSound(w.runtime, i);
  }

  lemma StuckFinalize(w: World, id: Id, i: Id)
    requires Sized(w) && Stuck(w.catalog, w.runtime, i)
    ensures Stuck(DoFinalizeSuccess(w, id).catalog, DoFinalizeSuccess(w, id).runtime, i)
    ensures Stuck(DoFinalizeFailure(w, id).catalog, DoFinalizeFailure(w, id).runtime, i)
  {
  }

  lemma StepStuck(w: World, s: Step, i: Id)
    requires Inv(w) && CatalogInv(w) && TurnsLinked(w) && Stuck(w.catalog, w.runtime, i)
    ensures Stuck(Apply(w, s).catalog, Apply(w, s).runtime, i)
  {
    if OnTurn(s) {
      StuckOnTurn(w, s, i);
    } else if OnRow(s) {
      StuckOnRow(w, s, i);
    } else if s.FinalizeSuccess? || s.FinalizeFailure? {
      StuckFinalize(w, s.id, i);
    } else if s.Queue? || s.Retry? || s.CreateConversation? || s.CreateTask? {
      StuckSubmission(w, s, i);
    }
  }

  lemma {:induction false} RunStuck(w: World, run: seq<Step>, i: Id)
    requires Inv(w) && CatalogInv(w) && TurnsLinked(w) && Stuck(w.catalog, w.runtime, i)
    ensures Stuck(Exec(w, run).catalog, Exec(w, run).runtime, i)
    decreases |run|
  {
    if run != [] {
      StepStuck(w, run[0], i);
      StepInv(w, run[0]);
      StepCatalog(w, run[0]);
      RunTurnsLinked(w, [run[0]]);
      ExecOne(w, run[0]);
      RunStuck(Apply(w, run[0]), run[1..], i);
    }
  }

  /**
   The exact condition: in every reachable world a cancelled execution that its worker still owns is released by
   some continuation if and only if the worker can still read the cancellation before any other termination was
   requested, or its cancelling write is pending and was not rejected.
   */
  lemma ReleasedIff(before: seq<Step>, i: Id)
    requires var r := Exec(EMPTY, before).runtime; i < |r.life| && r.life[i].state == Cancelled && r.life[i].worker.Some?
    ensures var w := Exec(EMPTY, before);
      i in w.runtime.turns && (CanBeReleased(w, i) <==> Releasable(w.catalog, w.runtime.turns[i]))
  {
    RunInv(EMPTY, before);
    RunCatalog(EMPTY, before);
    RunTurnsLinked(EMPTY, before);
    var w := Exec(EMPTY, before);
    assert Owned(w.runtime, i) && TurnSound(w.runtime, i);
    var t := w.runtime.turns[i];
    if !Releasable(w.catalog, t) {
      forall run ensures Stuck(Exec(w, run).catalog, Exec(w, run).runtime, i) {
        RunStuck(w, run, i);
      }
    } else {
      ReleasableIsReleased(w, i);
    }
  }

  lemma ReleasableIsReleased(w: World, i: Id)
    requires Inv(w) && CancelledAndClaimed(w.runtime, i) && Releasable(w.catalog, w.runtime.turns[i])
    ensures CanBeReleased(w, i)
  {
    assert TurnSound(w.runtime, i);
    var t := w.runtime.turns[i];
    if t.termination.Requested? {
      WriteReleases(w, i);
    } else if t.readings > 0 {
      ReadingReleases(w, i);
    } else if t.stage == InTurn {
      TurnReleases(w, i);
    } else {
      CheckReleases(w, i);
    }
  }

  // ---------- a race that any cancellation can lose ----------

  const RACE: seq<Step> := [EndTurn(1, false, false, false), Cancel(1)]

  /** The running execution answered, and was cancelled before its success was recorded. */
  const RACED := SECOND_RUNS.(runtime := SECOND_RUNS.runtime.(
    life := SECOND_RUNS.runtime.life[1 := Life(Cancelled, Some(1), Some(70_000))],
    turns := SECOND_RUNS.runtime.turns[1 := TurnOf(SLOW, 1, Ended(Answered))],
    purging := {0, 1}))

  lemma Race()
    ensures Sized(SECOND_RUNS) && Exec(SECOND_RUNS, RACE) == RACED
  {
    var answered := DoEndTurn(SECOND_RUNS, 1, false, false, false);
    assert answered.runtime.turns == RACED.runtime.turns;
    assert Apply(SECOND_RUNS, RACE[0]) == answered;
    assert DoCancel(answered, 1) == RACED;
    assert Apply(answered, RACE[1]) == RACED;
    assert RACE == [RACE[0]] + [RACE[1]];
    ExecConcat(SECOND_RUNS, [RACE[0]], [RACE[1]]);
    ExecOne(SECOND_RUNS, RACE[0]);
    ExecOne(answered, RACE[1]);
  }

  /** A cancellation between the answer and its recording leaves the row claimed for ever, with no timeout at all. */
  lemma CancelledAfterAnswerStaysClaimed()
    ensures var w := Exec(EMPTY, QUEUE_TWO + RUN_SECOND + RACE);
      && CancelledAndClaimed(w.runtime, 1) && w.runtime.turns[1].timeoutCode.None?
      && !CanBeReleased(w, 1)
  {
    ExecConcat(EMPTY, QUEUE_TWO, RUN_SECOND);
    ExecConcat(EMPTY, QUEUE_TWO + RUN_SECOND, RACE);
    QueueTwo();
    RunSecond();
    Race();
    ReleasedIff(QUEUE_TWO + RUN_SECOND + RACE, 1);
  }

  /** A termination that is rejected before its write is not asked for again: the row stays claimed for ever. */
  lemma LostTerminationStaysClaimed(before: seq<Step>, i: Id)
    requires var r := Exec(EMPTY, before).runtime; i < |r.life| && r.life[i].state == Cancelled && r.life[i].worker.Some?
    requires i in Exec(EMPTY, before).runtime.turns && Exec(EMPTY, before).runtime.turns[i].termination.Requested?
    ensures !CanBeReleased(Apply(Exec(EMPTY, before), LoseTermination(i)), i)
  {
    var w := Exec(EMPTY, before);
    LoseIs(w, i);
    ExecConcat(EMPTY, before, [LoseTermination(i)]);
    ExecOne(w, LoseTermination(i));
    ReleasedIff(before + [LoseTermination(i)], i);
  }

  lemma LoseIs(w: World, i: Id)
    requires Sized(w) && i in w.runtime.turns && w.runtime.turns[i].termination.Requested?
    ensures var w' := Apply(w, LoseTermination(i));
      w'.runtime.life == w.runtime.life && i in w'.runtime.turns && w'.runtime.turns[i].termination.Lost?
  {
  }
}
