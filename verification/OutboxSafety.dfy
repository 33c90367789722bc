/** The outbox: one row for every queued execution, one start, one dispatcher at a time. */
module OutboxSafety {
  import opened Wrappers
  import opened Tables
  import opened Submission
  import opened Protocol
  import opened CatalogSafety
  import opened LifecycleSafety
  import Backoff
  import Revival

  // ---------- every queued execution has its row ----------

  ghost predicate QueuedHasRow(w: World) {
    forall i :: 0 <= i < |w.runtime.life| && w.runtime.life[i].state == Queued ==> i in w.mail.outbox
  }

  predicate AddsRow(m: Mail, m': Mail, id: Id) {
    id !in m.outbox && id in m'.outbox && m'.outbox[id].status == Pending && m' == m.(outbox := m.outbox[id := m'.outbox[id]])
  }

  /** The mail changes only by the outbox steps and by a submission adding a pending row under a new id. */
  ghost predicate MailStep(w: World, s: Step, m': Mail) {
    var m := w.mail;
    match s
    case PurgeOutbox(id) =>
      m' == m || (id in w.runtime.purging && id in m.outbox && Purgeable(m.outbox[id]) && m' == m.(outbox := m.outbox - {id}))
    case ClaimRow(dispatcher, id, now, attemptsRead) => m' == DoClaimRow(m, dispatcher, id, now, attemptsRead)
    case Publish(d) => m' == DoPublish(m, d)
    case RecordPublished(d, now) => m' == DoRecordPublished(m, d, now)
    case RecordFailure(d, now, policy, jitter) => m' == DoRecordFailure(m, d, now, policy, jitter)
    case DispatcherCrash(dispatcher) => m' == m.(inFlight := set d | d in m.inFlight && d.dispatcher != dispatcher)
    case Recover(cutoff, now) => m' == DoRecover(m, cutoff, now)
    case SpendJob(job) => m' == DoSpend(m, job)
    case TrimJob(job) => m' == DoTrim(m, job)
    case _ => m' == m || exists id :: AddsRow(m, m', id)
  }

  lemma MailChanges(w: World, s: Step)
    requires CatalogInv(w)
    ensures MailStep(w, s, Apply(w, s).mail)
  {
    if s.Queue? || s.Retry? {
      SubmissionMail(w, s);
      assert Apply(w, s).mail == w.mail || AddsRow(w.mail, Apply(w, s).mail, |w.catalog.executions|);
    } else {
      OtherMail(w, s);
    }
  }

  lemma SubmissionMail(w: World, s: Step)
    requires CatalogInv(w) && (s.Queue? || s.Retry?)
    ensures Apply(w, s).mail == w.mail || AddsRow(w.mail, Apply(w, s).mail, |w.catalog.executions|)
    ensures |Apply(w, s).runtime.life| > |w.runtime.life| ==>
      |Apply(w, s).runtime.life| == |w.runtime.life| + 1 && |w.runtime.life| in Apply(w, s).mail.outbox
  {
    if s.Queue? {
      assert Apply(w, s) == Commit(w, QueueTx(w, s.q));
      QueueGood(w, s.q);
    } else {
      assert Apply(w, s) == Commit(w, RetryTx(w, s.r));
      RetryGood(w, s.r);
    }
  }

  lemma OtherMail(w: World, s: Step)
    requires Sized(w) && !s.Queue? && !s.Retry?
    ensures MailStep(w, s, Apply(w, s).mail)
  {
  }

  lemma MailKeepsRows(w: World, s: Step, m': Mail, i: Id)
    requires MailStep(w, s, m') && i in w.mail.outbox && i !in w.runtime.purging
    ensures i in m'.outbox
  {
  }

  lemma RowsKept(w: World, s: Step, w': World)
    requires Inv(w) && QueuedHasRow(w) && RowsForward(w, w') && MailStep(w, s, w'.mail)
    requires |w'.runtime.life| > |w.runtime.life| ==>
      |w'.runtime.life| == |w.runtime.life| + 1 && |w.runtime.life| in w'.mail.outbox
    ensures QueuedHasRow(w')
  {
    forall i | 0 <= i < |w'.runtime.life| && w'.runtime.life[i].state == Queued ensures i in w'.mail.outbox {
      if i < |w.runtime.life| {
        MailKeepsRows(w, s, w'.mail, i);
      }
    }
  }

  lemma StepQueuedHasRow(w: World, s: Step)
    requires Inv(w) && CatalogInv(w) && QueuedHasRow(w)
    ensures QueuedHasRow(Apply(w, s))
  {
    StepForward(w, s);
    MailChanges(w, s);
    if |Apply(w, s).runtime.life| > |w.runtime.life| {
      QueuedIsSubmitted(w, s);
    }
    RowsKept(w, s, Apply(w, s));
  }

  lemma QueuedIsSubmitted(w: World, s: Step)
    requires CatalogInv(w) && |Apply(w, s).runtime.life| > |w.runtime.life|
    ensures |Apply(w, s).runtime.life| == |w.runtime.life| + 1 && |w.runtime.life| in Apply(w, s).mail.outbox
  {
    if s.Queue? || s.Retry? {
      SubmissionMail(w, s);
    } else {
      NoNewRows(w, s);
    }
  }

  lemma NoNewRows(w: World, s: Step)
    requires Sized(w) && !s.Queue? && !s.Retry?
    ensures |Apply(w, s).runtime.life| == |w.runtime.life|
  {
    if s.CheckJob? {
      assert Apply(w, s) == DoCheckJob(w, s.id);
    }
  }

  lemma {:induction false} RunQueuedHasRow(w: World, run: seq<Step>)
    requires Inv(w) && CatalogInv(w) && QueuedHasRow(w)
    ensures QueuedHasRow(Exec(w, run))
    decreases |run|
  {
    if run != [] {
      StepQueuedHasRow(w, run[0]);
      StepInv(w, run[0]);
      StepCatalog(w, run[0]);
      RunQueuedHasRow(Apply(w, run[0]), run[1..]);
    }
  }

  /** A still-queued execution has exactly one outbox row with a payload for it, under its own id. */
  lemma QueuedHasExactlyOneRow(run: seq<Step>, i: Id)
    requires i < |Exec(EMPTY, run).runtime.life| && Exec(EMPTY, run).runtime.life[i].state == Queued
    ensures var outbox := Exec(EMPTY, run).mail.outbox;
      i in outbox && forall id :: id in outbox ==> (outbox[id].job.sessionId == i <==> id == i)
  {
    RunQueuedHasRow(EMPTY, run);
    RunCatalog(EMPTY, run);
  }

  // ---------- effectively-once start ----------

  /** The step takes the row from QUEUED to STARTING. */
  predicate Starts(w: World, s: Step, i: Id)
    requires Sized(w)
  {
    && i < |w.runtime.life| && w.runtime.life[i].state == Queued
    && i < |Apply(w, s).runtime.life| && Apply(w, s).runtime.life[i].state == Starting
  }

  function StartCount(w: World, run: seq<Step>, i: Id): nat
    requires Sized(w)
    decreases |run|
  {
    if run == [] then 0
    else (if Starts(w, run[0], i) then 1 else 0) + StartCount(Apply(w, run[0]), run[1..], i)
  }

  lemma {:induction false} StartsAtMostOnce(w: World, run: seq<Step>, i: Id)
    requires Inv(w)
    ensures StartCount(w, run, i) <= 1
    ensures i < |w.runtime.life| && w.runtime.life[i].state != Queued ==> StartCount(w, run, i) == 0
    decreases |run|
  {
    if run != [] {
      StepInv(w, run[0]);
      StepForward(w, run[0]);
      StartsAtMostOnce(Apply(w, run[0]), run[1..], i);
    }
  }

  lemma {:induction false} StartCountConcat(w: World, a: seq<Step>, b: seq<Step>, i: Id)
    requires Sized(w)
    ensures StartCount(w, a + b, i) == StartCount(w, a, i) + StartCount(Exec(w, a), b, i)
    decreases |a|
  {
    if a == [] {
      assert a + b == b;
    } else {
      assert (a + b)[0] == a[0] && (a + b)[1..] == a[1..] + b;
      StartCountConcat(Apply(w, a[0]), a[1..], b, i);
    }
  }

  /**
   However often dispatchers crash, recover, publish and deliver, an execution goes from
   QUEUED to STARTING at most once in any run.
   */
  lemma EffectivelyOnce(run: seq<Step>, i: Id)
    ensures StartCount(EMPTY, run, i) <= 1
  {
    StartsAtMostOnce(EMPTY, run, i);
  }

  /** While an execution is queued it has not started, and once cancelled in that state it never does. */
  lemma CancelledWhileQueuedNeverStarts(before: seq<Step>, after: seq<Step>, i: Id)
    requires i < |Exec(EMPTY, before).runtime.life| && Exec(EMPTY, before).runtime.life[i].state == Queued
    ensures StartCount(EMPTY, before + [Cancel(i)] + after, i) == 0
  {
    var w := Exec(EMPTY, before);
    RunInv(EMPTY, before);
    QueuedNotStarted(EMPTY, before, i);
    CancelStartsNothing(w, after, i);
    var later := [Cancel(i)] + after;
    StartCountConcat(EMPTY, before, later, i);
    assert before + [Cancel(i)] + after == before + later;
  }

  lemma CancelStartsNothing(w: World, after: seq<Step>, i: Id)
    requires Inv(w) && i < |w.runtime.life| && w.runtime.life[i].state == Queued
    ensures StartCount(w, [Cancel(i)] + after, i) == 0
  {
    StepInv(w, Cancel(i));
    assert Apply(w, Cancel(i)) == DoCancel(w, i);
    StartsAtMostOnce(DoCancel(w, i), after, i);
    assert ([Cancel(i)] + after)[1..] == after;
  }

  lemma {:induction false} QueuedNotStarted(w: World, run: seq<Step>, i: Id)
    requires Inv(w)
    requires i < |Exec(w, run).runtime.life| && Exec(w, run).runtime.life[i].state == Queued
    ensures StartCount(w, run, i) == 0
    decreases |run|
  {
    if run != [] {
      var w' := Apply(w, run[0]);
      StepInv(w, run[0]);
      QueuedNotStarted(w', run[1..], i);
      if i < |w'.runtime.life| {
        RunForward(w', run[1..], i);
      }
    }
  }

  // ---------- mutual exclusion ----------

  /** A dispatcher between claim and outcome has its row to itself, and the row is DISPATCHING. */
  ghost predicate Exclusive(m: Mail) {
    && (forall d :: d in m.inFlight ==> d.jobId in m.outbox && m.outbox[d.jobId].status == Dispatching)
    && (forall d, e :: d in m.inFlight && e in m.inFlight && d.jobId == e.jobId ==> d == e)
  }

  /** The recovery resets a row that a live dispatcher is still working on. */
  ghost predicate RecoversLive(m: Mail, s: Step) {
    s.Recover? && exists d :: d in m.inFlight && d.jobId in m.outbox && Stuck(m.outbox[d.jobId], s.cutoff)
  }

  lemma RecoveryExclusiveIff(m: Mail, cutoff: Time, now: Time)
    requires Exclusive(m)
    ensures Exclusive(DoRecover(m, cutoff, now)) <==> !RecoversLive(m, Recover(cutoff, now))
  {
    if RecoversLive(m, Recover(cutoff, now)) {
      var d :| d in m.inFlight && d.jobId in m.outbox && Stuck(m.outbox[d.jobId], cutoff);
      assert DoRecover(m, cutoff, now).outbox[d.jobId].status == Pending;
    }
  }

  lemma MailExclusive(w: World, s: Step, m': Mail)
    requires Exclusive(w.mail) && MailStep(w, s, m') && !s.Recover?
    ensures Exclusive(m')
  {
  }

  /** Every step keeps mutual exclusion, except exactly a recovery that resets a live dispatcher's row. */
  lemma StepExclusiveIff(w: World, s: Step)
    requires CatalogInv(w) && Exclusive(w.mail)
    ensures Exclusive(Apply(w, s).mail) <==> !RecoversLive(w.mail, s)
  {
    MailChanges(w, s);
    if s.Recover? {
      RecoveryExclusiveIff(w.mail, s.cutoff, s.now);
    } else {
      MailExclusive(w, s, Apply(w, s).mail);
    }
  }

  /** No recovery in the run resets a live dispatcher's row: it only meets rows whose dispatcher crashed. */
  ghost predicate RecoversOnlyCrashed(w: World, run: seq<Step>)
    requires Sized(w)
    decreases |run|
  {
    run == [] || (!RecoversLive(w.mail, run[0]) && RecoversOnlyCrashed(Apply(w, run[0]), run[1..]))
  }

  predicate Settled(row: OutboxRow) {
    row.status == Published || row.status == DeadLetter
  }

  lemma MailSettled(w: World, s: Step, m': Mail, id: Id)
    requires Exclusive(w.mail) && MailStep(w, s, m') && id in w.mail.outbox && Settled(w.mail.outbox[id])
    ensures id in m'.outbox && m'.outbox[id] == w.mail.outbox[id]
  {
  }

  lemma StepSettled(w: World, s: Step, id: Id)
    requires CatalogInv(w) && Exclusive(w.mail) && id in w.mail.outbox && Settled(w.mail.outbox[id])
    ensures id in Apply(w, s).mail.outbox && Apply(w, s).mail.outbox[id] == w.mail.outbox[id]
  {
    MailChanges(w, s);
    MailSettled(w, s, Apply(w, s).mail, id);
  }

  lemma {:induction false} RunExclusive(w: World, run: seq<Step>)
    requires CatalogInv(w) && Exclusive(w.mail) && RecoversOnlyCrashed(w, run)
    ensures CatalogInv(Exec(w, run)) && Exclusive(Exec(w, run).mail)
    ensures forall id :: id in w.mail.outbox && Settled(w.mail.outbox[id]) ==>
      id in Exec(w, run).mail.outbox && Exec(w, run).mail.outbox[id] == w.mail.outbox[id]
    decreases |run|
  {
    if run != [] {
      StepExclusiveIff(w, run[0]);
      StepCatalog(w, run[0]);
      forall id | id in w.mail.outbox && Settled(w.mail.outbox[id])
        ensures id in Apply(w, run[0]).mail.outbox && Apply(w, run[0]).mail.outbox[id] == w.mail.outbox[id]
      {
        StepSettled(w, run[0], id);
      }
      RunExclusive(Apply(w, run[0]), run[1..]);
    }
  }

  lemma {:induction false} RecoversSplit(w: World, a: seq<Step>, b: seq<Step>)
    requires Sized(w) && RecoversOnlyCrashed(w, a + b)
    ensures RecoversOnlyCrashed(w, a) && RecoversOnlyCrashed(Exec(w, a), b)
    decreases |a|
  {
    if a == [] {
      assert a + b == b;
    } else {
      assert (a + b)[0] == a[0] && (a + b)[1..] == a[1..] + b;
      RecoversSplit(Apply(w, a[0]), a[1..], b);
    }
  }

  /**
   When recovery only resets rows whose dispatcher has crashed, at most one dispatcher is
   between claim and outcome of a row, the update after its publish finds the row, and
   PUBLISHED and DEAD_LETTER rows never change again.
   */
  lemma DispatchIsExclusive(before: seq<Step>, after: seq<Step>)
    requires RecoversOnlyCrashed(EMPTY, before + after)
    ensures var m := Exec(EMPTY, before).mail;
      var m' := Exec(EMPTY, before + after).mail;
      && (forall d, e :: d in m.inFlight && e in m.inFlight && d.jobId == e.jobId ==> d == e)
      && (forall d :: d in m.inFlight ==> d.jobId in m.outbox)
      && (forall id :: id in m.outbox && Settled(m.outbox[id]) ==> id in m'.outbox && m'.outbox[id] == m.outbox[id])
  {
    RecoversSplit(EMPTY, before, after);
    RunExclusive(EMPTY, before);
    RunExclusive(Exec(EMPTY, before), after);
    ExecConcat(EMPTY, before, after);
  }

  // ---------- recovery of a dispatcher that is merely slow ----------

  const SLOW := Dispatch(7, 0, Revival.JobOf(0, 0, 0, 0), 0)
  const QUICK := Dispatch(8, 0, Revival.JobOf(0, 0, 0, 0), 0)

  const OVERTAKE: seq<Step> := [
    ClaimRow(7, 0, 0, 0), Recover(60_000, 120_000), ClaimRow(8, 0, 120_000, 0), Publish(QUICK), RecordPublished(QUICK, 120_000)]

  function AfterOvertake(m: Mail): Mail {
    DoRecordPublished(
      DoPublish(DoClaimRow(DoRecover(DoClaimRow(m, 7, 0, 0, 0), 60_000, 120_000), 8, 0, 120_000, 0), QUICK), QUICK, 120_000)
  }

  lemma Overtaken(m: Mail)
    requires m.inFlight == {} && 0 in m.outbox && m.outbox[0] == Revival.Row(Revival.JobOf(0, 0, 0, 0), Pending)
    ensures var m5 := AfterOvertake(m);
      SLOW in m5.inFlight && 0 in m5.outbox && m5.outbox[0].status == Published
  {
  }

  /** Each step of the overtaking, on any mail. */
  lemma MailSteps(w: World, m: Mail)
    requires Sized(w)
    ensures Apply(w.(mail := m), OVERTAKE[0]) == w.(mail := DoClaimRow(m, 7, 0, 0, 0))
    ensures Apply(w.(mail := m), OVERTAKE[1]) == w.(mail := DoRecover(m, 60_000, 120_000))
    ensures Apply(w.(mail := m), OVERTAKE[2]) == w.(mail := DoClaimRow(m, 8, 0, 120_000, 0))
    ensures Apply(w.(mail := m), OVERTAKE[3]) == w.(mail := DoPublish(m, QUICK))
    ensures Apply(w.(mail := m), OVERTAKE[4]) == w.(mail := DoRecordPublished(m, QUICK, 120_000))
  {
  }

  lemma OvertakeMail(w: World)
    requires Sized(w)
    ensures Exec(w, OVERTAKE) == w.(mail := AfterOvertake(w.mail))
  {
    var m1 := DoClaimRow(w.mail, 7, 0, 0, 0);
    var m2 := DoRecover(m1, 60_000, 120_000);
    var m3 := DoClaimRow(m2, 8, 0, 120_000, 0);
    var m4 := DoPublish(m3, QUICK);
    MailSteps(w, w.mail);
    MailSteps(w, m1);
    MailSteps(w, m2);
    MailSteps(w, m3);
    MailSteps(w, m4);
    Revival.Unroll5(w, OVERTAKE);
  }

  /**
   Recovery looks only at the age of a claim. A dispatcher slower than that age is overtaken:
   a second one publishes the row, and then the first one's failure takes the published row
   back to FAILED.
   */
  lemma SlowDispatcherIsOvertaken(policy: Backoff.Policy)
    requires policy.maxAttempts > 1
    ensures var w := Exec(EMPTY, Revival.QUEUE_TWO + OVERTAKE);
      var w' := Apply(w, RecordFailure(SLOW, 120_000, policy, 0.0));
      && 0 in w.mail.outbox && w.mail.outbox[0].status == Published
      && 0 in w'.mail.outbox && w'.mail.outbox[0].status == PublishFailed
  {
    var start := Exec(EMPTY, Revival.QUEUE_TWO);
    Revival.QueueTwo();
    ExecConcat(EMPTY, Revival.QUEUE_TWO, OVERTAKE);
    OvertakeMail(start);
    Overtaken(start.mail);
    TakenBack(Exec(start, OVERTAKE), policy);
  }

  lemma TakenBack(w: World, policy: Backoff.Policy)
    requires Sized(w) && policy.maxAttempts > 1 && SLOW in w.mail.inFlight && 0 in w.mail.outbox
    ensures var w' := Apply(w, RecordFailure(SLOW, 120_000, policy, 0.0));
      0 in w'.mail.outbox && w'.mail.outbox[0].status == PublishFailed
  {
  }
}
