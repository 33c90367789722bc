/** Delivery: what PUBLISHED means, and which queued executions can still be started. */
module Delivery {
  import opened Wrappers
  import opened Tables
  import opened Submission
  import opened Protocol
  import opened CatalogSafety
  import opened LifecycleSafety
  import opened OutboxSafety

  /** Some job for the execution has reached the queue. */
  predicate Delivered(m: Mail, i: Id) {
    exists job :: job in m.jobs && job.sessionId == i
  }

  ghost predicate PublishedDelivered(m: Mail) {
    forall id :: id in m.outbox && m.outbox[id].status == Published ==> Delivered(m, id)
  }

  lemma DeliveredStays(m: Mail, m': Mail, i: Id)
    requires m.jobs <= m'.jobs && Delivered(m, i)
    ensures Delivered(m', i)
  {
  }

  /** Every dispatch carries a job for the row it claimed. */
  ghost predicate CarriesOwnJob(m: Mail) {
    forall d :: d in m.inFlight ==> d.job.sessionId == d.jobId
  }

  lemma MailPublishedDelivered(w: World, s: Step, m': Mail)
    requires CarriesOwnJob(w.mail) && PublishedDelivered(w.mail) && MailStep(w, s, m')
    ensures PublishedDelivered(m') && w.mail.jobs <= m'.jobs
  {
    forall id | id in m'.outbox && m'.outbox[id].status == Published ensures Delivered(m', id) {
      if id in w.mail.outbox && w.mail.outbox[id].status == Published {
        DeliveredStays(w.mail, m', id);
      } else {
        assert s.RecordPublished? && s.dispatch.jobId == id && s.dispatch.job in m'.jobs;
      }
    }
  }

  lemma {:induction false} RunPublishedDelivered(w: World, run: seq<Step>)
    requires CatalogInv(w) && PublishedDelivered(w.mail)
    ensures PublishedDelivered(Exec(w, run).mail)
    decreases |run|
  {
    if run != [] {
      MailChanges(w, run[0]);
      MailPublishedDelivered(w, run[0], Apply(w, run[0]).mail);
      StepCatalog(w, run[0]);
      RunPublishedDelivered(Apply(w, run[0]), run[1..]);
    }
  }

  // ---------- what can be started ----------

  predicate Started(w: World, i: Id) {
    i < |w.runtime.life| && w.runtime.life[i].state == Starting
  }

  ghost predicate CanStart(w: World, i: Id)
    requires Sized(w)
  {
    exists run :: Started(Exec(w, run), i)
  }

  lemma StartsBy(w: World, s: Step, i: Id)
    requires Sized(w) && CanStart(Apply(w, s), i)
    ensures CanStart(w, i)
  {
    var run :| Started(Exec(Apply(w, s), run), i);
    assert ([s] + run)[1..] == run;
    assert Started(Exec(w, [s] + run), i);
  }

  predicate Waits(w: World, i: Id) {
    i < |w.runtime.life| && w.runtime.life[i].state == Queued
  }

  /** The queue can still deliver a job for the execution. */
  predicate Waiting(m: Mail, i: Id) {
    exists job :: job in m.waiting && job.sessionId == i
  }

  /** Some dispatcher has claimed the row and can still publish it. */
  predicate InFlight(m: Mail, i: Id) {
    exists d :: d in m.inFlight && d.jobId == i
  }

  lemma WaitingStarts(w: World, i: Id)
    requires CatalogInv(w) && Waits(w, i) && Waiting(w.mail, i)
    ensures CanStart(w, i)
  {
    var job :| job in w.mail.waiting && job.sessionId == i;
    var s := Claim(job, 0, 0, 0);
    ExecOne(w, s);
    assert Apply(w, s) == DoClaim(w, job, 0, 0, 0);
    assert Started(Exec(w, [s]), i);
  }

  lemma PublishStarts(w: World, d: Dispatch, i: Id)
    requires CatalogInv(w) && Waits(w, i) && d in w.mail.inFlight && d.jobId == i && d.job !in w.mail.spent
    ensures CanStart(w, i)
  {
    var next := Apply(w, Publish(d));
    StepCatalog(w, Publish(d));
    assert next == w.(mail := DoPublish(w.mail, d));
    assert d.job in next.mail.waiting && d.job.sessionId == i;
    WaitingStarts(next, i);
    StartsBy(w, Publish(d), i);
  }

  /** A job of the same id that has had its attempt must be forgotten first. */
  lemma InFlightStarts(w: World, i: Id)
    requires CatalogInv(w) && Waits(w, i) && InFlight(w.mail, i)
    ensures CanStart(w, i)
  {
    var d :| d in w.mail.inFlight && d.jobId == i;
    var next := Apply(w, TrimJob(d.job));
    StepCatalog(w, TrimJob(d.job));
    assert next == w.(mail := DoTrim(w.mail, d.job));
    PublishStarts(next, d, i);
    StartsBy(w, TrimJob(d.job), i);
  }

  lemma DueStarts(w: World, i: Id)
    requires CatalogInv(w) && Waits(w, i) && i in w.mail.outbox && Purgeable(w.mail.outbox[i])
    ensures CanStart(w, i)
  {
    var row := w.mail.outbox[i];
    var s := ClaimRow(0, i, row.nextAttemptAt, row.attempts);
    StepCatalog(w, s);
    assert Dispatch(0, i, row.job, row.attempts) in Apply(w, s).mail.inFlight;
    InFlightStarts(Apply(w, s), i);
    StartsBy(w, s, i);
  }

  lemma StuckStarts(w: World, i: Id)
    requires CatalogInv(w) && Waits(w, i) && i in w.mail.outbox && w.mail.outbox[i].status == Dispatching
    ensures CanStart(w, i)
  {
    var s := Recover(w.mail.outbox[i].updatedAt + 1, 0);
    StepCatalog(w, s);
    DueStarts(Apply(w, s), i);
    StartsBy(w, s, i);
  }

  // ---------- what cannot ----------

  /** Nothing left that could deliver a job for the execution. */
  ghost predicate Undeliverable(m: Mail, i: Id) {
    i in m.outbox && Settled(m.outbox[i]) && !Waiting(m, i) && !InFlight(m, i)
  }

  lemma StaysUndeliverable(w: World, s: Step, m': Mail, i: Id)
    requires CarriesOwnJob(w.mail) && MailStep(w, s, m') && Undeliverable(w.mail, i)
    ensures Undeliverable(m', i)
  {
    if s.Publish? && s.dispatch in w.mail.inFlight {
      assert s.dispatch.job.sessionId == s.dispatch.jobId;
    }
  }

  /** Only a worker's claim of a waiting job starts an execution. */
  lemma OnlyClaimsStart(w: World, s: Step, i: Id)
    requires Inv(w) && Waits(w, i) && Started(Apply(w, s), i)
    ensures Waiting(w.mail, i)
  {
    assert Owned(w.runtime, i);
    if s.Queue? {
      QueueLife(w, s.q);
    } else if s.Retry? {
      RetryLife(w, s.r);
    } else if s.Claim? {
      assert Apply(w, s) == DoClaim(w, s.job, s.worker, s.now, s.leaseMs);
      assert s.job in w.mail.waiting && s.job.sessionId == i;
    } else {
      OthersDoNotStart(w, s, i);
    }
  }

  lemma OthersDoNotStart(w: World, s: Step, i: Id)
    requires Inv(w) && Waits(w, i) && !s.Queue? && !s.Retry? && !s.Claim?
    ensures !Started(Apply(w, s), i)
  {
    assert Owned(w.runtime, i);
    if s.CheckJob? {
      assert Apply(w, s) == DoCheckJob(w, s.id);
    } else if s.WriteTermination? {
      assert Apply(w, s) == DoWriteTermination(w, s.id);
    } else if LeavesRows(s) {
      RowsUntouched(w, s);
    }
  }

  predicate WaitsInVain(w: World, i: Id) {
    i < |w.runtime.life| && (w.runtime.life[i].state == Queued || w.runtime.life[i].state == Cancelled)
  }

  lemma StaysWaitingInVain(w: World, s: Step, i: Id)
    requires Inv(w) && CatalogInv(w) && WaitsInVain(w, i) && Undeliverable(w.mail, i)
    ensures WaitsInVain(Apply(w, s), i) && Undeliverable(Apply(w, s).mail, i)
  {
    MailChanges(w, s);
    StaysUndeliverable(w, s, Apply(w, s).mail, i);
    StepForward(w, s);
    if Waits(w, i) && Started(Apply(w, s), i) {
      OnlyClaimsStart(w, s, i);
    }
  }

  lemma {:induction false} NeverStarts(w: World, run: seq<Step>, i: Id)
    requires Inv(w) && CatalogInv(w) && WaitsInVain(w, i) && Undeliverable(w.mail, i)
    ensures !Started(Exec(w, run), i)
    decreases |run|
  {
    if run != [] {
      StaysWaitingInVain(w, run[0], i);
      StepInv(w, run[0]);
      StepCatalog(w, run[0]);
      NeverStarts(Apply(w, run[0]), run[1..], i);
    }
  }

  /**
   In every reachable world a queued execution can still be started, whatever crashed, if and only if its row is
   neither published nor given up, or a dispatcher still holds it, or the queue can still deliver a job for it.
   */
  lemma StartableIff(before: seq<Step>, i: Id)
    requires Waits(Exec(EMPTY, before), i)
    ensures var m := Exec(EMPTY, before).mail;
      && i in m.outbox
      && (CanStart(Exec(EMPTY, before), i) <==> !Settled(m.outbox[i]) || InFlight(m, i) || Waiting(m, i))
  {
    RunInv(EMPTY, before);
    RunCatalog(EMPTY, before);
    QueuedHasExactlyOneRow(before, i);
    var w := Exec(EMPTY, before);
    if Undeliverable(w.mail, i) {
      forall run ensures !Started(Exec(w, run), i) {
        NeverStarts(w, run, i);
      }
    } else if Waiting(w.mail, i) {
      WaitingStarts(w, i);
    } else if InFlight(w.mail, i) {
      InFlightStarts(w, i);
    } else {
      match w.mail.outbox[i].status
      case Dispatching => StuckStarts(w, i);
      case _ => DueStarts(w, i);
    }
  }
}
