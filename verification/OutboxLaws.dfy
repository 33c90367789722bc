/**
 What the columns of an outbox row record over whole runs (packages/database/src/outbox-service.ts), and what the
 queue does with a job.
 */
module OutboxLaws {
  import opened Wrappers
  import opened Tables
  import opened Submission
  import opened Protocol
  import opened CatalogSafety
  import opened LifecycleSafety
  import opened OutboxSafety

  // ---------- the claim ----------

  /** A claim takes a row exactly when the row waits and its time has come; then the dispatcher holds its job. */
  lemma ClaimTakesIff(w: World, dispatcher: nat, id: Id, now: Time, attemptsRead: nat)
    requires Sized(w)
    ensures var m, m' := w.mail, Apply(w, ClaimRow(dispatcher, id, now, attemptsRead)).mail;
      if id in m.outbox && (m.outbox[id].status == Pending || m.outbox[id].status == PublishFailed)
         && m.outbox[id].nextAttemptAt <= now
      then
        && m'.outbox.Keys == m.outbox.Keys && m'.outbox[id].status == Dispatching
        && (forall d :: d in m'.inFlight <==> d in m.inFlight || d == Dispatch(dispatcher, id, m.outbox[id].job, attemptsRead))
        && (forall other :: other in m.outbox && other != id ==> m'.outbox[other] == m.outbox[other])
      else m' == m
  {
  }

  // ---------- outcomes ----------

  /** The step records an outcome of a publish on the row. */
  predicate RecordsOutcome(m: Mail, s: Step, id: Id) {
    && id in m.outbox
    && ((s.RecordPublished? && s.dispatch in m.inFlight && s.dispatch.job in m.jobs && s.dispatch.jobId == id)
        || (s.RecordFailure? && s.dispatch in m.inFlight && s.dispatch.jobId == id))
  }

  /** How many outcomes a run has recorded on the row. */
  function Outcomes(w: World, run: seq<Step>, id: Id): nat
    requires Sized(w)
    decreases |run|
  {
    if run == [] then 0
    else (if RecordsOutcome(w.mail, run[0], id) then 1 else 0) + Outcomes(Apply(w, run[0]), run[1..], id)
  }

  lemma MailAttempts(w: World, s: Step, m': Mail, id: Id)
    requires MailStep(w, s, m') && id in w.mail.outbox && id in m'.outbox
    ensures m'.outbox[id].attempts == w.mail.outbox[id].attempts + (if RecordsOutcome(w.mail, s, id) then 1 else 0)
    ensures m'.outbox[id].job == w.mail.outbox[id].job
    ensures m'.outbox[id].nextAttemptAt != w.mail.outbox[id].nextAttemptAt ==> RecordsOutcome(w.mail, s, id)
  {
  }

  /** A row is created with no attempts, by the submission of its execution, and never again. */
  lemma RowAppears(w: World, s: Step, id: Id)
    requires CatalogInv(w) && id !in w.mail.outbox && id in Apply(w, s).mail.outbox
    ensures (s.Queue? || s.Retry?) && id == |w.catalog.executions|
    ensures var row := Apply(w, s).mail.outbox[id];
      && row.attempts == 0 && row.status == Pending
      && row.nextAttemptAt == row.updatedAt == if s.Queue? then s.q.now else s.r.now
  {
    if s.Queue? {
      assert Apply(w, s) == Commit(w, QueueTx(w, s.q));
      QueueRow(w, s.q);
    } else if s.Retry? {
      assert Apply(w, s) == Commit(w, RetryTx(w, s.r));
      RetryRow(w, s.r);
    } else if !s.CreateConversation? && !s.CreateTask? {
      MailStays(w, s);
    }
  }

  /** The one row that a submission may add. */
  predicate NewRow(w: World, w': World, now: Time) {
    w'.mail == w.mail ||
    var id := |w.catalog.executions|;
    && id in w'.mail.outbox && w'.mail.outbox == w.mail.outbox[id := w'.mail.outbox[id]]
    && w'.mail.outbox[id] == OutboxRow(w'.mail.outbox[id].job, Pending, 0, now, now)
  }

  lemma QueueRow(w: World, q: QueueInput)
    requires Sized(w)
    ensures QueueTx(w, q).Some? ==> NewRow(w, QueueTx(w, q).value.world, q.now)
  {
  }

  lemma RetryRow(w: World, r: RetryInput)
    requires Sized(w)
    ensures RetryTx(w, r).Some? ==> NewRow(w, RetryTx(w, r).value.world, r.now)
  {
  }

  lemma NeverAgain(w: World, s: Step, id: Id)
    requires CatalogInv(w) && id !in w.mail.outbox && id < |w.catalog.executions|
    ensures id !in Apply(w, s).mail.outbox && id < |Apply(w, s).catalog.executions|
  {
    StepCatalog(w, s);
    if id in Apply(w, s).mail.outbox {
      RowAppears(w, s, id);
    }
  }

  /** `RecordsOutcome` needs the row, so nothing is recorded before it appears. */
  lemma {:induction false} AttemptsFrom(w: World, run: seq<Step>, id: Id)
    requires CatalogInv(w) && id in Exec(w, run).mail.outbox
    ensures id in w.mail.outbox || id >= |w.catalog.executions|
    ensures Exec(w, run).mail.outbox[id].attempts
         == (if id in w.mail.outbox then w.mail.outbox[id].attempts else 0) + Outcomes(w, run, id)
    decreases |run|
  {
    if run == [] {
      assert id < |w.catalog.executions|;
    } else {
      var w' := Apply(w, run[0]);
      StepCatalog(w, run[0]);
      MailChanges(w, run[0]);
      AttemptsFrom(w', run[1..], id);
      if id in w.mail.outbox {
        RowStays(w, run[0], id);
        MailAttempts(w, run[0], w'.mail, id);
      } else {
        if id < |w.catalog.executions| { NeverAgain(w, run[0], id); }
        if id in w'.mail.outbox { RowAppears(w, run[0], id); }
      }
    }
  }

  /** A row that is still there in the end was there all along. */
  lemma RowStays(w: World, s: Step, id: Id)
    requires CatalogInv(w) && id in w.mail.outbox
    requires id in Apply(w, s).mail.outbox || id >= |Apply(w, s).catalog.executions|
    ensures id in Apply(w, s).mail.outbox
  {
    StepCatalog(w, s);
  }

  /** In every run the attempts of a row count exactly the outcomes that were recorded on it. */
  lemma AttemptsCountOutcomes(run: seq<Step>, id: Id)
    requires id in Exec(EMPTY, run).mail.outbox
    ensures Exec(EMPTY, run).mail.outbox[id].attempts == Outcomes(EMPTY, run, id)
  {
    AttemptsFrom(EMPTY, run, id);
  }

  /** A recorded publish: the row is PUBLISHED, counted, and no other row changes. */
  lemma PublishIsRecorded(w: World, d: Dispatch, now: Time)
    requires Sized(w) && d in w.mail.inFlight && d.job in w.mail.jobs && d.jobId in w.mail.outbox
    ensures var m, m' := w.mail, Apply(w, RecordPublished(d, now)).mail;
      && m'.outbox.Keys == m.outbox.Keys && m'.inFlight == m.inFlight - {d}
      && (forall id :: id in m.outbox && id != d.jobId ==> m'.outbox[id] == m.outbox[id])
      && m'.outbox[d.jobId] == OutboxRow(m.outbox[d.jobId].job, Published, m.outbox[d.jobId].attempts + 1, now, now)
  {
  }

  // ---------- recovery ----------

  predicate Claims(m: Mail, s: Step, id: Id) {
    s.ClaimRow? && s.id == id && id in m.outbox && Due(m.outbox[id], s.now)
  }

  /** When the run last claimed the row, if it did, and otherwise what was known before. */
  function LastClaim(w: World, run: seq<Step>, id: Id, before: Option<Time>): Option<Time>
    requires Sized(w)
    decreases |run|
  {
    if run == [] then before
    else LastClaim(Apply(w, run[0]), run[1..], id, if Claims(w.mail, run[0], id) then Some(run[0].now) else before)
  }

  predicate StampedBy(m: Mail, id: Id, claimed: Option<Time>) {
    id in m.outbox && m.outbox[id].status == Dispatching ==> claimed == Some(m.outbox[id].updatedAt)
  }

  lemma MailStamped(w: World, s: Step, m': Mail, id: Id, claimed: Option<Time>)
    requires MailStep(w, s, m') && StampedBy(w.mail, id, claimed)
    ensures StampedBy(m', id, if Claims(w.mail, s, id) then Some(s.now) else claimed)
  {
  }

  lemma {:induction false} RunStamped(w: World, run: seq<Step>, id: Id, before: Option<Time>)
    requires CatalogInv(w) && StampedBy(w.mail, id, before)
    ensures StampedBy(Exec(w, run).mail, id, LastClaim(w, run, id, before))
    decreases |run|
  {
    if run != [] {
      var w' := Apply(w, run[0]);
      StepCatalog(w, run[0]);
      MailChanges(w, run[0]);
      MailStamped(w, run[0], w'.mail, id, before);
      RunStamped(w', run[1..], id, if Claims(w.mail, run[0], id) then Some(run[0].now) else before);
    }
  }

  /**
   A recovery resets, in every reachable world, exactly the DISPATCHING rows whose last claim is older than the
   cutoff, and keeps the retry schedule of every row.
   */
  lemma RecoveryResetsOldClaims(run: seq<Step>, cutoff: Time, now: Time, id: Id)
    requires id in Exec(EMPTY, run).mail.outbox
    ensures var m, m' := Exec(EMPTY, run).mail, Apply(Exec(EMPTY, run), Recover(cutoff, now)).mail;
      && m'.outbox.Keys == m.outbox.Keys && m'.(outbox := m.outbox) == m
      && var row, row' := m.outbox[id], m'.outbox[id];
      && row'.attempts == row.attempts && row'.nextAttemptAt == row.nextAttemptAt && row'.job == row.job
      && (row.status == Dispatching ==>
           && LastClaim(EMPTY, run, id, None).Some?
           && row'.status == (if LastClaim(EMPTY, run, id, None).value < cutoff then Pending else Dispatching))
      && (row.status != Dispatching ==> row' == row)
  {
    RunStamped(EMPTY, run, id, None);
    RecoveryIs(Exec(EMPTY, run), cutoff, now);
  }

  lemma RecoveryIs(w: World, cutoff: Time, now: Time)
    requires Sized(w)
    ensures Apply(w, Recover(cutoff, now)).mail == DoRecover(w.mail, cutoff, now)
  {
  }

  // ---------- the queue ----------

  /** The queue keeps a job either to deliver it or because it was delivered, and only jobs that were added. */
  ghost predicate QueueSound(m: Mail) {
    m.waiting !! m.spent && m.waiting <= m.jobs && m.spent <= m.jobs
  }

  lemma MailQueueSound(w: World, s: Step, m': Mail)
    requires MailStep(w, s, m') && QueueSound(w.mail)
    ensures QueueSound(m')
  {
  }

  lemma {:induction false} RunQueueSound(w: World, run: seq<Step>)
    requires CatalogInv(w) && QueueSound(w.mail)
    ensures QueueSound(Exec(w, run).mail)
    decreases |run|
  {
    if run != [] {
      MailChanges(w, run[0]);
      MailQueueSound(w, run[0], Apply(w, run[0]).mail);
      StepCatalog(w, run[0]);
      RunQueueSound(Apply(w, run[0]), run[1..]);
    }
  }

  ghost predicate HasHadItsAttempt(m: Mail, job: Job) {
    job in m.spent && job !in m.waiting
  }

  lemma MailKeepsSpent(w: World, s: Step, m': Mail, job: Job)
    requires MailStep(w, s, m') && HasHadItsAttempt(w.mail, job) && s != TrimJob(job)
    ensures HasHadItsAttempt(m', job)
  {
  }

  lemma {:induction false} StaysSpent(w: World, run: seq<Step>, job: Job)
    requires CatalogInv(w) && HasHadItsAttempt(w.mail, job)
    requires forall k :: 0 <= k < |run| ==> run[k] != TrimJob(job)
    ensures HasHadItsAttempt(Exec(w, run).mail, job)
    decreases |run|
  {
    if run != [] {
      assert run[0] != TrimJob(job);
      MailChanges(w, run[0]);
      MailKeepsSpent(w, run[0], Apply(w, run[0]).mail, job);
      StepCatalog(w, run[0]);
      StaysSpent(Apply(w, run[0]), run[1..], job);
    }
  }

  /** Once its attempt is over, a job waits again in no run in which the queue does not forget it. */
  lemma NoSecondDelivery(before: seq<Step>, job: Job, after: seq<Step>)
    requires job in Exec(EMPTY, before).mail.waiting
    requires forall k :: 0 <= k < |after| ==> after[k] != TrimJob(job)
    ensures job !in Exec(Apply(Exec(EMPTY, before), SpendJob(job)), after).mail.waiting
  {
    RunCatalog(EMPTY, before);
    AttemptSpends(Exec(EMPTY, before), job);
    StaysSpent(Apply(Exec(EMPTY, before), SpendJob(job)), after, job);
  }

  lemma AttemptSpends(w: World, job: Job)
    requires CatalogInv(w) && job in w.mail.waiting
    ensures CatalogInv(Apply(w, SpendJob(job))) && HasHadItsAttempt(Apply(w, SpendJob(job)).mail, job)
  {
    StepCatalog(w, SpendJob(job));
  }
}
