/** The dispatcher's pass over the outbox (packages/database/src/outbox-service.ts). */
module Dispatcher {
  import opened Wrappers
  import opened Tables
  import opened Submission
  import opened Protocol
  import opened Backoff
  import opened CatalogSafety
  import opened OutboxSafety
  import opened Traces
  import opened Persistence

  datatype DispatchStatus = WasPublished | WasFailed | WasDeadLettered | WasSkipped

  /** A row as the pass read it before claiming. */
  datatype Seen = Seen(id: Id, job: Job, attempts: nat)

  /** The pass still holds its claim: the row is DISPATCHING under it alone. */
  ghost predicate HoldsClaim(m: Mail, d: Dispatch) {
    Exclusive(m) && d in m.inFlight
  }

  lemma KeepsClaim(w: World, s: Step, d: Dispatch)
    requires CatalogInv(w) && HoldsClaim(w.mail, d) && ByOthers(s, ADispatcher(d.dispatcher)) && !RecoversLive(w.mail, s)
    ensures HoldsClaim(Apply(w, s).mail, d)
  {
    StepExclusiveIff(w, s);
    MailChanges(w, s);
    StaysInFlight(w, s, Apply(w, s).mail, d);
  }

  lemma StaysInFlight(w: World, s: Step, m': Mail, d: Dispatch)
    requires MailStep(w, s, m') && d in w.mail.inFlight && ByOthers(s, ADispatcher(d.dispatcher))
    ensures d in m'.inFlight
  {
  }

  lemma {:induction false} RunKeepsClaim(w: World, run: seq<Step>, d: Dispatch)
    requires CatalogInv(w) && HoldsClaim(w.mail, d) && RecoversOnlyCrashed(w, run)
    requires forall k :: 0 <= k < |run| ==> ByOthers(run[k], ADispatcher(d.dispatcher))
    ensures HoldsClaim(Exec(w, run).mail, d)
    decreases |run|
  {
    if run != [] {
      var w' := Apply(w, run[0]);
      assert ByOthers(run[0], ADispatcher(d.dispatcher)) && !RecoversLive(w.mail, run[0]);
      KeepsClaim(w, run[0], d);
      StepCatalog(w, run[0]);
      assert RecoversOnlyCrashed(w', run[1..]);
      RunKeepsClaim(w', run[1..], d);
    }
  }

  /** What one row's turn in the pass came to. */
  datatype DispatchResult = DispatchResult(id: Id, status: DispatchStatus)

  /** A step that this pass may make. */
  predicate DispatcherStep(s: Step, dispatcher: nat) {
    match s
    case ClaimRow(d, _, _, _) => d == dispatcher
    case Publish(d) => d.dispatcher == dispatcher
    case RecordPublished(d, _) => d.dispatcher == dispatcher
    case RecordFailure(d, _, _, _) => d.dispatcher == dispatcher
    case _ => false
  }

  ghost predicate OwnStepsDispatch(trace: seq<Act>, dispatcher: nat) {
    forall a :: a in trace && a.own ==> DispatcherStep(a.step, dispatcher)
  }

  predicate Claimable(m: Mail, id: Id, now: Time) {
    id in m.outbox && Due(m.outbox[id], now)
  }

  /** At position `k` the pass tries to claim the row; the row is claimable then, or the claim changes nothing. */
  ghost predicate ClaimAt(w: World, trace: seq<Act>, k: int, dispatcher: nat, e: Seen, now: Time, status: DispatchStatus)
    requires Sized(w)
  {
    && 0 <= k < |trace| && trace[k] == Act(ClaimRow(dispatcher, e.id, now, e.attempts), true)
    && (Claimable(Exec(w, Steps(trace[..k])).mail, e.id, now) <==> status != WasSkipped)
  }

  /**
   The result names what the pass itself recorded for the row, with the attempt count it had read; a row is
   skipped exactly when it was not claimable at the pass's own claim.
   */
  ghost predicate Reported(
      w: World, trace: seq<Act>, dispatcher: nat, e: Seen, status: DispatchStatus, now: Time, policy: Policy)
    requires Sized(w)
  {
    && (exists k :: ClaimAt(w, trace, k, dispatcher, e, now, status))
    && Outcome(trace, dispatcher, e, status, now, policy)
  }

  ghost predicate Outcome(
      trace: seq<Act>, dispatcher: nat, e: Seen, status: DispatchStatus, now: Time, policy: Policy)
  {
    match status
    case WasSkipped => true
    case WasPublished => exists job :: Act(RecordPublished(Dispatch(dispatcher, e.id, job, e.attempts), now), true) in trace
    case _ =>
      && (status == WasDeadLettered <==> e.attempts + 1 >= policy.maxAttempts)
      && exists job, jitter :: Act(RecordFailure(Dispatch(dispatcher, e.id, job, e.attempts), now, policy, jitter), true) in trace
  }

  /** `findMany` of the pass: at most `limit` rows that are due, in some order. */
  method FindDue(db: Database, now: Time, limit: nat) returns (pending: seq<Seen>)
    ensures |pending| <= limit
    ensures forall e :: e in pending ==> ReadFrom(db.mail, e, now)
    ensures forall j, k :: 0 <= j < k < |pending| ==> pending[j].id != pending[k].id
    ensures |pending| < limit ==> forall id :: id in db.mail.outbox && Due(db.mail.outbox[id], now) ==>
      Seen(id, db.mail.outbox[id].job, db.mail.outbox[id].attempts) in pending
  {
    pending := [];
    var ids := db.mail.outbox.Keys;
    while ids != {} && |pending| < limit
      invariant ids <= db.mail.outbox.Keys && |pending| <= limit
      invariant forall e :: e in pending ==> ReadFrom(db.mail, e, now) && e.id !in ids
      invariant forall j, k :: 0 <= j < k < |pending| ==> pending[j].id != pending[k].id
      invariant forall id :: id in db.mail.outbox && id !in ids && Due(db.mail.outbox[id], now) ==>
        Seen(id, db.mail.outbox[id].job, db.mail.outbox[id].attempts) in pending
      decreases |ids|
    {
      var id :| id in ids;
      ids := ids - {id};
      if Due(db.mail.outbox[id], now) {
        pending := pending + [Seen(id, db.mail.outbox[id].job, db.mail.outbox[id].attempts)];
      }
    }
  }

  predicate ReadFrom(m: Mail, e: Seen, now: Time) {
    e.id in m.outbox && Due(m.outbox[e.id], now) && e.job == m.outbox[e.id].job && e.attempts == m.outbox[e.id].attempts
  }

  method ClaimOutboxEvent(db: Database, dispatcher: nat, e: Seen, now: Time) returns (claimed: bool)
    requires Sized(db.View())
    modifies db`mail
    ensures db.View() == Apply(old(db.View()), ClaimRow(dispatcher, e.id, now, e.attempts))
    ensures claimed <==> Claimable(old(db.mail), e.id, now)
    ensures !claimed ==> db.View() == old(db.View())
  {
    claimed := e.id in db.mail.outbox && Due(db.mail.outbox[e.id], now);
    if claimed {
      var row := db.mail.outbox[e.id];
      db.mail := db.mail.(
        outbox := db.mail.outbox[e.id := row.(status := Dispatching, updatedAt := now)],
        inFlight := db.mail.inFlight + {Dispatch(dispatcher, e.id, row.job, e.attempts)});
    }
  }

  /** Hands the job to the queue. A publish that throws may or may not have delivered the job. */
  method PublishJob(db: Database, d: Dispatch) returns (ok: bool, delivered: bool)
    requires Sized(db.View()) && d in db.mail.inFlight
    modifies db`mail
    ensures ok ==> delivered
    ensures delivered ==> d.job in db.mail.jobs
    ensures db.View() == if delivered then Apply(old(db.View()), Publish(d)) else old(db.View())
  {
    ok, delivered := *, *;
    delivered := delivered || ok;
    if delivered {
      db.mail := db.mail.(
        jobs := db.mail.jobs + {d.job},
        waiting := if d.job in db.mail.spent then db.mail.waiting else db.mail.waiting + {d.job});
    }
  }

  /** The update after a successful publish; `false` when the row is gone and the update throws. */
  method MarkPublished(db: Database, d: Dispatch, now: Time) returns (found: bool)
    requires Sized(db.View()) && d in db.mail.inFlight && d.job in db.mail.jobs
    modifies db`mail
    ensures found <==> d.jobId in old(db.mail).outbox
    ensures found ==> db.View() == Apply(old(db.View()), RecordPublished(d, now))
    ensures !found ==> db.View() == old(db.View())
  {
    found := d.jobId in db.mail.outbox;
    if found {
      var row := db.mail.outbox[d.jobId];
      db.mail := db.mail.(
        inFlight := db.mail.inFlight - {d},
        outbox := db.mail.outbox[d.jobId := row.(
          status := Published, attempts := row.attempts + 1, nextAttemptAt := now, updatedAt := now)]);
    }
  }

  /** The update in the `catch`; `false` when it throws too and the pass ends. */
  method MarkFailed(db: Database, d: Dispatch, now: Time, policy: Policy, jitter: real) returns (found: bool, dead: bool)
    requires Sized(db.View()) && d in db.mail.inFlight
    modifies db`mail
    ensures found <==> d.jobId in old(db.mail).outbox
    ensures dead <==> d.attemptsRead + 1 >= policy.maxAttempts
    ensures db.View() == Apply(old(db.View()), RecordFailure(d, now, policy, jitter))
  {
    var attempt := d.attemptsRead + 1;
    dead := attempt >= policy.maxAttempts;
    found := d.jobId in db.mail.outbox;
    db.mail := db.mail.(inFlight := db.mail.inFlight - {d});
    if found {
      var row := db.mail.outbox[d.jobId];
      db.mail := db.mail.(outbox := db.mail.outbox[d.jobId := row.(
        status := if dead then DeadLetter else PublishFailed,
        attempts := row.attempts + 1,
        nextAttemptAt := now + RetryDelay(attempt, policy, jitter),
        updatedAt := now)]);
    }
  }

  lemma {:induction false} RunStaysInFlight(w: World, run: seq<Step>, d: Dispatch)
    requires CatalogInv(w) && d in w.mail.inFlight
    requires forall k :: 0 <= k < |run| ==> ByOthers(run[k], ADispatcher(d.dispatcher))
    ensures d in Exec(w, run).mail.inFlight
    decreases |run|
  {
    if run != [] {
      MailChanges(w, run[0]);
      StaysInFlight(w, run[0], Apply(w, run[0]).mail, d);
      StepCatalog(w, run[0]);
      RunStaysInFlight(Apply(w, run[0]), run[1..], d);
    }
  }

  /** The pass so far: the tables are what its history makes of the world it started from. */
  ghost predicate Follows(w: World, trace: seq<Act>, view: World, dispatcher: nat) {
    CatalogInv(w) && Exclusive(w.mail) && view == Exec(w, Steps(trace)) && OwnStepsDispatch(trace, dispatcher)
  }

  /** Other actors act, none of them in this dispatcher's name. */
  method Elapse(db: Database, ghost w: World, ghost trace: seq<Act>, dispatcher: nat) returns (ghost trace': seq<Act>)
    requires Follows(w, trace, db.View(), dispatcher)
    modifies db
    ensures Follows(w, trace', db.View(), dispatcher) && trace <= trace'
    ensures forall d :: d in old(db.mail).inFlight && d.dispatcher == dispatcher ==> d in db.mail.inFlight
    ensures old(db.mail.jobs) <= db.mail.jobs
    ensures forall d :: HoldsClaim(old(db.mail), d) && d.dispatcher == dispatcher && RecoversOnlyCrashed(w, Steps(trace')) ==>
      HoldsClaim(db.mail, d)
  {
    ghost var view := db.View();
    ghost var run := db.Interference(ADispatcher(dispatcher));
    trace' := trace + Others(run);
    StepsConcat(w, trace, Others(run));
    RunCatalog(w, Steps(trace));
    RunGrows(view, run);
    OthersKeep(view, run, dispatcher);
    if RecoversOnlyCrashed(w, Steps(trace')) {
      LaterRecoversOnlyCrashed(w, trace, run);
    }
  }

  /** What other actors leave of the pass's own dispatches. */
  lemma OthersKeep(view: World, run: seq<Step>, dispatcher: nat)
    requires CatalogInv(view) && forall k :: 0 <= k < |run| ==> ByOthers(run[k], ADispatcher(dispatcher))
    ensures forall d :: d in view.mail.inFlight && d.dispatcher == dispatcher ==> d in Exec(view, run).mail.inFlight
    ensures RecoversOnlyCrashed(view, run) ==>
      forall d :: HoldsClaim(view.mail, d) && d.dispatcher == dispatcher ==> HoldsClaim(Exec(view, run).mail, d)
  {
    forall d | d in view.mail.inFlight && d.dispatcher == dispatcher ensures d in Exec(view, run).mail.inFlight {
      RunStaysInFlight(view, run, d);
    }
    forall d | HoldsClaim(view.mail, d) && d.dispatcher == dispatcher && RecoversOnlyCrashed(view, run)
      ensures HoldsClaim(Exec(view, run).mail, d)
    {
      RunKeepsClaim(view, run, d);
    }
  }

  lemma LaterRecoversOnlyCrashed(w: World, trace: seq<Act>, run: seq<Step>)
    requires Sized(w) && RecoversOnlyCrashed(w, Steps(trace + Others(run)))
    ensures RecoversOnlyCrashed(Exec(w, Steps(trace)), run)
  {
    assert Steps(trace + Others(run)) == Steps(trace) + run;
    RecoversSplit(w, Steps(trace), run);
  }

  /** The history grows by one of the pass's own steps. */
  lemma OwnStep(w: World, trace: seq<Act>, view: World, dispatcher: nat, s: Step)
    requires Follows(w, trace, view, dispatcher) && DispatcherStep(s, dispatcher)
    ensures Sized(view) && Follows(w, trace + [Act(s, true)], Apply(view, s), dispatcher)
  {
    StepsOwn(w, trace, s);
    RunCatalog(w, Steps(trace));
  }

  /** With careful recovery the pass's history so far left the outbox exclusive. */
  lemma ExclusiveNow(w: World, trace: seq<Act>, later: seq<Act>, view: World, dispatcher: nat)
    requires Follows(w, trace, view, dispatcher) && trace <= later && RecoversOnlyCrashed(w, Steps(later))
    ensures Exclusive(view.mail)
  {
    assert Steps(later) == Steps(trace) + Steps(later[|trace|..]);
    RecoversSplit(w, Steps(trace), Steps(later[|trace|..]));
    RunExclusive(w, Steps(trace));
  }

  /** One row of the pass, with other actors' steps between its database calls. */
  method DispatchRow(db: Database, ghost w: World, ghost trace: seq<Act>, dispatcher: nat, e: Seen, now: Time, policy: Policy)
    returns (status: DispatchStatus, thrown: bool, ghost trace': seq<Act>)
    requires Follows(w, trace, db.View(), dispatcher)
    modifies db
    ensures Follows(w, trace', db.View(), dispatcher) && trace <= trace'
    ensures !thrown ==> Reported(w, trace', dispatcher, e, status, now, policy)
    ensures thrown ==> !RecoversOnlyCrashed(w, Steps(trace'))
  {
    ghost var t := Elapse(db, w, trace, dispatcher);
    ghost var k := |t|;
    OwnStep(w, t, db.View(), dispatcher, ClaimRow(dispatcher, e.id, now, e.attempts));
    ghost var before := t;
    var claimed := ClaimOutboxEvent(db, dispatcher, e, now);
    t := t + [Act(ClaimRow(dispatcher, e.id, now, e.attempts), true)];
    assert t[..k] == before;
    if !claimed {
      assert ClaimAt(w, t, k, dispatcher, e, now, WasSkipped);
      return WasSkipped, false, t;
    }
    var d := Dispatch(dispatcher, e.id, db.mail.outbox[e.id].job, e.attempts);
    status, thrown, trace' := Deliver(db, w, t, d, now, policy);
    if !thrown {
      assert ClaimAt(w, t, k, dispatcher, e, now, status);
      ClaimLater(w, t, trace', k, dispatcher, e, now, status);
    }
    if !thrown && status == WasPublished {
      assert Act(RecordPublished(Dispatch(dispatcher, e.id, d.job, e.attempts), now), true) in trace';
    }
  }

  /** A claimed row: publish, then record the outcome. */
  method Deliver(db: Database, ghost w: World, ghost trace: seq<Act>, d: Dispatch, now: Time, policy: Policy)
    returns (status: DispatchStatus, thrown: bool, ghost trace': seq<Act>)
    requires Follows(w, trace, db.View(), d.dispatcher) && d in db.mail.inFlight
    modifies db
    ensures Follows(w, trace', db.View(), d.dispatcher) && trace <= trace'
    ensures !thrown ==> status != WasSkipped
    ensures !thrown && status == WasPublished ==> Act(RecordPublished(d, now), true) in trace'
    ensures !thrown && status != WasPublished ==>
      && (status == WasDeadLettered <==> d.attemptsRead + 1 >= policy.maxAttempts)
      && exists jitter :: Act(RecordFailure(d, now, policy, jitter), true) in trace'
    ensures thrown ==> !RecoversOnlyCrashed(w, Steps(trace'))
  {
    ghost var t := Elapse(db, w, trace, d.dispatcher);
    OwnStep(w, t, db.View(), d.dispatcher, Publish(d));
    var ok, delivered := PublishJob(db, d);
    if delivered {
      t := t + [Act(Publish(d), true)];
    }
    ghost var claimedAt, claim := t, db.mail;
    t := Elapse(db, w, t, d.dispatcher);
    if ok {
      OwnStep(w, t, db.View(), d.dispatcher, RecordPublished(d, now));
      var found := MarkPublished(db, d, now);
      if found {
        t := t + [Act(RecordPublished(d, now), true)];
        assert t[|t| - 1] == Act(RecordPublished(d, now), true);
        return WasPublished, false, t;
      }
    }
    var jitter: real := *;
    OwnStep(w, t, db.View(), d.dispatcher, RecordFailure(d, now, policy, jitter));
    ghost var view := db.View();
    var found, dead := MarkFailed(db, d, now, policy, jitter);
    trace' := t + [Act(RecordFailure(d, now, policy, jitter), true)];
    assert trace'[|t|] == Act(RecordFailure(d, now, policy, jitter), true);
    status := if dead then WasDeadLettered else WasFailed;
    thrown := !found;
    if thrown && RecoversOnlyCrashed(w, Steps(trace')) {
      ExclusiveNow(w, t, trace', view, d.dispatcher);
    }
  }

  /**
   One pass, with any other actors' steps between its database calls. Its whole history is a
   run of the protocol in which its own steps are claims, publishes and outcomes in its own
   name; each row it read gets the result that it recorded itself; and when recovery only
   resets rows of crashed dispatchers, no update ever misses its row, so the pass does not throw.
   */
  method DispatchPendingOutboxEvents(db: Database, dispatcher: nat, limit: nat, now: Time, raw: RawPolicy)
    returns (results: seq<DispatchResult>, thrown: bool, ghost pending: seq<Seen>, ghost trace: seq<Act>)
    requires CatalogInv(db.View()) && Exclusive(db.mail)
    modifies db
    ensures db.View() == Exec(old(db.View()), Steps(trace)) && OwnStepsDispatch(trace, dispatcher)
    ensures |pending| <= limit && forall e :: e in pending ==> ReadFrom(old(db.mail), e, now)
    ensures |results| <= |pending| && (!thrown ==> |results| == |pending|)
    ensures forall k :: 0 <= k < |results| ==> results[k].id == pending[k].id
    ensures forall k :: 0 <= k < |results| ==> Reported(old(db.View()), trace, dispatcher, pending[k], results[k].status, now, Resolve(raw))
    ensures thrown ==> !RecoversOnlyCrashed(old(db.View()), Steps(trace))
  {
    ghost var w := db.View();
    var policy := Resolve(raw);
    var due := FindDue(db, now, limit);
    pending := due;
    results, thrown, trace := [], false, [];
    for k := 0 to |due|
      invariant Follows(w, trace, db.View(), dispatcher)
      invariant |results| == k
      invariant forall j :: 0 <= j < k ==>
        results[j].id == due[j].id && Reported(w, trace, dispatcher, due[j], results[j].status, now, policy)
    {
      var status;
      ghost var before := trace;
      status, thrown, trace := DispatchRow(db, w, trace, dispatcher, due[k], now, policy);
      forall j | 0 <= j < k ensures Reported(w, trace, dispatcher, due[j], results[j].status, now, policy) {
        ReportedLater(w, before, trace, dispatcher, due[j], results[j].status, now, policy);
      }
      if thrown {
        return;
      }
      results := results + [DispatchResult(due[k].id, status)];
    }
  }

  lemma ClaimLater(
      w: World, trace: seq<Act>, later: seq<Act>, k: int, dispatcher: nat, e: Seen, now: Time, status: DispatchStatus)
    requires Sized(w) && trace <= later && ClaimAt(w, trace, k, dispatcher, e, now, status)
    ensures ClaimAt(w, later, k, dispatcher, e, now, status)
  {
    assert later[..k] == trace[..k];
  }

  lemma ReportedLater(
      w: World, trace: seq<Act>, later: seq<Act>, dispatcher: nat, e: Seen, status: DispatchStatus, now: Time,
      policy: Policy)
    requires Sized(w) && trace <= later && Reported(w, trace, dispatcher, e, status, now, policy)
    ensures Reported(w, later, dispatcher, e, status, now, policy)
  {
    var k :| ClaimAt(w, trace, k, dispatcher, e, now, status);
    ClaimLater(w, trace, later, k, dispatcher, e, now, status);
    assert forall a :: a in trace ==> a in later;
  }
}
