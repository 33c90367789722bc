/**
 Cancelling an execution
 (apps/web/app/api/conversations/[id]/executions/[executionId]/cancel/route.ts): what becomes of its row, of its
 outbox row, and of the job that may be on its way.
 */
module CancelRoute {
  import opened Wrappers
  import opened Tables
  import opened Submission
  import opened Protocol
  import opened CatalogSafety
  import opened LifecycleSafety
  import opened OutboxSafety
  import opened Delivery
  import opened Traces
  import opened Persistence

  // ---------- the two writes ----------

  /** The first write takes exactly an active execution, keeps its claim, and leaves everything else alone. */
  lemma CancelTakesActive(run: seq<Step>, id: Id)
    requires id < |Exec(EMPTY, run).runtime.life|
    ensures var w := Exec(EMPTY, run);
      var w' := Apply(w, Cancel(id));
      var l := w.runtime.life[id];
      if l.state == Queued || l.state == Starting || l.state == Running then
        && w'.runtime.life == w.runtime.life[id := Life(Cancelled, l.worker, l.lease)]
        && w'.runtime.purging == w.runtime.purging + {id} && id !in w.runtime.purging
        && w'.mail == w.mail && w'.catalog == w.catalog
        && w'.runtime.replies == w.runtime.replies && w'.runtime.turns == w.runtime.turns
      else w' == w
  {
    RunInv(EMPTY, run);
    CancelIs(Exec(EMPTY, run), id);
  }

  lemma CancelIs(w: World, id: Id)
    requires Inv(w) && id < |w.runtime.life|
    ensures Apply(w, Cancel(id)) ==
      if Active(w.runtime.life[id].state) then
        w.(runtime := w.runtime.(
             life := w.runtime.life[id := w.runtime.life[id].(state := Cancelled)], purging := w.runtime.purging + {id}))
      else w
    ensures Active(w.runtime.life[id].state) ==> id !in w.runtime.purging
  {
    assert Apply(w, Cancel(id)) == DoCancel(w, id);
  }

  /** The second deletes exactly the execution's own row, and that exactly when it waits to be dispatched. */
  lemma PurgeDeletesIff(run: seq<Step>, id: Id)
    requires id in Exec(EMPTY, run).runtime.purging
    ensures var w := Exec(EMPTY, run);
      var w' := Apply(w, PurgeOutbox(id));
      && (id in w'.mail.outbox <==>
           id in w.mail.outbox && w.mail.outbox[id].status != Pending && w.mail.outbox[id].status != PublishFailed)
      && (forall other :: other in w'.mail.outbox ==> other in w.mail.outbox && w'.mail.outbox[other] == w.mail.outbox[other])
      && (forall other :: other in w.mail.outbox && other != id ==> other in w'.mail.outbox)
      && w'.mail.(outbox := w.mail.outbox) == w.mail
      && w'.catalog == w.catalog && w'.runtime == w.runtime.(purging := w.runtime.purging - {id})
  {
  }

  // ---------- what can still be published ----------

  /** In some continuation a dispatcher stands before its publish of a job for the execution. */
  ghost predicate CanBePublished(w: World, i: Id)
    requires Sized(w)
  {
    exists run :: AboutToPublish(Exec(w, run).mail, i)
  }

  predicate AboutToPublish(m: Mail, i: Id) {
    exists d :: d in m.inFlight && d.job.sessionId == i
  }

  lemma PublishableNow(w: World, i: Id)
    requires Sized(w) && AboutToPublish(w.mail, i)
    ensures CanBePublished(w, i)
  {
    assert Exec(w, []) == w;
  }

  lemma PublishableAfter(w: World, s: Step, i: Id)
    requires Sized(w) && CanBePublished(Apply(w, s), i)
    ensures CanBePublished(w, i)
  {
    var run :| AboutToPublish(Exec(Apply(w, s), run).mail, i);
    assert ([s] + run)[0] == s && ([s] + run)[1..] == run;
    assert AboutToPublish(Exec(w, [s] + run).mail, i);
  }

  lemma WaitingIsPublishable(w: World, i: Id)
    requires CatalogInv(w) && i in w.mail.outbox && Purgeable(w.mail.outbox[i])
    ensures CanBePublished(w, i)
  {
    var row := w.mail.outbox[i];
    var s := ClaimRow(0, i, row.nextAttemptAt, row.attempts);
    assert Dispatch(0, i, row.job, row.attempts) in Apply(w, s).mail.inFlight;
    PublishableNow(Apply(w, s), i);
    PublishableAfter(w, s, i);
  }

  lemma DispatchingIsPublishable(w: World, i: Id)
    requires CatalogInv(w) && i in w.mail.outbox && w.mail.outbox[i].status == Dispatching
    ensures CanBePublished(w, i)
  {
    var s := Recover(w.mail.outbox[i].updatedAt + 1, 0);
    StepCatalog(w, s);
    WaitingIsPublishable(Apply(w, s), i);
    PublishableAfter(w, s, i);
  }

  /** The row is gone or settled, and no dispatcher holds it. */
  ghost predicate OutOfReach(m: Mail, i: Id) {
    !InFlight(m, i) && (i in m.outbox ==> Settled(m.outbox[i]))
  }

  lemma MailOutOfReach(w: World, s: Step, m': Mail, i: Id)
    requires MailStep(w, s, m') && OutOfReach(w.mail, i) && !s.Queue? && !s.Retry?
    requires i in m'.outbox ==> i in w.mail.outbox
    ensures OutOfReach(m', i)
  {
  }

  lemma StaysOutOfReach(w: World, s: Step, i: Id)
    requires CatalogInv(w) && OutOfReach(w.mail, i) && i < |w.catalog.executions|
    ensures OutOfReach(Apply(w, s).mail, i) && i < |Apply(w, s).catalog.executions|
  {
    StepCatalog(w, s);
    if s.Queue? || s.Retry? {
      SubmissionMail(w, s);
    } else {
      MailChanges(w, s);
      OldRows(w, s, i);
      MailOutOfReach(w, s, Apply(w, s).mail, i);
    }
  }

  lemma OldRows(w: World, s: Step, i: Id)
    requires Sized(w) && !s.Queue? && !s.Retry?
    ensures i in Apply(w, s).mail.outbox ==> i in w.mail.outbox
  {
    if !s.CreateConversation? && !s.CreateTask? {
      MailStays(w, s);
    }
  }

  lemma {:induction false} NeverPublished(w: World, run: seq<Step>, i: Id)
    requires CatalogInv(w) && OutOfReach(w.mail, i) && i < |w.catalog.executions|
    ensures !AboutToPublish(Exec(w, run).mail, i)
    decreases |run|
  {
    if run != [] {
      StaysOutOfReach(w, run[0], i);
      StepCatalog(w, run[0]);
      NeverPublished(Apply(w, run[0]), run[1..], i);
    }
  }

  lemma PublishableIff(w: World, i: Id)
    requires CatalogInv(w) && i < |w.catalog.executions|
    ensures CanBePublished(w, i) <==> !OutOfReach(w.mail, i)
  {
    if OutOfReach(w.mail, i) {
      forall run ensures !AboutToPublish(Exec(w, run).mail, i) {
        NeverPublished(w, run, i);
      }
    } else if InFlight(w.mail, i) {
      var d :| d in w.mail.inFlight && d.jobId == i;
      assert d.job.sessionId == i;
      PublishableNow(w, i);
    } else {
      match w.mail.outbox[i].status
      case Dispatching => DispatchingIsPublishable(w, i);
      case _ => WaitingIsPublishable(w, i);
    }
  }

  /**
   After a cancellation's purge, in every reachable world: a job for the execution can still be published in some
   continuation if and only if its row was DISPATCHING when the purge came, or a dispatcher held it.
   */
  lemma PublishableAfterPurgeIff(run: seq<Step>, i: Id)
    requires i in Exec(EMPTY, run).runtime.purging
    ensures var w := Exec(EMPTY, run);
      CanBePublished(Apply(w, PurgeOutbox(i)), i) <==>
        || (i in w.mail.outbox && w.mail.outbox[i].status == Dispatching)
        || exists d :: d in w.mail.inFlight && d.jobId == i
  {
    RunInv(EMPTY, run);
    RunCatalog(EMPTY, run);
    PurgeDeletesIff(run, i);
    PurgedIff(Exec(EMPTY, run), Apply(Exec(EMPTY, run), PurgeOutbox(i)), i);
  }

  lemma PurgedIff(w: World, w': World, i: Id)
    requires CatalogInv(w) && i < |w.catalog.executions| && w' == Apply(w, PurgeOutbox(i))
    requires i in w'.mail.outbox <==>
      i in w.mail.outbox && w.mail.outbox[i].status != Pending && w.mail.outbox[i].status != PublishFailed
    requires i in w'.mail.outbox ==> w'.mail.outbox[i] == w.mail.outbox[i]
    requires w'.mail.(outbox := w.mail.outbox) == w.mail && w'.catalog == w.catalog
    ensures CanBePublished(w', i) <==> (i in w.mail.outbox && w.mail.outbox[i].status == Dispatching) || InFlight(w.mail, i)
  {
    StepCatalog(w, PurgeOutbox(i));
    PublishableIff(w', i);
  }

  // ---------- the route ----------

  /** What the route answers: whether the execution is cancelled, and a state that may be the one it read first. */
  datatype Answer = NotFound | Answer(cancelled: bool, state: State)

  /** The tables are what the history makes of the world that the request started from. */
  ghost predicate Follows(w: World, trace: seq<Act>, view: World) {
    Inv(w) && view == Exec(w, Steps(trace))
  }

  ghost predicate OwnStepsAmong(trace: seq<Act>, steps: set<Step>) {
    forall a :: a in trace && a.own ==> a.step in steps
  }

  /** At position `k` the route tries to take the row, which is active then exactly when the update changes it. */
  ghost predicate TakenAt(w: World, trace: seq<Act>, k: int, id: Id, changed: bool)
    requires Sized(w)
  {
    && 0 <= k < |trace| && trace[k] == Act(Cancel(id), true)
    && var life := Exec(w, Steps(trace[..k])).runtime.life;
    (changed <==> id < |life| && Active(life[id].state))
  }

  lemma TakenLater(w: World, trace: seq<Act>, later: seq<Act>, k: int, id: Id, changed: bool)
    requires Sized(w) && trace <= later && TakenAt(w, trace, k, id, changed)
    ensures TakenAt(w, later, k, id, changed)
  {
    assert later[..k] == trace[..k];
  }

  lemma StepKeepsPurging(w: World, s: Step, id: Id)
    requires Inv(w) && id in w.runtime.purging && ByOthers(s, ACanceller(id))
    ensures id in Apply(w, s).runtime.purging
  {
    if s.Queue? {
      QueueLife(w, s.q);
    } else if s.Retry? {
      RetryLife(w, s.r);
    }
  }

  lemma {:induction false} RunKeepsPurging(w: World, run: seq<Step>, id: Id)
    requires Inv(w) && id in w.runtime.purging
    requires forall k :: 0 <= k < |run| ==> ByOthers(run[k], ACanceller(id))
    ensures id in Exec(w, run).runtime.purging
    decreases |run|
  {
    if run != [] {
      StepKeepsPurging(w, run[0], id);
      StepInv(w, run[0]);
      RunKeepsPurging(Apply(w, run[0]), run[1..], id);
    }
  }

  lemma OwnStep(w: World, trace: seq<Act>, view: World, s: Step)
    requires Follows(w, trace, view)
    ensures Sized(view) && Follows(w, trace + [Act(s, true)], Apply(view, s))
    ensures Act(s, true) in trace + [Act(s, true)]
  {
    StepsOwn(w, trace, s);
    assert (trace + [Act(s, true)])[|trace|] == Act(s, true);
  }

  /** Other actors act; none of them deletes outbox rows in this request's place. */
  method Elapse(db: Database, ghost w: World, ghost trace: seq<Act>, id: Id) returns (ghost trace': seq<Act>)
    requires Follows(w, trace, db.View())
    modifies db
    ensures Follows(w, trace', db.View()) && trace <= trace'
    ensures forall a :: a in trace' && a.own ==> a in trace
    ensures id in old(db.runtime.purging) ==> id in db.runtime.purging
    ensures id < |old(db.runtime.life)| ==> id < |db.runtime.life|
    ensures id < |old(db.runtime.life)| && Terminal(old(db.runtime.life)[id].state) ==>
      db.runtime.life[id].state == old(db.runtime.life)[id].state
  {
    ghost var view := db.View();
    ghost var run := db.Interference(ACanceller(id));
    trace' := trace + Others(run);
    StepsConcat(w, trace, Others(run));
    RunInv(w, Steps(trace));
    if id in view.runtime.purging {
      RunKeepsPurging(view, run, id);
    }
    if id < |view.runtime.life| {
      RunForward(view, run, id);
    }
  }

  /** The guarded update of the row. */
  method TakeActive(db: Database, id: Id) returns (changed: bool)
    requires Inv(db.View())
    modifies db`runtime
    ensures db.View() == Apply(old(db.View()), Cancel(id))
    ensures changed <==> id < |old(db.runtime.life)| && Active(old(db.runtime.life)[id].state)
    ensures changed ==> id in db.runtime.purging && id < |db.runtime.life| && db.runtime.life[id].state == Cancelled
    ensures !changed ==> db.View() == old(db.View())
  {
    changed := id < |db.runtime.life| && Active(db.runtime.life[id].state);
    if changed {
      db.runtime := db.runtime.(
        life := db.runtime.life[id := db.runtime.life[id].(state := Cancelled)], purging := db.runtime.purging + {id});
    }
  }

  /** The deletion of the execution's waiting outbox row. */
  method DeleteWaiting(db: Database, id: Id)
    requires Sized(db.View()) && id in db.runtime.purging
    modifies db
    ensures db.View() == Apply(old(db.View()), PurgeOutbox(id))
    ensures db.runtime.life == old(db.runtime.life) && id !in db.runtime.purging
    ensures id in db.mail.outbox <==>
      id in old(db.mail.outbox) && old(db.mail.outbox)[id].status != Pending && old(db.mail.outbox)[id].status != PublishFailed
  {
    db.runtime := db.runtime.(purging := db.runtime.purging - {id});
    if id in db.mail.outbox && (db.mail.outbox[id].status == Pending || db.mail.outbox[id].status == PublishFailed) {
      db.mail := db.mail.(outbox := db.mail.outbox - {id});
    }
  }

  /** The purge that follows a row taken, among other actors' steps. */
  method Purge(db: Database, ghost w: World, ghost trace: seq<Act>, id: Id) returns (ghost trace': seq<Act>)
    requires Follows(w, trace, db.View()) && id in db.runtime.purging
    requires id < |db.runtime.life| && db.runtime.life[id].state == Cancelled
    modifies db
    ensures Follows(w, trace', db.View()) && trace <= trace' && Act(PurgeOutbox(id), true) in trace'
    ensures forall a :: a in trace' && a.own ==> a in trace || a.step == PurgeOutbox(id)
    ensures id < |db.runtime.life| && db.runtime.life[id].state == Cancelled
    ensures id !in db.runtime.purging
    ensures id in db.mail.outbox ==>
      db.mail.outbox[id].status != Pending && db.mail.outbox[id].status != PublishFailed
  {
    ghost var t := Elapse(db, w, trace, id);
    OwnStep(w, t, db.View(), PurgeOutbox(id));
    DeleteWaiting(db, id);
    trace' := t + [Act(PurgeOutbox(id), true)];
  }

  /**
   The whole route among other actors. It answers "cancelled" only when the execution is CANCELLED, and by then no
   row of its own taking waits in the outbox; any other answer means that the execution had ended otherwise, or had
   been cancelled by somebody else after the route first read it.
   */
  method CancelExecution(db: Database, id: Id) returns (answer: Answer, ghost changed: bool, ghost trace: seq<Act>)
    requires Inv(db.View())
    modifies db
    ensures Follows(old(db.View()), trace, db.View())
    ensures OwnStepsAmong(trace, if changed then {Cancel(id), PurgeOutbox(id)} else {Cancel(id)})
    ensures answer.NotFound? <==> id >= |old(db.runtime.life)|
    ensures answer.NotFound? ==> trace == []
    ensures answer.Answer? ==> id < |db.runtime.life| && Terminal(db.runtime.life[id].state)
    ensures answer.Answer? ==> exists k :: TakenAt(old(db.View()), trace, k, id, changed)
    ensures answer.Answer? && answer.cancelled ==> answer.state == Cancelled && db.runtime.life[id].state == Cancelled
    ensures answer.Answer? ==> (answer.cancelled <==> changed || old(db.runtime.life)[id].state == Cancelled)
    ensures answer.Answer? && !answer.cancelled ==> answer.state == old(db.runtime.life)[id].state
    ensures changed ==> Act(PurgeOutbox(id), true) in trace && id !in db.runtime.purging
    ensures changed && id in db.mail.outbox ==>
      db.mail.outbox[id].status != Pending && db.mail.outbox[id].status != PublishFailed
  {
    ghost var w := db.View();
    trace, changed := [], false;
    if id >= |db.runtime.life| {
      return NotFound, false, [];
    }
    var read := db.runtime.life[id].state;
    ghost var t := Elapse(db, w, [], id);
    var taken;
    taken, trace := TakeAndPurge(db, w, t, id);
    changed := taken;
    var cancelled := taken || read == Cancelled;
    answer := Answer(cancelled, if cancelled then Cancelled else read);
  }

  /** The update, and the deletion if it took the row. */
  method TakeAndPurge(db: Database, ghost w: World, ghost trace: seq<Act>, id: Id)
    returns (taken: bool, ghost trace': seq<Act>)
    requires Follows(w, trace, db.View()) && id < |db.runtime.life|
    modifies db
    ensures Follows(w, trace', db.View()) && TakenAt(w, trace', |trace|, id, taken)
    ensures forall a :: a in trace' && a.own ==>
      a in trace || a.step == Cancel(id) || (taken && a.step == PurgeOutbox(id))
    ensures id < |db.runtime.life| && Terminal(db.runtime.life[id].state)
    ensures !taken ==> db.View() == old(db.View())
    ensures taken ==> db.runtime.life[id].state == Cancelled && id !in db.runtime.purging
    ensures taken ==> Act(PurgeOutbox(id), true) in trace'
    ensures taken && id in db.mail.outbox ==>
      db.mail.outbox[id].status != Pending && db.mail.outbox[id].status != PublishFailed
  {
    taken, trace' := Take(db, w, trace, id);
    if taken {
      ghost var before := trace';
      trace' := Purge(db, w, before, id);
      TakenLater(w, before, trace', |trace|, id, taken);
    }
  }

  method Take(db: Database, ghost w: World, ghost trace: seq<Act>, id: Id) returns (taken: bool, ghost trace': seq<Act>)
    requires Follows(w, trace, db.View()) && id < |db.runtime.life|
    modifies db
    ensures Follows(w, trace', db.View()) && trace' == trace + [Act(Cancel(id), true)]
    ensures TakenAt(w, trace', |trace|, id, taken)
    ensures id < |db.runtime.life| && Terminal(db.runtime.life[id].state)
    ensures |db.runtime.life| == |old(db.runtime.life)|
    ensures taken ==> id in db.runtime.purging && db.runtime.life[id].state == Cancelled
    ensures !taken ==> db.View() == old(db.View())
  {
    OwnStep(w, trace, db.View(), Cancel(id));
    RunInv(w, Steps(trace));
    taken := TakeActive(db, id);
    trace' := trace + [Act(Cancel(id), true)];
    assert trace'[..|trace|] == trace;
  }
}
