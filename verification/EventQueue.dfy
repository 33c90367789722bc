/**
 The runner's event record and its consumers (packages/providers/src/process-runner.ts).
 A consumer is an async generator: it runs from one `yield` or `await` to the next
 without interruption, and everything else may happen in between.
 */
module EventQueue {
  import opened Sequences

  datatype Phase = Awake | Asleep | Done

  /** One `streamEvents` generator: its cursor and what it has yielded. */
  datatype Consumer<E> = Consumer(cursor: nat, phase: Phase, yielded: seq<E>)

  datatype Queue<E> = Queue(events: seq<E>, complete: bool, cancelled: bool, waiters: seq<nat>, consumers: seq<Consumer<E>>)

  function Fresh<E>(): Queue<E> {
    Queue([], false, false, [], [])
  }

  function Wake<E>(consumers: seq<Consumer<E>>, waiters: seq<nat>): (woken: seq<Consumer<E>>)
    ensures |woken| == |consumers|
    ensures forall i :: 0 <= i < |consumers| ==>
      woken[i] == if i in waiters && consumers[i].phase == Asleep then consumers[i].(phase := Awake) else consumers[i]
  {
    seq(|consumers|, i requires 0 <= i < |consumers| =>
      if i in waiters && consumers[i].phase == Asleep then consumers[i].(phase := Awake) else consumers[i])
  }

  datatype Step<E> =
    | Subscribe
    | Push(event: E)
    | Close
    | CancelSession
    | Resume(consumer: nat)

  /** One uninterrupted stretch of a consumer: it yields, registers a waiter, or returns. */
  function Advance<E>(q: Queue<E>, i: nat): Queue<E>
    requires i < |q.consumers|
  {
    var c := q.consumers[i];
    if c.phase != Awake then q
    else if c.cursor < |q.events| then
      q.(consumers := q.consumers[i := Consumer(c.cursor + 1, Awake, c.yielded + [q.events[c.cursor]])])
    else if !q.complete then
      q.(consumers := q.consumers[i := c.(phase := Asleep)], waiters := q.waiters + [i])
    else
      q.(consumers := q.consumers[i := c.(phase := Done)])
  }

  function WakeAll<E>(q: Queue<E>): Queue<E> {
    q.(consumers := Wake(q.consumers, q.waiters), waiters := [])
  }

  /** The provider process pushes only before its close handler completes the record, unless the session was cancelled. */
  predicate Allowed<E>(q: Queue<E>, s: Step<E>) {
    match s
    case Push(_) => !q.complete || q.cancelled
    case Resume(i) => i < |q.consumers|
    case _ => true
  }

  function Apply<E>(q: Queue<E>, s: Step<E>): Queue<E>
    requires Allowed(q, s)
  {
    match s
    case Subscribe => q.(consumers := q.consumers + [Consumer(0, Awake, [])])
    case Push(event) => WakeAll(q.(events := q.events + [event]))
    case Close => WakeAll(q.(complete := true))
    case CancelSession => WakeAll(q.(complete := true, cancelled := true))
    case Resume(i) => Advance(q, i)
  }

  predicate Runs<E>(q: Queue<E>, run: seq<Step<E>>)
    decreases |run|
  {
    run == [] || (Allowed(q, run[0]) && Runs(Apply(q, run[0]), run[1..]))
  }

  function Exec<E>(q: Queue<E>, run: seq<Step<E>>): Queue<E>
    requires Runs(q, run)
    decreases |run|
  {
    if run == [] then q else Exec(Apply(q, run[0]), run[1..])
  }

  // ---------- the invariant ----------

  ghost predicate ConsumerSound<E>(q: Queue<E>, i: nat)
    requires i < |q.consumers|
  {
    var c := q.consumers[i];
    && c.cursor <= |q.events| && c.yielded == q.events[..c.cursor]
    && (c.phase == Asleep ==> !q.complete && c.cursor == |q.events| && i in q.waiters)
    && (c.phase == Done ==> q.complete && (q.cancelled || c.cursor == |q.events|))
  }

  ghost predicate Sound<E(!new)>(q: Queue<E>) {
    && (q.cancelled ==> q.complete)
    && forall i :: 0 <= i < |q.consumers| ==> ConsumerSound(q, i)
  }

  lemma StepSound<E(!new)>(q: Queue<E>, s: Step<E>)
    requires Sound(q) && Allowed(q, s)
    ensures Sound(Apply(q, s))
    ensures q.events <= Apply(q, s).events && (q.cancelled ==> Apply(q, s).cancelled)
  {
    var q' := Apply(q, s);
    forall i | 0 <= i < |q'.consumers| ensures ConsumerSound(q', i) {
      if i < |q.consumers| {
        assert ConsumerSound(q, i);
        assert q.events[..q.consumers[i].cursor] == q'.events[..q.consumers[i].cursor];
        if q.consumers[i].cursor < |q.events| {
          assert q.events[..q.consumers[i].cursor + 1] == q.events[..q.consumers[i].cursor] + [q.events[q.consumers[i].cursor]];
        }
      }
    }
  }

  lemma {:induction false} RunSound<E(!new)>(q: Queue<E>, run: seq<Step<E>>)
    requires Sound(q) && Runs(q, run)
    ensures Sound(Exec(q, run)) && q.events <= Exec(q, run).events
    decreases |run|
  {
    if run != [] {
      StepSound(q, run[0]);
      RunSound(Apply(q, run[0]), run[1..]);
    }
  }

  /** The events that a run pushes, in order. */
  function PushedBy<E>(run: seq<Step<E>>): seq<E> {
    if run == [] then [] else (if run[0].Push? then [run[0].event] else []) + PushedBy(run[1..])
  }

  lemma {:induction false} EventsArePushed<E>(q: Queue<E>, run: seq<Step<E>>)
    requires Runs(q, run)
    ensures Exec(q, run).events == q.events + PushedBy(run)
    decreases |run|
  {
    if run != [] {
      var next := Apply(q, run[0]);
      EventsArePushed(next, run[1..]);
      var pushed := if run[0].Push? then [run[0].event] else [];
      assert next.events == q.events + pushed;
      Assoc(q.events, pushed, PushedBy(run[1..]));
    }
  }

  lemma {:induction false} NotCancelled<E>(q: Queue<E>, run: seq<Step<E>>)
    requires Runs(q, run) && !q.cancelled && forall s :: s in run ==> !s.CancelSession?
    ensures !Exec(q, run).cancelled
    decreases |run|
  {
    if run != [] {
      assert run[0] in run;
      NotCancelled(Apply(q, run[0]), run[1..]);
    }
  }

  // ---------- main results ----------

  /**
   In every run each consumer has yielded a prefix of the pushed events, in order and each once;
   no consumer sleeps once the record is complete or while an event it has not seen is there;
   and when the session was not cancelled, a consumer that returned has yielded every event.
   */
  lemma DeliveredInOrder<E(!new)>(run: seq<Step<E>>, i: nat)
    requires Runs(Fresh(), run) && i < |Exec(Fresh(), run).consumers|
    ensures var q := Exec(Fresh(), run);
      var c := q.consumers[i];
      && c.yielded <= PushedBy(run)
      && (c.phase == Asleep ==> !q.complete && c.yielded == PushedBy(run))
      && (c.phase == Done && (forall s :: s in run ==> !s.CancelSession?) ==> c.yielded == PushedBy(run))
  {
    RunSound(Fresh<E>(), run);
    EventsArePushed(Fresh<E>(), run);
    var q := Exec(Fresh(), run);
    assert [] + PushedBy(run) == PushedBy(run) == q.events;
    assert ConsumerSound(q, i);
    assert q.events[..|q.events|] == q.events;
    if forall s :: s in run ==> !s.CancelSession? {
      NotCancelled(Fresh<E>(), run);
    }
  }

  function Resumes<E>(i: nat, n: nat): seq<Step<E>> {
    if n == 0 then [] else [Resume(i)] + Resumes(i, n - 1)
  }

  lemma {:induction false} Drains<E(!new)>(q: Queue<E>, i: nat)
    requires Sound(q) && q.complete && i < |q.consumers|
    ensures var n := |q.events| - q.consumers[i].cursor + 1;
      && n >= 0 && Runs(q, Resumes(i, n))
      && var c := Exec(q, Resumes(i, n)).consumers;
      && |c| == |q.consumers| && c[i].phase == Done
      && (!q.cancelled || q.consumers[i].phase == Awake ==> c[i].yielded == q.events)
    decreases |q.events| - (if ConsumerSound(q, i) then q.consumers[i].cursor else 0)
  {
    assert ConsumerSound(q, i);
    var c := q.consumers[i];
    var n := |q.events| - c.cursor + 1;
    assert Resumes<E>(i, n)[0] == Resume(i) && Resumes<E>(i, n)[1..] == Resumes(i, n - 1);
    var q' := Advance(q, i);
    if c.phase == Done {
      StaysDone(q, i, n);
      assert q.events[..|q.events|] == q.events;
    } else if c.cursor < |q.events| {
      StepSound(q, Resume(i));
      Drains(q', i);
    } else {
      assert Resumes<E>(i, 0) == [] && q.events[..|q.events|] == q.events;
    }
  }

  lemma {:induction false} StaysDone<E>(q: Queue<E>, i: nat, n: nat)
    requires i < |q.consumers| && q.consumers[i].phase == Done
    ensures Runs(q, Resumes(i, n)) && Exec(q, Resumes(i, n)) == q
  {
    if n > 0 {
      assert Resumes<E>(i, n)[0] == Resume(i) && Resumes<E>(i, n)[1..] == Resumes(i, n - 1);
      StaysDone(q, i, n - 1);
    }
  }

  /** Once a record is complete, a consumer that keeps running returns, having yielded everything pushed so far. */
  lemma CompleteRecordDrains<E(!new)>(run: seq<Step<E>>, i: nat)
    requires Runs(Fresh(), run)
    requires var q := Exec(Fresh(), run);
      q.complete && i < |q.consumers| && q.consumers[i].phase != Done
    ensures exists n: nat :: (
      && Runs(Exec(Fresh(), run), Resumes(i, n))
      && i < |Exec(Exec(Fresh(), run), Resumes(i, n)).consumers|
      && Exec(Exec(Fresh(), run), Resumes(i, n)).consumers[i].phase == Done
      && Exec(Exec(Fresh(), run), Resumes(i, n)).consumers[i].yielded == PushedBy(run))
  {
    RunSound(Fresh<E>(), run);
    EventsArePushed(Fresh<E>(), run);
    var q := Exec(Fresh(), run);
    assert [] + PushedBy(run) == PushedBy(run);
    assert ConsumerSound(q, i);
    Drains(q, i);
  }

  // ---------- the record as the runner updates it ----------

  function WakeAt<E>(consumers: seq<Consumer<E>>, i: nat): seq<Consumer<E>> {
    if i < |consumers| && consumers[i].phase == Asleep then consumers[i := consumers[i].(phase := Awake)] else consumers
  }

  lemma WakeOne<E>(consumers: seq<Consumer<E>>, waiters: seq<nat>, k: nat)
    requires k < |waiters|
    ensures Wake(consumers, waiters[..k + 1]) == WakeAt(Wake(consumers, waiters[..k]), waiters[k])
  {
    assert waiters[..k + 1] == waiters[..k] + [waiters[k]];
    assert forall i :: i in waiters[..k + 1] <==> i in waiters[..k] || i == waiters[k];
  }

  class SessionRecord<E> {
    var events: seq<E>
    var complete: bool
    var cancelled: bool
    var waiters: seq<nat>
    var consumers: seq<Consumer<E>>

    constructor ()
      ensures View() == Fresh()
    {
      events, complete, cancelled, waiters, consumers := [], false, false, [], [];
    }

    function View(): Queue<E>
      reads this
    {
      Queue(events, complete, cancelled, waiters, consumers)
    }

    /** `record.waiters.splice(0).forEach((wake) => wake())`. */
    method WakeWaiters()
      modifies this
      ensures View() == WakeAll(old(View()))
    {
      var taken := waiters;
      waiters := [];
      for k := 0 to |taken|
        invariant waiters == [] && events == old(events) && complete == old(complete) && cancelled == old(cancelled)
        invariant consumers == Wake(old(consumers), taken[..k])
      {
        WakeOne(old(consumers), taken, k);
        if taken[k] < |consumers| && consumers[taken[k]].phase == Asleep {
          consumers := consumers[taken[k] := consumers[taken[k]].(phase := Awake)];
        }
      }
      assert taken[..|taken|] == taken;
    }

    method PushEvent(event: E)
      modifies this
      ensures View() == WakeAll(old(View()).(events := old(events) + [event]))
    {
      events := events + [event];
      WakeWaiters();
    }

    method Complete()
      modifies this
      ensures View() == WakeAll(old(View()).(complete := true))
    {
      complete := true;
      WakeWaiters();
    }

    method Cancel()
      modifies this
      ensures View() == WakeAll(old(View()).(complete := true, cancelled := true))
    {
      complete, cancelled := true, true;
      WakeWaiters();
    }

    /** The generator body of consumer `i`, from where it stands to its next suspension. */
    method ResumeConsumer(i: nat)
      requires i < |consumers|
      modifies this
      ensures View() == Advance(old(View()), i)
    {
      var c := consumers[i];
      if c.phase == Awake {
        if c.cursor < |events| {
          consumers := consumers[i := Consumer(c.cursor + 1, Awake, c.yielded + [events[c.cursor]])];
        } else if !complete {
          waiters := waiters + [i];
          consumers := consumers[i := c.(phase := Asleep)];
        } else {
          consumers := consumers[i := c.(phase := Done)];
        }
      }
    }
  }
}
