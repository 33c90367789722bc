/**
 One provider turn of a worker (apps/worker/src/conversation-worker.ts, `executeProviderTurn`): the locals that its
 timers and its stream loop update, in whatever order the callbacks run.
 */
module ProviderTurn {
  import opened Wrappers
  import opened Tables
  import opened Protocol

  /** One callback: a timeout timer, a reading of the cancellation timer, or an item of the provider's stream. */
  datatype Signal =
    | TimerFired(code: TimeoutCode)
    | RowRead(row: Life)
    | Item(stdout: bool, message: string)

  function Receive(t: Turn, s: Signal): Turn {
    match s
    case TimerFired(code) => TimerTurn(t, code)
    case RowRead(row) => PollTurn(t, row)
    case Item(_, _) => t
  }

  function ReceiveAll(t: Turn, signals: seq<Signal>): Turn
    decreases |signals|
  {
    if signals == [] then t
    else Receive(ReceiveAll(t, signals[..|signals| - 1]), signals[|signals| - 1])
  }

  /** The answer is the standard output, and nothing else of the stream. */
  function Transcript(signals: seq<Signal>): string
    decreases |signals|
  {
    if signals == [] then ""
    else
      var last := signals[|signals| - 1];
      Transcript(signals[..|signals| - 1]) + (if last.Item? && last.stdout then last.message else "")
  }

  /** A reading that asks this worker to stop. */
  predicate Cancels(worker: WorkerId, s: Signal) {
    s.RowRead? && s.row.state == Cancelled && s.row.worker == Some(worker)
  }

  /** The first timer, unless a cancellation was read before it. */
  function FirstTimeout(worker: WorkerId, signals: seq<Signal>): Option<TimeoutCode>
    decreases |signals|
  {
    if signals == [] then None
    else if Cancels(worker, signals[0]) then None
    else if signals[0].TimerFired? then Some(signals[0].code)
    else FirstTimeout(worker, signals[1..])
  }

  predicate AnyCancels(worker: WorkerId, signals: seq<Signal>) {
    exists i :: 0 <= i < |signals| && Cancels(worker, signals[i])
  }

  /** What the signals leave in the locals of a turn. */
  function Decided(t: Turn, signals: seq<Signal>): Turn {
    var timeout := FirstTimeout(t.worker, signals);
    var cancelled := AnyCancels(t.worker, signals);
    t.(timeoutCode := timeout,
       cancellationRequested := cancelled,
       termination := if timeout.Some? then Requested(TimedOut) else if cancelled then Requested(Cancelled) else NotRequested)
  }

  predicate Undecided(t: Turn) {
    t.timeoutCode.None? && !t.cancellationRequested && t.termination == NotRequested
  }

  lemma {:induction false} FirstTimeoutOfConcat(worker: WorkerId, signals: seq<Signal>, last: Signal)
    ensures FirstTimeout(worker, signals + [last])
      == if FirstTimeout(worker, signals).Some? || AnyCancels(worker, signals) then FirstTimeout(worker, signals)
         else FirstTimeout(worker, [last])
    decreases |signals|
  {
    if signals == [] {
      assert signals + [last] == [last];
    } else {
      assert (signals + [last])[1..] == signals[1..] + [last];
      FirstTimeoutOfConcat(worker, signals[1..], last);
      if AnyCancels(worker, signals) && !Cancels(worker, signals[0]) {
        var i :| 0 <= i < |signals| && Cancels(worker, signals[i]);
        assert signals[1..][i - 1] == signals[i];
      }
      if AnyCancels(worker, signals[1..]) {
        var i :| 0 <= i < |signals[1..]| && Cancels(worker, signals[1..][i]);
        assert signals[i + 1] == signals[1..][i];
      }
    }
  }

  /**
   In whatever order timers and readings arrive: the first timer that precedes every cancellation decides the
   timeout and the state to be written, and any cancellation read, even after a timeout, is remembered.
   */
  lemma {:induction false} SignalsDecide(t: Turn, signals: seq<Signal>)
    requires Undecided(t)
    ensures ReceiveAll(t, signals) == Decided(t, signals)
    decreases |signals|
  {
    if signals != [] {
      var before, last := signals[..|signals| - 1], signals[|signals| - 1];
      SignalsDecide(t, before);
      assert signals == before + [last];
      FirstTimeoutOfConcat(t.worker, before, last);
      assert AnyCancels(t.worker, signals) <==> AnyCancels(t.worker, before) || Cancels(t.worker, last) by {
        assert signals[|before|] == last;
        if AnyCancels(t.worker, before) {
          var i :| 0 <= i < |before| && Cancels(t.worker, before[i]);
          assert signals[i] == before[i];
        }
      }
    }
  }

  /**
   What leaves the turn, however the race went and whether or not the termination promise rejects: a rejection
   wins, then a cancellation read at any time, then a timeout; the turn answers exactly when there was none of
   them and nothing was raised.
   */
  lemma TurnOutcomeIs(t: Turn, signals: seq<Signal>, raised: bool, rejected: bool)
    requires Undecided(t)
    ensures var outcome := OutcomeOf(ReceiveAll(t, signals), raised, rejected);
      var cancelled, timeout := AnyCancels(t.worker, signals), FirstTimeout(t.worker, signals);
      && (outcome == CancelRaised <==> cancelled && !rejected)
      && (forall code :: outcome == TimeoutRaised(code) <==> timeout == Some(code) && !cancelled && !rejected)
      && (outcome == Answered <==> !raised && !cancelled && timeout.None?)
      && (outcome == ErrorRaised <==>
           ((cancelled || timeout.Some?) && rejected) || (raised && !cancelled && timeout.None?))
  {
    SignalsDecide(t, signals);
  }

  /** The variables that the callbacks of one turn close over. */
  class TurnLocals {
    const worker: WorkerId
    const job: Job
    var timeoutCode: Option<TimeoutCode>
    var cancellationRequested: bool
    var termination: Termination
    var assistantText: string

    constructor (worker: WorkerId, job: Job)
      ensures View() == NewTurn(worker, job).(stage := InTurn) && Undecided(View())
      ensures assistantText == ""
    {
      this.worker, this.job := worker, job;
      timeoutCode, cancellationRequested, termination, assistantText := None, false, NotRequested, "";
    }

    function View(): Turn
      reads this
    {
      NewTurn(worker, job).(
        timeoutCode := timeoutCode,
        cancellationRequested := cancellationRequested,
        termination := termination,
        stage := InTurn)
    }

    method RequestTermination(target: State)
      modifies this`termination
      ensures View() == Terminate(old(View()), target)
    {
      if termination == NotRequested {
        termination := Requested(target);
      }
    }

    method Abort(code: TimeoutCode)
      modifies this`timeoutCode, this`termination
      ensures View() == TimerTurn(old(View()), code)
    {
      if timeoutCode.None? && !cancellationRequested {
        timeoutCode := Some(code);
        RequestTermination(TimedOut);
      }
    }

    method ReadRow(row: Life)
      modifies this`cancellationRequested, this`termination
      ensures View() == PollTurn(old(View()), row)
    {
      if row.state == Cancelled && row.worker == Some(worker) && !cancellationRequested {
        cancellationRequested := true;
        RequestTermination(Cancelled);
      }
    }

    /** The callbacks that run before the stream ends, in the order in which they happen to run. */
    method Execute(signals: seq<Signal>, raised: bool, terminationRejected: bool) returns (outcome: Outcome)
      requires Undecided(View()) && assistantText == ""
      modifies this
      ensures View() == Decided(old(View()), signals) && assistantText == Transcript(signals)
      ensures outcome == OutcomeOf(View(), raised, terminationRejected)
    {
      var i := 0;
      while i < |signals|
        invariant 0 <= i <= |signals|
        invariant View() == ReceiveAll(old(View()), signals[..i])
        invariant assistantText == Transcript(signals[..i])
      {
        assert signals[..i + 1][..i] == signals[..i];
        match signals[i] {
          case TimerFired(code) => Abort(code);
          case RowRead(row) => ReadRow(row);
          case Item(stdout, message) =>
            if stdout {
              assistantText := assistantText + message;
            }
        }
        i := i + 1;
      }
      assert signals[..i] == signals;
      SignalsDecide(old(View()), signals);
      if termination != NotRequested && terminationRejected {
        return ErrorRaised;
      }
      if cancellationRequested {
        return CancelRaised;
      }
      if timeoutCode.Some? {
        return TimeoutRaised(timeoutCode.value);
      }
      return if raised then ErrorRaised else Answered;
    }
  }
}
