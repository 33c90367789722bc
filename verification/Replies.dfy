/**
 The FAILED reply of a reclaimed execution (apps/worker/src/worker-lease.ts): only the sweep that reclaimed the
 row writes it, and a sweep that throws, or crashes, before that loses it for ever.
 */
module Replies {
  import opened Wrappers
  import opened Tables
  import opened Submission
  import opened Protocol
  import opened LifecycleSafety
  import opened Persistence
  import opened Reaper

  /** A finished execution without a reply. */
  ghost predicate Unanswered(w: World, i: Id) {
    i < |w.runtime.life| && Terminal(w.runtime.life[i].state) && !HasReply(w.runtime.replies, i)
  }

  /** Some sweep has reclaimed the row and has not given it up. */
  predicate BeingRecorded(w: World, i: Id) {
    i in w.runtime.reaped && w.runtime.reaped[i].Some?
  }

  /** The step is the reply of the sweep that reclaimed the row. */
  ghost predicate Answers(w: World, s: Step, i: Id) {
    s.ReapReply? && s.id == i && Recording(w.runtime, i, s.sweep)
  }

  // ---------- replies ----------

  ghost predicate SameReplies(w: World, w': World, i: Id) {
    HasReply(w'.runtime.replies, i) ==> HasReply(w.runtime.replies, i)
  }

  /** The step writes a reply. */
  predicate WritesReply(s: Step) {
    s.FinalizeSuccess? || s.FinalizeFailure? || s.ReapReply?
  }

  lemma SubmissionReplies(w: World, c: Option<Committed>, i: Id)
    requires c.Some? ==> AddsQueued(w, c.value.world)
    ensures SameReplies(w, Commit(w, c), i)
  {
  }

  lemma WrittenReplies(w: World, s: Step, i: Id)
    requires Inv(w) && Unanswered(w, i) && WritesReply(s) && !Answers(w, s, i)
    ensures SameReplies(w, Apply(w, s), i)
  {
    var w' := Apply(w, s);
    if w'.runtime.replies != w.runtime.replies {
      var n := |w.runtime.replies|;
      assert w'.runtime.replies[..n] == w.runtime.replies && |w'.runtime.replies| == n + 1;
      assert w'.runtime.replies[n].executionId == s.id != i;
    }
  }

  lemma OtherReplies(w: World, s: Step, i: Id)
    requires Sized(w) && !s.Queue? && !s.Retry? && !WritesReply(s)
    ensures SameReplies(w, Apply(w, s), i)
  {
    if s.CheckJob? {
      assert Apply(w, s) == DoCheckJob(w, s.id);
    } else if s.WriteTermination? {
      assert Apply(w, s) == DoWriteTermination(w, s.id);
    }
  }

  lemma StepReplies(w: World, s: Step, i: Id)
    requires Inv(w) && Unanswered(w, i) && !Answers(w, s, i)
    ensures SameReplies(w, Apply(w, s), i)
  {
    if s.Queue? {
      SubmissionReplies(w, QueueTx(w, s.q), i) by { QueueLife(w, s.q); }
    } else if s.Retry? {
      SubmissionReplies(w, RetryTx(w, s.r), i) by { RetryLife(w, s.r); }
    } else if WritesReply(s) {
      WrittenReplies(w, s, i);
    } else {
      OtherReplies(w, s, i);
    }
  }

  lemma StepUnanswered(w: World, s: Step, i: Id)
    requires Inv(w) && Unanswered(w, i) && !Answers(w, s, i)
    ensures Unanswered(Apply(w, s), i)
  {
    StepForward(w, s);
    StepReplies(w, s, i);
  }

  // ---------- sweeps ----------

  lemma SubmissionSweeps(w: World, c: Option<Committed>, i: Id)
    requires c.Some? ==> AddsQueued(w, c.value.world)
    ensures BeingRecorded(Commit(w, c), i) ==> BeingRecorded(w, i)
  {
  }

  lemma OtherSweeps(w: World, s: Step, i: Id)
    requires Unanswered(w, i) && Sized(w) && !s.Queue? && !s.Retry?
    ensures BeingRecorded(Apply(w, s), i) ==> BeingRecorded(w, i)
  {
    if s.Reap? {
      assert Apply(w, s) == DoReap(w, s.id, s.now, s.sweep);
    } else if s.AbandonReap? {
      assert Apply(w, s) == DoAbandonReap(w, s.id, s.sweep);
    } else {
      assert Apply(w, s).runtime.reaped == w.runtime.reaped;
    }
  }

  lemma StepSweeps(w: World, s: Step, i: Id)
    requires Unanswered(w, i) && Inv(w)
    ensures BeingRecorded(Apply(w, s), i) ==> BeingRecorded(w, i)
  {
    if s.Queue? {
      SubmissionSweeps(w, QueueTx(w, s.q), i) by { QueueLife(w, s.q); }
    } else if s.Retry? {
      SubmissionSweeps(w, RetryTx(w, s.r), i) by { RetryLife(w, s.r); }
    } else {
      OtherSweeps(w, s, i);
    }
  }

  // ---------- runs ----------

  lemma {:induction false} NeverAnswered(w: World, run: seq<Step>, i: Id)
    requires Inv(w) && Unanswered(w, i) && !BeingRecorded(w, i)
    ensures Unanswered(Exec(w, run), i)
    decreases |run|
  {
    if run != [] {
      StepUnanswered(w, run[0], i);
      StepSweeps(w, run[0], i);
      StepInv(w, run[0]);
      NeverAnswered(Apply(w, run[0]), run[1..], i);
    }
  }

  /** While a sweep is recording a row, nobody else answers it. */
  lemma {:induction false} OnlyItsSweepAnswers(w: World, run: seq<Step>, i: Id, sweep: SweepId)
    requires Inv(w) && Unanswered(w, i) && Recording(w.runtime, i, sweep)
    requires forall k :: 0 <= k < |run| ==> ByOthers(run[k], ASweep(sweep))
    ensures Unanswered(Exec(w, run), i) && Recording(Exec(w, run).runtime, i, sweep)
    decreases |run|
  {
    if run != [] {
      assert ByOthers(run[0], ASweep(sweep));
      StepUnanswered(w, run[0], i);
      StepKeepsRecording(w, run[0], i, sweep);
      StepInv(w, run[0]);
      OnlyItsSweepAnswers(Apply(w, run[0]), run[1..], i, sweep);
    }
  }

  ghost predicate CanBeAnswered(w: World, i: Id)
    requires Sized(w)
  {
    exists more :: HasReply(Exec(w, more).runtime.replies, i)
  }

  lemma SweepAnswers(w: World, i: Id, sweep: SweepId)
    requires Inv(w) && Recording(w.runtime, i, sweep)
    ensures HasReply(Exec(w, [ReapReply(i, sweep)]).runtime.replies, i)
  {
    ExecOne(w, ReapReply(i, sweep));
    var w' := Apply(w, ReapReply(i, sweep));
    assert w' == DoReapReply(w, i, sweep);
    if !HasReply(w.runtime.replies, i) {
      assert w'.runtime.replies[|w.runtime.replies|].executionId == i;
    }
  }

  /** A finished execution without a reply still gets one exactly while the sweep that reclaimed it is recording it. */
  lemma ReplyComesIff(run: seq<Step>, i: Id)
    requires i < |Exec(EMPTY, run).runtime.life| && Terminal(Exec(EMPTY, run).runtime.life[i].state)
    requires !HasReply(Exec(EMPTY, run).runtime.replies, i)
    ensures CanBeAnswered(Exec(EMPTY, run), i) <==> BeingRecorded(Exec(EMPTY, run), i)
  {
    RunInv(EMPTY, run);
    var w := Exec(EMPTY, run);
    if BeingRecorded(w, i) {
      SweepAnswers(w, i, w.runtime.reaped[i].value);
    } else {
      forall more ensures !HasReply(Exec(w, more).runtime.replies, i) {
        NeverAnswered(w, more, i);
      }
    }
  }

  lemma ReclaimedIsUnanswered(w: World, i: Id, now: Time, sweep: SweepId)
    requires Inv(w) && i < |w.runtime.life| && Expired(w.runtime.life[i], now)
    ensures var w' := Apply(w, Reap(i, now, sweep));
      && Inv(w') && Unanswered(w', i) && Recording(w'.runtime, i, sweep) && w'.runtime.life[i] == Released(Failed)
  {
    StepInv(w, Reap(i, now, sweep));
    assert Apply(w, Reap(i, now, sweep)) == DoReap(w, i, now, sweep);
  }

  lemma GivenUp(w: World, i: Id, sweep: SweepId, after: seq<Step>)
    requires Inv(w) && Unanswered(w, i) && Recording(w.runtime, i, sweep)
    ensures Unanswered(Exec(Apply(w, AbandonReap(i, sweep)), after), i)
  {
    var w' := Apply(w, AbandonReap(i, sweep));
    StepInv(w, AbandonReap(i, sweep));
    assert w' == DoAbandonReap(w, i, sweep);
    NeverAnswered(w', after, i);
  }

  /**
   A sweep that throws between its reclaim and its reply: whatever others do in between, and whatever anyone does
   afterwards, the execution never gets a reply.
   */
  lemma AbandonedReplyIsLost(before: seq<Step>, i: Id, now: Time, sweep: SweepId, between: seq<Step>, after: seq<Step>)
    requires i < |Exec(EMPTY, before).runtime.life| && Expired(Exec(EMPTY, before).runtime.life[i], now)
    requires forall k :: 0 <= k < |between| ==> ByOthers(between[k], ASweep(sweep))
    ensures var reclaimed := Apply(Exec(EMPTY, before), Reap(i, now, sweep));
      !HasReply(Exec(Apply(Exec(reclaimed, between), AbandonReap(i, sweep)), after).runtime.replies, i)
  {
    RunInv(EMPTY, before);
    ReclaimedIsUnanswered(Exec(EMPTY, before), i, now, sweep);
    var reclaimed := Apply(Exec(EMPTY, before), Reap(i, now, sweep));
    RunInv(reclaimed, between);
    OnlyItsSweepAnswers(reclaimed, between, i, sweep);
    GivenUp(Exec(reclaimed, between), i, sweep, after);
  }
}
