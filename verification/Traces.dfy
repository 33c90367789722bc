/** Histories in which one actor's steps interleave with everyone else's. */
module Traces {
  import opened Tables
  import opened Submission
  import opened Protocol
  import opened LifecycleSafety

  /** One step of a mixed history: made by the method itself, or by some other actor. */
  datatype Act = Act(step: Step, own: bool)

  function Steps(trace: seq<Act>): (run: seq<Step>)
    ensures |run| == |trace|
  {
    seq(|trace|, i requires 0 <= i < |trace| => trace[i].step)
  }

  function Others(run: seq<Step>): (trace: seq<Act>)
    ensures Steps(trace) == run
    ensures forall a :: a in trace ==> !a.own
  {
    seq(|run|, i requires 0 <= i < |run| => Act(run[i], false))
  }

  lemma StepsConcat(w: World, a: seq<Act>, b: seq<Act>)
    requires Sized(w)
    ensures Exec(w, Steps(a + b)) == Exec(Exec(w, Steps(a)), Steps(b))
  {
    assert Steps(a + b) == Steps(a) + Steps(b);
    ExecConcat(w, Steps(a), Steps(b));
  }

  lemma StepsOwn(w: World, a: seq<Act>, s: Step)
    requires Sized(w)
    ensures Exec(w, Steps(a + [Act(s, true)])) == Apply(Exec(w, Steps(a)), s)
  {
    StepsConcat(w, a, [Act(s, true)]);
    assert Steps([Act(s, true)]) == [s];
    ExecOne(Exec(w, Steps(a)), s);
  }

  lemma StepGrows(w: World, s: Step)
    requires Sized(w)
    ensures |w.catalog.executions| <= |Apply(w, s).catalog.executions|
    ensures w.mail.jobs <= Apply(w, s).mail.jobs
  {
    if s.Queue? {
      assert Apply(w, s) == Commit(w, QueueTx(w, s.q));
      QueueLife(w, s.q);
    } else if s.Retry? {
      assert Apply(w, s) == Commit(w, RetryTx(w, s.r));
      RetryLife(w, s.r);
    } else {
      OthersGrow(w, s);
    }
  }

  lemma OthersGrow(w: World, s: Step)
    requires Sized(w) && !s.Queue? && !s.Retry?
    ensures Apply(w, s).catalog.executions == w.catalog.executions && w.mail.jobs <= Apply(w, s).mail.jobs
  {
  }

  lemma {:induction false} RunGrows(w: World, run: seq<Step>)
    requires Sized(w)
    ensures |w.catalog.executions| <= |Exec(w, run).catalog.executions|
    ensures w.mail.jobs <= Exec(w, run).mail.jobs
    decreases |run|
  {
    if run != [] {
      StepGrows(w, run[0]);
      RunGrows(Apply(w, run[0]), run[1..]);
    }
  }
}
