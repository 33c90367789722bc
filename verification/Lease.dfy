/** When a live owner's lease can expire (apps/worker/src/worker-lease.ts). */
module Lease {
  import opened Wrappers
  import opened Tables
  import opened Submission
  import opened Protocol
  import opened LifecycleSafety

  /** `Math.max(1_000, Math.floor(leaseMs / 3))`. */
  function Interval(leaseMs: nat): nat {
    if leaseMs / 3 < 1_000 then 1_000 else leaseMs / 3
  }

  /** Whether the owner's k-th timer tick renews the lease or is missed. */
  type Beats = nat -> bool

  ghost predicate AtMostTwoMisses(beats: Beats) {
    forall k: nat :: OneOfNextThree(beats, k)
  }

  predicate OneOfNextThree(beats: Beats, k: nat) {
    beats(k + 1) || beats(k + 2) || beats(k + 3)
  }

  function NextBeat(beats: Beats, k: nat): nat {
    if beats(k + 1) then k + 1 else if beats(k + 2) then k + 2 else k + 3
  }

  /**
   The clock of one owner: it read the time `claimed` for its claim, started its timer at `start`, when the claim
   had returned, and a heartbeat is written at most `delay` after it has read the time.
   */
  datatype Clock = Clock(claimed: Time, start: Time, delay: nat)

  predicate Possible(c: Clock) {
    c.claimed <= c.start
  }

  /** The instant of the k-th tick. */
  function Tick(c: Clock, leaseMs: nat, k: nat): Time {
    c.start + k * Interval(leaseMs)
  }

  /** The time the row's lease was computed from, after the k-th tick renewed it. */
  function LeaseFrom(c: Clock, leaseMs: nat, k: nat): Time {
    if k == 0 then c.claimed else Tick(c, leaseMs, k)
  }

  /**
   A run in which the owner's heartbeats come from its performed ticks and no sweep is later than the latest
   moment at which the next performed one is written; everything else is unrestricted.
   */
  ghost predicate OnSchedule(run: seq<Step>, i: Id, worker: WorkerId, leaseMs: nat, c: Clock, beats: Beats, k: nat) {
    run == [] ||
    match run[0]
    case Heartbeat(id, owner, now, ms) =>
      if id == i && owner == worker then
        && now == Tick(c, leaseMs, NextBeat(beats, k)) && ms == leaseMs
        && OnSchedule(run[1..], i, worker, leaseMs, c, beats, NextBeat(beats, k))
      else OnSchedule(run[1..], i, worker, leaseMs, c, beats, k)
    case Reap(id, now, _) =>
      && (id == i ==> now <= Tick(c, leaseMs, NextBeat(beats, k)) + c.delay)
      && OnSchedule(run[1..], i, worker, leaseMs, c, beats, k)
    case _ => OnSchedule(run[1..], i, worker, leaseMs, c, beats, k)
  }

  /** In progress, held by this owner, and last renewed at its k-th tick; or already finished, but not by a sweep. */
  ghost predicate Renewed(w: World, i: Id, worker: WorkerId, leaseMs: nat, c: Clock, k: nat) {
    && i < |w.runtime.life| && i !in w.runtime.reaped
    && var l := w.runtime.life[i];
    && (Terminal(l.state) || l == Life(l.state, Some(worker), Some(LeaseFrom(c, leaseMs, k) + leaseMs)))
    && l.state != Queued
  }

  /** What the claim's latency, three intervals and a write's delay take of the lease. */
  predicate Covers(leaseMs: nat, c: Clock) {
    (c.start - c.claimed) + 3 * Interval(leaseMs) + c.delay <= leaseMs
  }

  lemma IntervalFitsIff(leaseMs: nat)
    ensures 3 * Interval(leaseMs) <= leaseMs <==> leaseMs >= 3_000
  {
  }

  /** All that a lease leaves for latency and delay together is its remainder by three: two milliseconds at most. */
  lemma CoversIff(leaseMs: nat, c: Clock)
    requires Possible(c)
    ensures Covers(leaseMs, c) <==> leaseMs >= 3_000 && (c.start - c.claimed) + c.delay <= leaseMs % 3
  {
    IntervalFitsIff(leaseMs);
    assert leaseMs == 3 * (leaseMs / 3) + leaseMs % 3;
  }

  lemma NextTick(c: Clock, leaseMs: nat, beats: Beats, k: nat)
    requires Possible(c) && Covers(leaseMs, c)
    ensures Tick(c, leaseMs, NextBeat(beats, k)) + c.delay <= LeaseFrom(c, leaseMs, k) + leaseMs
  {
    var next := NextBeat(beats, k);
    assert next <= k + 3;
    assert next * Interval(leaseMs) <= (k + 3) * Interval(leaseMs) == k * Interval(leaseMs) + 3 * Interval(leaseMs);
  }

  /** Steps that leave a row in progress as it is, or finish it without a sweep. */
  ghost predicate KeepsLease(w: World, w': World, i: Id)
    requires i < |w.runtime.life|
  {
    && i < |w'.runtime.life| && (i in w'.runtime.reaped ==> i in w.runtime.reaped)
    && (Terminal(w'.runtime.life[i].state)
        || (w'.runtime.life[i].state != Queued && w'.runtime.life[i].worker == w.runtime.life[i].worker
            && w'.runtime.life[i].lease == w.runtime.life[i].lease))
  }

  lemma StepKeepsLease(w: World, s: Step, i: Id)
    requires Inv(w) && i < |w.runtime.life| && w.runtime.life[i].state != Queued
    requires !((s.Heartbeat? || s.Reap?) && s.id == i)
    ensures KeepsLease(w, Apply(w, s), i)
  {
    if s.Queue? {
      QueueLife(w, s.q);
    } else if s.Retry? {
      RetryLife(w, s.r);
    } else if OnRow(s) {
      RowKeepsLease(w, s, i);
    } else if s.FinalizeSuccess? || s.FinalizeFailure? {
      FinalizeKeepsLease(w, s.id, i);
    } else {
      OtherKeepsLease(w, s, i);
    }
  }

  lemma RowKeepsLease(w: World, s: Step, i: Id)
    requires Inv(w) && i < |w.runtime.life| && w.runtime.life[i].state != Queued && OnRow(s)
    requires !((s.Heartbeat? || s.Reap?) && s.id == i)
    ensures KeepsLease(w, Apply(w, s), i)
  {
    if s.CheckJob? {
      assert Apply(w, s) == DoCheckJob(w, s.id);
      CheckKeepsLease(w, s.id, i);
    } else if s.WriteTermination? {
      assert Apply(w, s) == DoWriteTermination(w, s.id);
      TerminationKeepsLease(w, s.id, i);
    } else if s.Reap? {
      assert Apply(w, s) == DoReap(w, s.id, s.now, s.sweep);
    } else if s.Claim? {
      assert Apply(w, s) == DoClaim(w, s.job, s.worker, s.now, s.leaseMs);
    } else {
      WriteKeepsLease(w, s, i);
    }
  }

  lemma WriteKeepsLease(w: World, s: Step, i: Id)
    requires Sized(w) && i < |w.runtime.life| && w.runtime.life[i].state != Queued
    requires s.Cancel? || s.ProcessStarted? || s.OwnershipFailed? || (s.Heartbeat? && s.id != i)
    ensures KeepsLease(w, Apply(w, s), i)
  {
  }

  lemma CheckKeepsLease(w: World, id: Id, i: Id)
    requires Sized(w) && i < |w.runtime.life| && w.runtime.life[i].state != Queued
    ensures KeepsLease(w, DoCheckJob(w, id), i)
  {
  }

  lemma TerminationKeepsLease(w: World, id: Id, i: Id)
    requires Inv(w) && i < |w.runtime.life| && w.runtime.life[i].state != Queued
    ensures KeepsLease(w, DoWriteTermination(w, id), i)
  {
    if id in w.runtime.turns && Exists(w, id) {
      assert TurnSound(w.runtime, id);
    }
  }

  lemma FinalizeKeepsLease(w: World, id: Id, i: Id)
    requires Sized(w) && i < |w.runtime.life| && w.runtime.life[i].state != Queued
    ensures KeepsLease(w, DoFinalizeSuccess(w, id), i) && KeepsLease(w, DoFinalizeFailure(w, id), i)
  {
  }

  lemma OtherKeepsLease(w: World, s: Step, i: Id)
    requires Sized(w) && i < |w.runtime.life| && w.runtime.life[i].state != Queued && LeavesRows(s)
    ensures KeepsLease(w, Apply(w, s), i)
  {
  }

  lemma HeartbeatRenews(
      w: World, i: Id, worker: WorkerId, leaseMs: nat, c: Clock, k: nat, owner: WorkerId, now: Time, ms: int, next: nat)
    requires Sized(w) && Renewed(w, i, worker, leaseMs, c, k) && next > 0
    requires owner == worker ==> now == Tick(c, leaseMs, next) && ms == leaseMs
    ensures Renewed(DoHeartbeat(w, i, owner, now, ms), i, worker, leaseMs, c, if owner == worker then next else k)
  {
  }

  lemma SweepSkips(w: World, i: Id, worker: WorkerId, leaseMs: nat, c: Clock, k: nat, now: Time, sweep: SweepId)
    requires Sized(w) && Renewed(w, i, worker, leaseMs, c, k) && now <= LeaseFrom(c, leaseMs, k) + leaseMs
    ensures DoReap(w, i, now, sweep) == w
  {
  }

  lemma StepRenewed(w: World, s: Step, i: Id, worker: WorkerId, leaseMs: nat, c: Clock, beats: Beats, k: nat)
    requires Inv(w) && Renewed(w, i, worker, leaseMs, c, k) && Possible(c) && Covers(leaseMs, c)
    requires OnSchedule([s], i, worker, leaseMs, c, beats, k)
    ensures Renewed(Apply(w, s), i, worker, leaseMs, c,
      if s.Heartbeat? && s.id == i && s.worker == worker then NextBeat(beats, k) else k)
  {
    assert [s][0] == s;
    NextTick(c, leaseMs, beats, k);
    if s.Heartbeat? && s.id == i {
      assert Apply(w, s) == DoHeartbeat(w, i, s.worker, s.now, s.leaseMs);
      HeartbeatRenews(w, i, worker, leaseMs, c, k, s.worker, s.now, s.leaseMs, NextBeat(beats, k));
    } else if s.Reap? && s.id == i {
      assert Apply(w, s) == DoReap(w, i, s.now, s.sweep);
      SweepSkips(w, i, worker, leaseMs, c, k, s.now, s.sweep);
    } else {
      OthersRenewed(w, s, i, worker, leaseMs, c, k);
    }
  }

  lemma OthersRenewed(w: World, s: Step, i: Id, worker: WorkerId, leaseMs: nat, c: Clock, k: nat)
    requires Inv(w) && Renewed(w, i, worker, leaseMs, c, k)
    requires !(s.Heartbeat? && s.id == i) && !(s.Reap? && s.id == i)
    ensures Renewed(Apply(w, s), i, worker, leaseMs, c, k)
  {
    StepForward(w, s);
    StepKeepsLease(w, s, i);
  }

  lemma {:induction false} NeverReaped(
      w: World, run: seq<Step>, i: Id, worker: WorkerId, leaseMs: nat, c: Clock, beats: Beats, k: nat)
    requires Inv(w) && Renewed(w, i, worker, leaseMs, c, k) && Possible(c) && Covers(leaseMs, c)
    requires OnSchedule(run, i, worker, leaseMs, c, beats, k)
    ensures i !in Exec(w, run).runtime.reaped
    decreases |run|
  {
    if run != [] {
      assert [run[0]][1..] == [];
      StepRenewed(w, run[0], i, worker, leaseMs, c, beats, k);
      StepInv(w, run[0]);
      var next := if run[0].Heartbeat? && run[0].id == i && run[0].worker == worker then NextBeat(beats, k) else k;
      NeverReaped(Apply(w, run[0]), run[1..], i, worker, leaseMs, c, beats, next);
    }
  }

  /** Misses the first two of every three ticks. */
  function EveryThird(): Beats {
    (k: nat) => k % 3 == 0
  }

  ghost predicate SafeFromReaper(w: World, i: Id, worker: WorkerId, leaseMs: nat, c: Clock)
    requires Sized(w)
  {
    forall run, beats: Beats ::
      AtMostTwoMisses(beats) && OnSchedule(run, i, worker, leaseMs, c, beats, 0) ==> i !in Exec(w, run).runtime.reaped
  }

  /**
   An execution just claimed is reaped in no run in which its owner misses at most two consecutive heartbeats, if
   and only if the claim's latency, three intervals and the delay of a write fit into the lease.
   */
  lemma TwoMissesAreSafeIff(w: World, i: Id, worker: WorkerId, leaseMs: nat, c: Clock)
    requires Inv(w) && i < |w.runtime.life| && i !in w.runtime.reaped && Possible(c)
    requires w.runtime.life[i] == Life(Starting, Some(worker), Some(c.claimed + leaseMs))
    ensures SafeFromReaper(w, i, worker, leaseMs, c) <==> Covers(leaseMs, c)
  {
    if Covers(leaseMs, c) {
      forall run, beats: Beats | AtMostTwoMisses(beats) && OnSchedule(run, i, worker, leaseMs, c, beats, 0)
        ensures i !in Exec(w, run).runtime.reaped
      {
        NeverReaped(w, run, i, worker, leaseMs, c, beats, 0);
      }
    } else {
      var sweep := Reap(i, Tick(c, leaseMs, 3) + c.delay, 0);
      SweepOnSchedule(i, worker, leaseMs, c);
      SweepReaps(w, i, worker, leaseMs, c);
      assert AtMostTwoMisses(EveryThird()) && OnSchedule([sweep], i, worker, leaseMs, c, EveryThird(), 0);
    }
  }

  /** With the first two ticks of every three missed, a sweep may come just before the third heartbeat is written. */
  lemma SweepOnSchedule(i: Id, worker: WorkerId, leaseMs: nat, c: Clock)
    ensures AtMostTwoMisses(EveryThird())
    ensures OnSchedule([Reap(i, Tick(c, leaseMs, 3) + c.delay, 0)], i, worker, leaseMs, c, EveryThird(), 0)
  {
    var sweep := Reap(i, Tick(c, leaseMs, 3) + c.delay, 0);
    assert forall k: nat :: OneOfNextThree(EveryThird(), k);
    assert NextBeat(EveryThird(), 0) == 3;
    assert [sweep][1..] == [] && OnSchedule([], i, worker, leaseMs, c, EveryThird(), 0);
  }

  lemma SweepReaps(w: World, i: Id, worker: WorkerId, leaseMs: nat, c: Clock)
    requires Sized(w) && i < |w.runtime.life| && !Covers(leaseMs, c)
    requires w.runtime.life[i] == Life(Starting, Some(worker), Some(c.claimed + leaseMs))
    ensures i in Exec(w, [Reap(i, Tick(c, leaseMs, 3) + c.delay, 0)]).runtime.reaped
  {
    var sweep := Reap(i, Tick(c, leaseMs, 3) + c.delay, 0);
    ExecOne(w, sweep);
    assert Apply(w, sweep) == DoReap(w, i, sweep.now, 0);
  }

  /**
   From the claim itself, in every reachable world: what a lease of three seconds or more leaves for the latency of
   the claim and the delay of a heartbeat is its remainder by three. A lease that is a multiple of three, such as
   the default of sixty seconds, leaves nothing.
   */
  lemma ClaimedLeaseIsSafeIff(run: seq<Step>, job: Job, worker: WorkerId, leaseMs: nat, c: Clock)
    requires var w := Exec(EMPTY, run);
      job in w.mail.waiting && job.sessionId < |w.runtime.life| && w.runtime.life[job.sessionId].state == Queued
    requires Possible(c)
    ensures SafeFromReaper(Apply(Exec(EMPTY, run), Claim(job, worker, c.claimed, leaseMs)), job.sessionId, worker, leaseMs, c)
      <==> leaseMs >= 3_000 && (c.start - c.claimed) + c.delay <= leaseMs % 3
  {
    RunInv(EMPTY, run);
    ClaimIsSafeIff(Exec(EMPTY, run), job, worker, leaseMs, c);
    CoversIff(leaseMs, c);
  }

  lemma ClaimIsSafeIff(w: World, job: Job, worker: WorkerId, leaseMs: nat, c: Clock)
    requires Inv(w) && Possible(c) && job in w.mail.waiting && job.sessionId < |w.runtime.life|
    requires w.runtime.life[job.sessionId].state == Queued
    ensures SafeFromReaper(Apply(w, Claim(job, worker, c.claimed, leaseMs)), job.sessionId, worker, leaseMs, c)
      <==> Covers(leaseMs, c)
  {
    var claimed := DoClaim(w, job, worker, c.claimed, leaseMs);
    assert Apply(w, Claim(job, worker, c.claimed, leaseMs)) == claimed;
    InvClaim(w, job, worker, c.claimed, leaseMs);
    TwoMissesAreSafeIff(claimed, job.sessionId, worker, leaseMs, c);
  }

  /** With no latency and no delay at all, three seconds are enough and necessary. */
  lemma PromptOwnerIsSafeIff(w: World, i: Id, worker: WorkerId, leaseMs: nat, t0: Time)
    requires Inv(w) && i < |w.runtime.life| && i !in w.runtime.reaped
    requires w.runtime.life[i] == Life(Starting, Some(worker), Some(t0 + leaseMs))
    ensures SafeFromReaper(w, i, worker, leaseMs, Clock(t0, t0, 0)) <==> leaseMs >= 3_000
  {
    TwoMissesAreSafeIff(w, i, worker, leaseMs, Clock(t0, t0, 0));
    CoversIff(leaseMs, Clock(t0, t0, 0));
  }
}
