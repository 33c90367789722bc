/** The lease reaper's sweep (apps/worker/src/worker-lease.ts). */
module Reaper {
  import opened Wrappers
  import opened Tables
  import opened Submission
  import opened Protocol
  import opened LifecycleSafety
  import opened Traces
  import opened Persistence
  import KillSafety

  // ---------- what a sweep reclaims ----------

  predicate Reclaims(w: World, s: Step)
    requires s.Reap?
  {
    Exists(w, s.id) && Expired(w.runtime.life[s.id], s.now)
  }

  /** The rows that the sweep's own reclaims changed, in order. */
  function Reclaimed(w: World, trace: seq<Act>): seq<Id>
    requires Sized(w)
  {
    if trace == [] then []
    else
      var before := trace[..|trace| - 1];
      var last := trace[|trace| - 1];
      Reclaimed(w, before) +
        (if last.own && last.step.Reap? && Reclaims(Exec(w, Steps(before)), last.step) then [last.step.id] else [])
  }

  lemma ReclaimedAppend(w: World, trace: seq<Act>, a: Act)
    requires Sized(w)
    ensures Reclaimed(w, trace + [a]) == Reclaimed(w, trace) +
      (if a.own && a.step.Reap? && Reclaims(Exec(w, Steps(trace)), a.step) then [a.step.id] else [])
  {
    assert (trace + [a])[..|trace|] == trace;
  }

  lemma {:induction false} ReclaimedOthers(w: World, trace: seq<Act>, others: seq<Act>)
    requires Sized(w) && forall a :: a in others ==> !a.own
    ensures Reclaimed(w, trace + others) == Reclaimed(w, trace)
  {
    if others == [] {
      assert trace + others == trace;
    } else {
      var n := |others| - 1;
      ReclaimedOthers(w, trace, others[..n]);
      ReclaimedAppend(w, trace + others[..n], others[n]);
      assert trace + others == trace + others[..n] + [others[n]];
    }
  }

  // ---------- what a sweep terminates ----------

  /** The row names a process: a root pid and a start identity, both set. */
  predicate HasProcess(process: Option<OwnedProcess>) {
    process.Some? && process.value.rootPid != 0 && process.value.startIdentity != ""
  }

  /** The termination of a reclaimed row's process; the result says whether it throws. */
  function TerminationOf(process: Option<OwnedProcess>, host: KillSafety.Host, log: seq<KillSafety.Event>)
    : KillSafety.Ran<bool>
  {
    if !HasProcess(process) then KillSafety.Ran(log, false)
    else
      var ran := KillSafety.TerminateOwned(process.value.rootPid, process.value.startIdentity, host, log);
      KillSafety.Ran(ran.log, ran.result.Threw?)
  }

  function ProcessOf(processes: map<Id, OwnedProcess>, id: Id): Option<OwnedProcess> {
    if id in processes then Some(processes[id]) else None
  }

  /** The terminations of these rows' processes, one after the other, up to the first that throws. */
  function Terminations(
      processes: map<Id, OwnedProcess>, ids: seq<Id>, host: KillSafety.Host, log: seq<KillSafety.Event>)
    : KillSafety.Ran<bool>
  {
    if ids == [] then KillSafety.Ran(log, false)
    else
      var n := |ids| - 1;
      var before := Terminations(processes, ids[..n], host, log);
      if before.result then before else TerminationOf(ProcessOf(processes, ids[n]), host, before.log)
  }

  /** Only a row that names a process, by pid and identity, is terminated at all; it is then read, and killed if it matches. */
  lemma TerminatesIff(process: Option<OwnedProcess>, host: KillSafety.Host, log: seq<KillSafety.Event>)
    ensures var ran := TerminationOf(process, host, log);
      if process.Some? && process.value.rootPid != 0 && process.value.startIdentity != "" then
        var pid, identity := process.value.rootPid, process.value.startIdentity;
        && log + [KillSafety.Read(pid, KillSafety.Identity(pid, host, |log|))] <= ran.log
        && KillSafety.CheckedKills(ran.log, |log|, pid, identity)
        && (KillSafety.Sends(ran.log, |log|, pid, true) <==> KillSafety.Identity(pid, host, |log|) == Some(identity))
      else ran == KillSafety.Ran(log, false)
  {
    if HasProcess(process) {
      var pid, identity := process.value.rootPid, process.value.startIdentity;
      KillSafety.OwnedTerminationIsSafe(pid, identity, host, log);
      FirstReading(pid, identity, host, log);
    }
  }

  lemma FirstReading(pid: int, expected: string, host: KillSafety.Host, log: seq<KillSafety.Event>)
    ensures log + [KillSafety.Read(pid, KillSafety.Identity(pid, host, |log|))] <= KillSafety.TerminateOwned(pid, expected, host, log).log
  {
    var seen := log + [KillSafety.Read(pid, Some(expected))];
    KillSafety.PollsOnlyRead(pid, host, seen + [KillSafety.Kill(pid, true)], KillSafety.OWNED_POLLS);
  }

  lemma OneThrowsIff(process: Option<OwnedProcess>, host: KillSafety.Host, log: seq<KillSafety.Event>)
    ensures TerminationOf(process, host, log).result <==> Unconfirmed(process, host, |log|)
  {
    if HasProcess(process) {
      KillSafety.OwnedTerminationIsSafe(process.value.rootPid, process.value.startIdentity, host, log);
    }
  }

  /** What a termination needs to throw. */
  ghost predicate Unconfirmed(process: Option<OwnedProcess>, host: KillSafety.Host, now: nat) {
    && process.Some? && process.value.rootPid != 0 && process.value.startIdentity != ""
    && KillSafety.Identity(process.value.rootPid, host, now) == Some(process.value.startIdentity)
    && KillSafety.AlwaysPresent(process.value.rootPid, host, now + 2, now + 22)
  }

  /** The process of the row at position `k` is read to be the recorded one, and then never to be gone. */
  ghost predicate UnconfirmedAt(
      processes: map<Id, OwnedProcess>, ids: seq<Id>, host: KillSafety.Host, log: seq<KillSafety.Event>, k: nat)
    requires k < |ids|
  {
    Unconfirmed(ProcessOf(processes, ids[k]), host, |Terminations(processes, ids[..k], host, log).log|)
  }

  /** A sweep throws exactly when it reclaims a row whose process it finds and then cannot confirm to be gone. */
  lemma {:induction false} ThrowsIffUnconfirmed(
      processes: map<Id, OwnedProcess>, ids: seq<Id>, host: KillSafety.Host, log: seq<KillSafety.Event>)
    ensures Terminations(processes, ids, host, log).result <==>
      exists k :: 0 <= k < |ids| && UnconfirmedAt(processes, ids, host, log, k)
    decreases |ids|
  {
    if ids != [] {
      var n := |ids| - 1;
      ThrowsIffUnconfirmed(processes, ids[..n], host, log);
      OneThrowsIff(ProcessOf(processes, ids[n]), host, Terminations(processes, ids[..n], host, log).log);
      assert Terminations(processes, ids, host, log).result <==>
        Terminations(processes, ids[..n], host, log).result || UnconfirmedAt(processes, ids, host, log, n);
      forall k | 0 <= k < n
        ensures UnconfirmedAt(processes, ids[..n], host, log, k) <==> UnconfirmedAt(processes, ids, host, log, k)
      {
        assert ids[..n][..k] == ids[..k];
      }
    }
  }

  /** The machine has done exactly the terminations of these rows' processes. */
  ghost predicate HasTerminated(
      m: KillSafety.Machine, threw: bool, processes: map<Id, OwnedProcess>, ids: seq<Id>, log: seq<KillSafety.Event>)
    reads m
  {
    KillSafety.Ran(m.log, threw) == Terminations(processes, ids, m.host, log)
  }

  lemma TerminationsAppend(
      processes: map<Id, OwnedProcess>, ids: seq<Id>, id: Id, host: KillSafety.Host, log: seq<KillSafety.Event>)
    ensures var before := Terminations(processes, ids, host, log);
      Terminations(processes, ids + [id], host, log) ==
        if before.result then before else TerminationOf(ProcessOf(processes, id), host, before.log)
  {
    assert (ids + [id])[..|ids|] == ids;
  }

  // ---------- the sweep's history ----------

  /** A step that a sweep which saw `w` at its start may make: in its own name, for a row that had expired by then. */
  predicate SweepStep(w: World, s: Step, now: Time, sweep: SweepId) {
    && (s.Reap? || s.ReapProviderSession? || s.ReapReply? || s.AbandonReap?)
    && s.sweep == sweep
    && s.id < |w.runtime.life| && Expired(w.runtime.life[s.id], now)
    && (s.Reap? ==> s.now == now)
  }

  ghost predicate OwnStepsSweep(w: World, trace: seq<Act>, now: Time, sweep: SweepId) {
    forall a :: a in trace && a.own ==> SweepStep(w, a.step, now, sweep)
  }

  /** The tables are what the history makes of the world that the sweep started from. */
  ghost predicate Follows(w: World, trace: seq<Act>, view: World) {
    Inv(w) && view == Exec(w, Steps(trace))
  }

  lemma StepKeepsRecording(w: World, s: Step, id: Id, sweep: SweepId)
    requires Inv(w) && Recording(w.runtime, id, sweep) && ByOthers(s, ASweep(sweep))
    ensures Recording(Apply(w, s).runtime, id, sweep)
  {
    if s.Queue? {
      QueueLife(w, s.q);
    } else if s.Retry? {
      RetryLife(w, s.r);
    }
  }

  lemma {:induction false} RunKeepsRecording(w: World, run: seq<Step>, id: Id, sweep: SweepId)
    requires Inv(w) && Recording(w.runtime, id, sweep)
    requires forall k :: 0 <= k < |run| ==> ByOthers(run[k], ASweep(sweep))
    ensures Recording(Exec(w, run).runtime, id, sweep)
    decreases |run|
  {
    if run != [] {
      StepKeepsRecording(w, run[0], id, sweep);
      StepInv(w, run[0]);
      RunKeepsRecording(Apply(w, run[0]), run[1..], id, sweep);
    }
  }

  /** The history grows by one of the sweep's own steps. */
  lemma OwnStep(w: World, trace: seq<Act>, view: World, s: Step)
    requires Follows(w, trace, view)
    ensures Sized(view) && Follows(w, trace + [Act(s, true)], Apply(view, s))
    ensures Act(s, true) in trace + [Act(s, true)]
  {
    StepsOwn(w, trace, s);
    assert (trace + [Act(s, true)])[|trace|] == Act(s, true);
  }

  /** The sweep's last steps for a row that it has reclaimed. */
  predicate Closing(s: Step, id: Id, sweep: SweepId, threw: bool) {
    if threw then s == AbandonReap(id, sweep) else s == ReapProviderSession(id, sweep) || s == ReapReply(id, sweep)
  }

  ghost predicate Closed(trace: seq<Act>, id: Id, sweep: SweepId, threw: bool) {
    forall s :: Closing(s, id, sweep, threw) ==> Act(s, true) in trace
  }

  /** The sweep has recorded all these rows. */
  ghost predicate Recorded(trace: seq<Act>, ids: seq<Id>, sweep: SweepId) {
    forall id :: id in ids ==> Closed(trace, id, sweep, false)
  }

  /** The sweep has given this row up, and made no step that records it. */
  ghost predicate LeftOpen(trace: seq<Act>, id: Id, sweep: SweepId) {
    && Closed(trace, id, sweep, true)
    && forall s :: Closing(s, id, sweep, false) ==> Act(s, true) !in trace
  }


  // ---------- single statements ----------

  /** A row as the sweep read it. */
  datatype Candidate = Candidate(id: Id, process: Option<OwnedProcess>)

  /** `findMany` of the sweep: the rows in progress whose lease has run out, or who have none. */
  method FindExpired(db: Database, now: Time) returns (candidates: seq<Candidate>)
    ensures forall c :: c in candidates ==> c == Candidate(c.id, ProcessOf(db.runtime.processes, c.id))
    ensures forall id :: 0 <= id < |db.runtime.life| && Expired(db.runtime.life[id], now) ==>
      Candidate(id, ProcessOf(db.runtime.processes, id)) in candidates
    ensures forall c :: c in candidates ==> c.id < |db.runtime.life| && Expired(db.runtime.life[c.id], now)
    ensures forall j, k :: 0 <= j < k < |candidates| ==> candidates[j].id < candidates[k].id
  {
    candidates := [];
    for i := 0 to |db.runtime.life|
      invariant forall c :: c in candidates ==>
        c == Candidate(c.id, ProcessOf(db.runtime.processes, c.id)) && c.id < i && Expired(db.runtime.life[c.id], now)
      invariant forall id :: 0 <= id < i && Expired(db.runtime.life[id], now) ==>
        Candidate(id, ProcessOf(db.runtime.processes, id)) in candidates
      invariant forall j, k :: 0 <= j < k < |candidates| ==> candidates[j].id < candidates[k].id
    {
      if Expired(db.runtime.life[i], now) {
        assert forall j :: 0 <= j < |candidates| ==> candidates[j] in candidates;
        candidates := candidates + [Candidate(i, ProcessOf(db.runtime.processes, i))];
      }
    }
  }

  /** The compare-and-set: it takes effect exactly on a row in progress whose lease ended before the sweep's time. */
  method TryReap(db: Database, id: Id, now: Time, sweep: SweepId) returns (claimed: bool)
    requires Sized(db.View())
    modifies db`runtime
    ensures db.View() == Apply(old(db.View()), Reap(id, now, sweep))
    ensures claimed <==>
      && id < |old(db.runtime).life|
      && (old(db.runtime).life[id].state == Starting || old(db.runtime).life[id].state == Running)
      && !(old(db.runtime).life[id].lease.Some? && now <= old(db.runtime).life[id].lease.value)
    ensures claimed ==> db.runtime.life == old(db.runtime).life[id := Life(Failed, None, None)]
    ensures !claimed ==> db.View() == old(db.View())
  {
    claimed := id < |db.runtime.life| && Expired(db.runtime.life[id], now);
    if claimed {
      db.runtime := db.runtime.(
        life := db.runtime.life[id := Released(Failed)], reaped := db.runtime.reaped[id := Some(sweep)]);
    }
  }

  method TerminateProcess(m: KillSafety.Machine, process: Option<OwnedProcess>) returns (threw: bool)
    modifies m`log
    ensures KillSafety.Ran(m.log, threw) == TerminationOf(process, m.host, old(m.log))
  {
    if process.None? || process.value.rootPid == 0 || process.value.startIdentity == "" {
      return false;
    }
    var result := m.TerminateOwnedProcessTree(process.value.rootPid, process.value.startIdentity);
    threw := result.Threw?;
  }

  method FailProviderSession(db: Database, id: Id, sweep: SweepId)
    requires Sized(db.View()) && id < |db.catalog.executions| && Recording(db.runtime, id, sweep)
    modifies db`runtime
    ensures db.View() == Apply(old(db.View()), ReapProviderSession(id, sweep))
    ensures db.catalog == old(db.catalog) && db.runtime.reaped == old(db.runtime.reaped)
  {
    var session := db.catalog.executions[id].providerSessionId;
    if session < |db.runtime.sessionStatus| && db.runtime.sessionStatus[session] != SessionFailed {
      db.runtime := db.runtime.(sessionStatus := db.runtime.sessionStatus[session := SessionFailed]);
    }
  }

  method CreateFailedReply(db: Database, id: Id, sweep: SweepId)
    requires Sized(db.View()) && id < |db.catalog.executions| && Recording(db.runtime, id, sweep)
    modifies db`runtime
    ensures db.View() == Apply(old(db.View()), ReapReply(id, sweep))
  {
    if !HasReply(db.runtime.replies, id) {
      db.runtime := db.runtime.(replies := db.runtime.replies +
        [Reply(id, db.catalog.executions[id].conversationId, db.catalog.executions[id].providerId, false)]);
    }
  }

  /** No database call: the sweep is over, and nobody else records the row. */
  method Abandon(db: Database, id: Id, sweep: SweepId)
    requires Sized(db.View())
    modifies db`runtime
    ensures db.View() == Apply(old(db.View()), AbandonReap(id, sweep))
  {
    if id in db.runtime.reaped && db.runtime.reaped[id] == Some(sweep) {
      db.runtime := db.runtime.(reaped := db.runtime.reaped[id := None]);
    }
  }

  /** Other actors act; the history grows by their steps, and the rows of this sweep stay its own. */
  method Elapse(db: Database, ghost w: World, ghost trace: seq<Act>, sweep: SweepId) returns (ghost trace': seq<Act>)
    requires Follows(w, trace, db.View())
    modifies db
    ensures Follows(w, trace', db.View()) && trace <= trace'
    ensures Reclaimed(w, trace') == Reclaimed(w, trace)
    ensures forall a :: a in trace' && a.own ==> a in trace
    ensures forall id :: Recording(old(db.runtime), id, sweep) ==> Recording(db.runtime, id, sweep)
    ensures |old(db.catalog.executions)| <= |db.catalog.executions|
  {
    ghost var view := db.View();
    ghost var run := db.Interference(ASweep(sweep));
    trace' := trace + Others(run);
    StepsConcat(w, trace, Others(run));
    ReclaimedOthers(w, trace, Others(run));
    RunInv(w, Steps(trace));
    RunGrows(view, run);
    forall id | Recording(view.runtime, id, sweep) ensures Recording(db.runtime, id, sweep) {
      RunKeepsRecording(view, run, id, sweep);
    }
  }

  // ---------- one candidate ----------

  /** After a confirmed termination: fail the provider session and leave a FAILED reply. */
  method RecordReaped(db: Database, ghost w: World, ghost trace: seq<Act>, id: Id, sweep: SweepId)
    returns (ghost trace': seq<Act>)
    requires Follows(w, trace, db.View()) && Recording(db.runtime, id, sweep) && id < |db.catalog.executions|
    modifies db
    ensures Follows(w, trace', db.View()) && trace <= trace'
    ensures Reclaimed(w, trace') == Reclaimed(w, trace)
    ensures Act(ReapProviderSession(id, sweep), true) in trace' && Act(ReapReply(id, sweep), true) in trace'
    ensures forall a :: a in trace' && a.own ==>
      a in trace || a.step == ReapProviderSession(id, sweep) || a.step == ReapReply(id, sweep)
  {
    ghost var t1 := RecordSession(db, w, trace, id, sweep);
    trace' := RecordReply(db, w, t1, id, sweep);
  }

  method RecordSession(db: Database, ghost w: World, ghost trace: seq<Act>, id: Id, sweep: SweepId)
    returns (ghost trace': seq<Act>)
    requires Follows(w, trace, db.View()) && Recording(db.runtime, id, sweep) && id < |db.catalog.executions|
    modifies db
    ensures Follows(w, trace', db.View()) && trace <= trace'
    ensures Reclaimed(w, trace') == Reclaimed(w, trace)
    ensures Recording(db.runtime, id, sweep) && id < |db.catalog.executions|
    ensures Act(ReapProviderSession(id, sweep), true) in trace'
    ensures forall a :: a in trace' && a.own ==> a in trace || a.step == ReapProviderSession(id, sweep)
  {
    ghost var t1 := Elapse(db, w, trace, sweep);
    OwnStep(w, t1, db.View(), ReapProviderSession(id, sweep));
    ReclaimedAppend(w, t1, Act(ReapProviderSession(id, sweep), true));
    FailProviderSession(db, id, sweep);
    trace' := t1 + [Act(ReapProviderSession(id, sweep), true)];
  }

  method RecordReply(db: Database, ghost w: World, ghost trace: seq<Act>, id: Id, sweep: SweepId)
    returns (ghost trace': seq<Act>)
    requires Follows(w, trace, db.View()) && Recording(db.runtime, id, sweep) && id < |db.catalog.executions|
    modifies db
    ensures Follows(w, trace', db.View()) && trace <= trace'
    ensures Reclaimed(w, trace') == Reclaimed(w, trace)
    ensures Act(ReapReply(id, sweep), true) in trace'
    ensures forall a :: a in trace' && a.own ==> a in trace || a.step == ReapReply(id, sweep)
  {
    ghost var t1 := Elapse(db, w, trace, sweep);
    OwnStep(w, t1, db.View(), ReapReply(id, sweep));
    ReclaimedAppend(w, t1, Act(ReapReply(id, sweep), true));
    CreateFailedReply(db, id, sweep);
    trace' := t1 + [Act(ReapReply(id, sweep), true)];
  }

  method AbandonRow(db: Database, ghost w: World, ghost trace: seq<Act>, id: Id, sweep: SweepId)
    returns (ghost trace': seq<Act>)
    requires Follows(w, trace, db.View())
    modifies db
    ensures Follows(w, trace', db.View()) && trace <= trace'
    ensures Reclaimed(w, trace') == Reclaimed(w, trace)
    ensures Act(AbandonReap(id, sweep), true) in trace'
    ensures forall a :: a in trace' && a.own ==> a in trace || a.step == AbandonReap(id, sweep)
  {
    OwnStep(w, trace, db.View(), AbandonReap(id, sweep));
    ReclaimedAppend(w, trace, Act(AbandonReap(id, sweep), true));
    Abandon(db, id, sweep);
    trace' := trace + [Act(AbandonReap(id, sweep), true)];
  }

  lemma OwnReap(w: World, trace: seq<Act>, view: World, id: Id, now: Time, sweep: SweepId, claimed: bool)
    requires Follows(w, trace, view)
    requires claimed <==> id < |view.runtime.life| && Expired(view.runtime.life[id], now)
    ensures var a := Act(Reap(id, now, sweep), true);
      && Sized(view) && Follows(w, trace + [a], Apply(view, a.step)) && a in trace + [a]
      && Reclaimed(w, trace + [a]) == Reclaimed(w, trace) + (if claimed then [id] else [])
    ensures claimed ==> Recording(Apply(view, Reap(id, now, sweep)).runtime, id, sweep)
    ensures claimed ==> id < |Apply(view, Reap(id, now, sweep)).catalog.executions|
  {
    OwnStep(w, trace, view, Reap(id, now, sweep));
    ReclaimedAppend(w, trace, Act(Reap(id, now, sweep), true));
    assert Apply(view, Reap(id, now, sweep)) == DoReap(view, id, now, sweep);
  }

  /** The compare-and-set of one candidate, after others have acted. */
  method ClaimCandidate(db: Database, ghost w: World, ghost trace: seq<Act>, id: Id, now: Time, sweep: SweepId)
    returns (claimed: bool, ghost trace': seq<Act>)
    requires Follows(w, trace, db.View())
    modifies db
    ensures Follows(w, trace', db.View()) && trace <= trace' && Act(Reap(id, now, sweep), true) in trace'
    ensures Reclaimed(w, trace') == Reclaimed(w, trace) + (if claimed then [id] else [])
    ensures claimed ==> Recording(db.runtime, id, sweep) && id < |db.catalog.executions|
    ensures forall a :: a in trace' && a.own ==> a in trace || a.step == Reap(id, now, sweep)
  {
    ghost var t1 := Elapse(db, w, trace, sweep);
    ghost var view := db.View();
    claimed := TryReap(db, id, now, sweep);
    trace' := t1 + [Act(Reap(id, now, sweep), true)];
    OwnReap(w, t1, view, id, now, sweep, claimed);
  }

  /** The row's process is terminated while others act; only a confirmed termination is recorded. */
  method RecoverCandidate(
      db: Database, m: KillSafety.Machine, ghost w: World, ghost trace: seq<Act>, c: Candidate, sweep: SweepId)
    returns (threw: bool, ghost trace': seq<Act>)
    requires Follows(w, trace, db.View()) && Recording(db.runtime, c.id, sweep) && c.id < |db.catalog.executions|
    modifies db, m`log
    ensures Follows(w, trace', db.View()) && trace <= trace'
    ensures Reclaimed(w, trace') == Reclaimed(w, trace)
    ensures KillSafety.Ran(m.log, threw) == TerminationOf(c.process, m.host, old(m.log))
    ensures Closed(trace', c.id, sweep, threw)
    ensures forall a :: a in trace' && a.own ==> a in trace || Closing(a.step, c.id, sweep, threw)
  {
    ghost var t1 := Elapse(db, w, trace, sweep);
    threw := TerminateProcess(m, c.process);
    if threw {
      trace' := AbandonRow(db, w, t1, c.id, sweep);
    } else {
      trace' := RecordReaped(db, w, t1, c.id, sweep);
    }
  }

  method ReapCandidate(
      db: Database, m: KillSafety.Machine, ghost w: World, ghost trace: seq<Act>, c: Candidate, now: Time, sweep: SweepId)
    returns (claimed: bool, threw: bool, ghost trace': seq<Act>)
    requires Follows(w, trace, db.View())
    modifies db, m`log
    ensures Follows(w, trace', db.View()) && AddsCandidate(trace, trace', c.id, now, sweep, threw)
    ensures Reclaimed(w, trace') == Reclaimed(w, trace) + (if claimed then [c.id] else [])
    ensures KillSafety.Ran(m.log, threw) ==
      if claimed then TerminationOf(c.process, m.host, old(m.log)) else KillSafety.Ran(old(m.log), false)
    ensures claimed ==> Closed(trace', c.id, sweep, threw)
  {
    threw := false;
    claimed, trace' := ClaimCandidate(db, w, trace, c.id, now, sweep);
    if claimed {
      threw, trace' := RecoverCandidate(db, m, w, trace', c, sweep);
    }
  }

  // ---------- the sweep ----------

  /** The candidates as `FindExpired` returns them. */
  ghost predicate Candidates(w: World, candidates: seq<Candidate>, now: Time) {
    && (forall c :: c in candidates ==> c.id < |w.runtime.life| && Expired(w.runtime.life[c.id], now))
    && (forall j, k :: 0 <= j < k < |candidates| ==> candidates[j].id < candidates[k].id)
  }

  /** The sweep has dealt with the first `k` candidates. */
  ghost predicate Swept(w: World, trace: seq<Act>, candidates: seq<Candidate>, k: nat, now: Time, sweep: SweepId)
    requires Sized(w) && k <= |candidates|
  {
    Tried(w, trace, candidates, k, now, sweep) && Recorded(trace, Reclaimed(w, trace), sweep)
  }

  /** The sweep has tried the first `k` candidates, and made no step for any other row. */
  ghost predicate Tried(w: World, trace: seq<Act>, candidates: seq<Candidate>, k: nat, now: Time, sweep: SweepId)
    requires k <= |candidates|
  {
    && Candidates(w, candidates, now)
    && OwnStepsSweep(w, trace, now, sweep)
    && (forall j :: 0 <= j < k ==> Act(Reap(candidates[j].id, now, sweep), true) in trace)
    && (forall a :: a in trace && a.own ==> exists j :: 0 <= j < k && candidates[j].id == a.step.id)
  }

  /** What `ReapCandidate` adds to the history. */
  ghost predicate AddsCandidate(
      trace: seq<Act>, trace': seq<Act>, id: Id, now: Time, sweep: SweepId, threw: bool)
  {
    && trace <= trace' && Act(Reap(id, now, sweep), true) in trace'
    && forall a :: a in trace' && a.own ==>
         a in trace || a.step == Reap(id, now, sweep) || Closing(a.step, id, sweep, threw)
  }

  lemma RecordedStays(trace: seq<Act>, trace': seq<Act>, ids: seq<Id>, sweep: SweepId)
    requires Recorded(trace, ids, sweep) && trace <= trace'
    ensures Recorded(trace', ids, sweep)
  {
    forall id, s | id in ids && Closing(s, id, sweep, false) ensures Act(s, true) in trace' {
      assert Closed(trace, id, sweep, false);
    }
  }

  lemma TriesGrow(
      w: World, trace: seq<Act>, trace': seq<Act>, candidates: seq<Candidate>, k: nat, now: Time, sweep: SweepId,
      threw: bool)
    requires k < |candidates| && Tried(w, trace, candidates, k, now, sweep)
    requires AddsCandidate(trace, trace', candidates[k].id, now, sweep, threw)
    ensures Tried(w, trace', candidates, k + 1, now, sweep)
  {
    assert candidates[k] in candidates;
    forall a | a in trace' && a.own ensures exists j :: 0 <= j <= k && candidates[j].id == a.step.id {
      assert a in trace || a.step.id == candidates[k].id;
    }
  }

  lemma SweptOn(
      w: World, trace: seq<Act>, trace': seq<Act>, candidates: seq<Candidate>, k: nat, now: Time, sweep: SweepId,
      claimed: bool)
    requires Sized(w) && k < |candidates| && Swept(w, trace, candidates, k, now, sweep)
    requires AddsCandidate(trace, trace', candidates[k].id, now, sweep, false)
    requires Reclaimed(w, trace') == Reclaimed(w, trace) + (if claimed then [candidates[k].id] else [])
    requires claimed ==> Closed(trace', candidates[k].id, sweep, false)
    ensures Swept(w, trace', candidates, k + 1, now, sweep)
  {
    RecordedStays(trace, trace', Reclaimed(w, trace), sweep);
    TriesGrow(w, trace, trace', candidates, k, now, sweep, false);
  }

  lemma SweptUpTo(
      w: World, trace: seq<Act>, trace': seq<Act>, candidates: seq<Candidate>, k: nat, now: Time, sweep: SweepId)
    requires Sized(w) && k < |candidates| && Swept(w, trace, candidates, k, now, sweep)
    requires AddsCandidate(trace, trace', candidates[k].id, now, sweep, true)
    requires Reclaimed(w, trace') == Reclaimed(w, trace) + [candidates[k].id]
    requires Closed(trace', candidates[k].id, sweep, true)
    ensures OwnStepsSweep(w, trace', now, sweep)
    ensures var ids := Reclaimed(w, trace');
      Recorded(trace', ids[..|ids| - 1], sweep) && LeftOpen(trace', ids[|ids| - 1], sweep)
  {
    RecordedStays(trace, trace', Reclaimed(w, trace), sweep);
    TriesGrow(w, trace, trace', candidates, k, now, sweep, true);
    assert Reclaimed(w, trace')[..|Reclaimed(w, trace)|] == Reclaimed(w, trace);
  }

  /** `ReapCandidate`, with the terminations of the whole sweep. */
  method ReapNext(
      db: Database, m: KillSafety.Machine, ghost w: World, ghost trace: seq<Act>, c: Candidate, now: Time, sweep: SweepId,
      ghost processes: map<Id, OwnedProcess>, ghost log: seq<KillSafety.Event>)
    returns (claimed: bool, threw: bool, ghost trace': seq<Act>)
    requires Follows(w, trace, db.View()) && c.process == ProcessOf(processes, c.id)
    requires HasTerminated(m, false, processes, Reclaimed(w, trace), log)
    modifies db, m`log
    ensures Follows(w, trace', db.View()) && AddsCandidate(trace, trace', c.id, now, sweep, threw)
    ensures Reclaimed(w, trace') == Reclaimed(w, trace) + (if claimed then [c.id] else [])
    ensures HasTerminated(m, threw, processes, Reclaimed(w, trace'), log)
    ensures claimed ==> Closed(trace', c.id, sweep, threw)
    ensures threw ==> claimed
  {
    claimed, threw, trace' := ReapCandidate(db, m, w, trace, c, now, sweep);
    TerminationsAppend(processes, Reclaimed(w, trace), c.id, m.host, log);
    assert Reclaimed(w, trace) + [] == Reclaimed(w, trace);
  }

  /**
   The candidates were read at the start and the rows can change under the sweep. It returns how many it
   reclaimed, or throws (`None`) at the first termination that stays unconfirmed: the row is FAILED by then,
   and neither its provider session nor its reply is recorded.
   */
  method ReapExpiredAgentSessions(db: Database, m: KillSafety.Machine, now: Time, sweep: SweepId)
    returns (reaped: Option<nat>, ghost trace: seq<Act>)
    requires Inv(db.View())
    modifies db, m`log
    ensures Follows(old(db.View()), trace, db.View())
    ensures OwnStepsSweep(old(db.View()), trace, now, sweep)
    ensures var ids := Reclaimed(old(db.View()), trace);
      && (reaped.Some? ==> reaped.value == |ids|)
      && HasTerminated(m, reaped.None?, old(db.runtime.processes), ids, old(m.log))
      && Recorded(trace, if reaped.None? then ids[..|ids| - 1] else ids, sweep)
      && (reaped.None? ==> LeftOpen(trace, ids[|ids| - 1], sweep))
    ensures reaped.Some? ==> forall id :: 0 <= id < |old(db.runtime.life)| && Expired(old(db.runtime.life)[id], now) ==>
      Act(Reap(id, now, sweep), true) in trace
  {
    ghost var w := db.View();
    ghost var processes, log0 := db.runtime.processes, m.log;
    var candidates := FindExpired(db, now);
    trace := [];
    var count, k := 0, 0;
    while k < |candidates|
      invariant 0 <= k <= |candidates|
      invariant Follows(w, trace, db.View())
      invariant Swept(w, trace, candidates, k, now, sweep)
      invariant count == |Reclaimed(w, trace)|
      invariant HasTerminated(m, false, processes, Reclaimed(w, trace), log0)
    {
      var c := candidates[k];
      assert c in candidates;
      ghost var before := trace;
      var claimed, threw;
      claimed, threw, trace := ReapNext(db, m, w, trace, c, now, sweep, processes, log0);
      if threw {
        SweptUpTo(w, before, trace, candidates, k, now, sweep);
        return None, trace;
      }
      SweptOn(w, before, trace, candidates, k, now, sweep, claimed);
      count := if claimed then count + 1 else count;
      k := k + 1;
    }
    reaped := Some(count);
  }
}
