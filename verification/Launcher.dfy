/**
 Reconciling the launcher's saved runtime metadata with the processes that really run
 (scripts/start-local.mjs, `selectDescendant`, `resolveRecord` and `removeStaleRuntime`).
 */
module Launcher {
  import opened Wrappers
  import opened KillSafety

  // ---------- adopting a descendant ----------

  /** JavaScript's `>=` on strings: by the first character that differs. */
  predicate AtLeast(a: string, b: string) {
    b == "" || (a != "" && (a[0] > b[0] || (a[0] == b[0] && AtLeast(a[1..], b[1..]))))
  }

  predicate IsCandidate(p: Process, record: Record) {
    && p.parentPid == record.pid
    && p.inRepository
    && (IsSet(record.startIdentity) && IsSet(p.creationDate)
        ==> AtLeast(p.creationDate.value, record.startIdentity.value))
  }

  /** `a` comes strictly before `b`: it ends first, or has the smaller character where they first differ. */
  predicate Before(a: string, b: string) {
    exists k :: 0 <= k < |b| && DiffersAt(a, b, k)
  }

  predicate DiffersAt(a: string, b: string, k: int)
    requires 0 <= k < |b|
  {
    k <= |a| && a[..k] == b[..k] && (k == |a| || a[k] < b[k])
  }

  /** The comparison is the lexicographic order. */
  lemma {:induction false} AtLeastIffNotBefore(a: string, b: string)
    ensures AtLeast(a, b) <==> !Before(a, b)
    decreases |b|
  {
    if b != [] && a != [] && a[0] == b[0] {
      AtLeastIffNotBefore(a[1..], b[1..]);
      assert forall k :: 0 < k <= |a| && k <= |b| ==> (a[..k] == b[..k] <==> a[1..][..k - 1] == b[1..][..k - 1]) by {
        forall k | 0 < k <= |a| && k <= |b| ensures a[..k] == b[..k] <==> a[1..][..k - 1] == b[1..][..k - 1] {
          assert a[..k] == [a[0]] + a[1..][..k - 1] && b[..k] == [b[0]] + b[1..][..k - 1];
        }
      }
      if Before(a[1..], b[1..]) {
        var k :| 0 <= k < |b[1..]| && DiffersAt(a[1..], b[1..], k);
        assert DiffersAt(a, b, k + 1);
      }
      if Before(a, b) {
        var k :| 0 <= k < |b| && DiffersAt(a, b, k);
        assert k > 0 && DiffersAt(a[1..], b[1..], k - 1);
      }
    } else if b != [] && (a == [] || a[0] < b[0]) {
      assert DiffersAt(a, b, 0);
    }
  }

  /** Whom a record may be succeeded by: its own child, of this repository, and not known to be older. */
  lemma CandidateIff(p: Process, record: Record)
    ensures IsCandidate(p, record) <==>
      && p.inRepository && p.parentPid == record.pid
      && !(IsSet(record.startIdentity) && IsSet(p.creationDate)
           && Before(p.creationDate.value, record.startIdentity.value))
  {
    if IsSet(record.startIdentity) && IsSet(p.creationDate) {
      AtLeastIffNotBefore(p.creationDate.value, record.startIdentity.value);
    }
  }

  function Candidates(snapshot: seq<Process>, record: Record): seq<Process> {
    if snapshot == [] then []
    else (if IsCandidate(snapshot[0], record) then [snapshot[0]] else []) + Candidates(snapshot[1..], record)
  }

  datatype Resolution =
    | Missing
    | Live(record: Record)
    | Gone
    | Ambiguous(candidates: seq<Process>)
    | Adopted(record: Record)

  function SelectDescendant(snapshot: seq<Process>, record: Option<Record>): Resolution {
    if !IsRecorded(record) then Gone
    else
      var candidates := Candidates(snapshot, record.value);
      if |candidates| == 0 then Gone
      else if |candidates| > 1 then Ambiguous(candidates)
      else Adopted(Record(candidates[0].pid, candidates[0].creationDate))
  }

  predicate IsCandidateAt(snapshot: seq<Process>, i: int, record: Record) {
    0 <= i < |snapshot| && IsCandidate(snapshot[i], record)
  }

  ghost predicate OnlyCandidate(snapshot: seq<Process>, i: int, record: Record) {
    IsCandidateAt(snapshot, i, record) && forall j :: IsCandidateAt(snapshot, j, record) ==> j == i
  }

  lemma {:induction false} SelectionIsUnique(snapshot: seq<Process>, record: Record)
    ensures var n := |Candidates(snapshot, record)|;
      && (n == 0 <==> forall i :: !IsCandidateAt(snapshot, i, record))
      && (n > 1 <==> exists i, j :: i < j && IsCandidateAt(snapshot, i, record) && IsCandidateAt(snapshot, j, record))
      && (n == 1 ==> exists i :: IsCandidateAt(snapshot, i, record) && snapshot[i] == Candidates(snapshot, record)[0])
    decreases |snapshot|
  {
    if snapshot != [] {
      var rest := snapshot[1..];
      SelectionIsUnique(rest, record);
      forall i ensures IsCandidateAt(rest, i, record) <==> 0 <= i && IsCandidateAt(snapshot, i + 1, record) {
      }
      assert IsCandidateAt(snapshot, 0, record) <==> IsCandidate(snapshot[0], record);
      forall i | IsCandidateAt(snapshot, i, record) ensures i == 0 || IsCandidateAt(rest, i - 1, record) {
      }
    }
  }

  /** A process is adopted exactly when it is the only candidate. */
  lemma AdoptedIffOnlyCandidate(snapshot: seq<Process>, record: Record)
    requires record.pid != 0
    ensures var selected := SelectDescendant(snapshot, Some(record));
      && (selected.Adopted? <==> exists i :: OnlyCandidate(snapshot, i, record))
      && (selected.Adopted? ==> exists i ::
           OnlyCandidate(snapshot, i, record)
           && selected.record == Record(snapshot[i].pid, snapshot[i].creationDate))
      && (selected.Gone? <==> forall i :: !IsCandidateAt(snapshot, i, record))
  {
    SelectionIsUnique(snapshot, record);
    var candidates := Candidates(snapshot, record);
    if |candidates| == 1 {
      var i :| IsCandidateAt(snapshot, i, record) && snapshot[i] == candidates[0];
      forall j | IsCandidateAt(snapshot, j, record) ensures j == i {
        assert !(i < j) && !(j < i);
      }
      assert OnlyCandidate(snapshot, i, record);
    }
  }

  // ---------- resolving one recorded process ----------

  /** The snapshot is taken once for both roles: `cached` says that it already was. */
  datatype Lookup = Lookup(resolution: Resolution, cached: bool)

  function ResolveRecord(record: Option<Record>, cached: bool, host: Host, log: seq<Event>): Ran<Lookup> {
    if !IsRecorded(record) then Ran(log, Lookup(Missing, cached))
    else
      var identity := Identity(record.value.pid, host, |log|);
      var seen := log + [Read(record.value.pid, identity)];
      if identity.Some? && identity == record.value.startIdentity then Ran(seen, Lookup(Live(record.value), cached))
      else if !host.windows then Ran(seen, Lookup(Gone, cached))
      else
        var looked := if cached then seen else seen + [Snapshot];
        var selected := SelectDescendant(host.snapshot, record);
        if !selected.Adopted? then Ran(looked, Lookup(selected, true))
        else
          var pid := selected.record.pid;
          var confirmed := Identity(pid, host, |looked|);
          Ran(looked + [Read(pid, confirmed)],
              Lookup(if confirmed.None? then Gone else Adopted(Record(pid, confirmed)), true))
  }

  /** What is known before any decision. */
  datatype Findings = Findings(launcherAlive: bool, web: Resolution, worker: Resolution)

  function Look(saved: Runtime, host: Host, log: seq<Event>): Ran<Findings> {
    var launcher := Identity(saved.launcherPid, host, |log|);
    var web := ResolveRecord(saved.web, false, host, log + [Read(saved.launcherPid, launcher)]);
    var worker := ResolveRecord(saved.worker, web.result.cached, host, web.log);
    var alive := launcher.Some? && launcher == saved.launcherStartIdentity;
    Ran(worker.log, Findings(alive, web.result.resolution, worker.result.resolution))
  }

  datatype Outcome =
    | Absent
    | Unchanged(runtime: Runtime)
    | Refused(runtime: Runtime)
    | Updated(runtime: Runtime)
    | Failed

  function Upgraded(record: Option<Record>, resolution: Resolution): Option<Record> {
    if resolution.Adopted? then Some(resolution.record) else record
  }

  function Upgrade(saved: Runtime, findings: Findings): Runtime {
    saved.(web := Upgraded(saved.web, findings.web), worker := Upgraded(saved.worker, findings.worker))
  }

  /** The launcher is gone: terminate what it left, then discard its metadata. */
  function Discard(runtime: Runtime, host: Host, log: seq<Event>): Ran<Outcome> {
    var worker := TerminateRecorded(runtime.worker, host, log);
    if worker.result.Threw? then Ran(worker.log, Failed)
    else
      var web := TerminateRecorded(runtime.web, host, worker.log);
      if web.result.Threw? then Ran(web.log, Failed)
      else Ran(web.log + [RemoveRuntime], Absent)
  }

  function Reconcile(saved: Runtime, findings: Findings, host: Host, log: seq<Event>): Ran<Outcome> {
    if findings.web.Ambiguous? || findings.worker.Ambiguous? then Ran(log, Refused(saved))
    else if !findings.launcherAlive then Discard(Upgrade(saved, findings), host, log)
    else if !findings.web.Adopted? && !findings.worker.Adopted? then Ran(log, Unchanged(saved))
    else Ran(log + [WriteRuntime(Upgrade(saved, findings))], Updated(Upgrade(saved, findings)))
  }

  // ---------- the imperative side ----------

  method Resolve(record: Option<Record>, cached: bool, m: Machine) returns (lookup: Lookup)
    modifies m`log
    ensures Ran(m.log, lookup) == ResolveRecord(record, cached, m.host, old(m.log))
  {
    if !IsRecorded(record) {
      return Lookup(Missing, cached);
    }
    var identity := m.ProcessIdentity(record.value.pid);
    if identity.Some? && identity == record.value.startIdentity {
      return Lookup(Live(record.value), cached);
    }
    if !m.host.windows {
      return Lookup(Gone, cached);
    }
    if !cached {
      m.log := m.log + [Snapshot];
    }
    var selected := SelectDescendant(m.host.snapshot, record);
    if !selected.Adopted? {
      return Lookup(selected, true);
    }
    var confirmed := m.ProcessIdentity(selected.record.pid);
    if confirmed.None? {
      return Lookup(Gone, true);
    }
    return Lookup(Adopted(Record(selected.record.pid, confirmed)), true);
  }

  method RemoveStaleRuntime(saved: Option<Runtime>, m: Machine) returns (outcome: Outcome)
    modifies m`log
    ensures saved.None? ==> outcome == Absent && m.log == old(m.log)
    ensures saved.Some? ==>
      var look := Look(saved.value, m.host, old(m.log));
      Ran(m.log, outcome) == Reconcile(saved.value, look.result, m.host, look.log)
  {
    if saved.None? {
      return Absent;
    }
    var runtime := saved.value;
    var launcher := m.ProcessIdentity(runtime.launcherPid);
    var launcherAlive := launcher.Some? && launcher == runtime.launcherStartIdentity;
    var web := Resolve(runtime.web, false, m);
    var worker := Resolve(runtime.worker, web.cached, m);
    if web.resolution.Ambiguous? || worker.resolution.Ambiguous? {
      return Refused(runtime);
    }
    var resolvedWeb := Upgraded(runtime.web, web.resolution);
    var resolvedWorker := Upgraded(runtime.worker, worker.resolution);
    if launcherAlive {
      if !web.resolution.Adopted? && !worker.resolution.Adopted? {
        return Unchanged(runtime);
      }
      var updated := runtime.(web := resolvedWeb, worker := resolvedWorker);
      m.log := m.log + [WriteRuntime(updated)];
      return Updated(updated);
    }
    var terminated := m.TerminateRecordedProcess(resolvedWorker);
    if terminated.Threw? {
      return Failed;
    }
    terminated := m.TerminateRecordedProcess(resolvedWeb);
    if terminated.Threw? {
      return Failed;
    }
    m.log := m.log + [RemoveRuntime];
    return Absent;
  }

  // ---------- what a reconciliation may do ----------

  /** `pid` is the one process in the snapshot that qualifies as the descendant of the record. */
  ghost predicate Descendant(record: Record, pid: int, host: Host) {
    exists i :: OnlyCandidate(host.snapshot, i, record) && host.snapshot[i].pid == pid
  }

  ghost predicate Logged(e: Event, log: seq<Event>, from: nat) {
    exists i :: from <= i < |log| && log[i] == e
  }

  /**
   What makes this the process of the role: the saved record names it; or the look, which started at `from` and left
   the log `looked`, adopted it as the one descendant of that record and read the identity it was adopted with.
   */
  ghost predicate Vouched(
      role: Option<Record>, resolution: Resolution, record: Record, host: Host, looked: seq<Event>, from: nat)
  {
    if resolution.Adopted? then
      && record == resolution.record && record.startIdentity.Some?
      && role.Some? && Descendant(role.value, record.pid, host)
      && Logged(Read(record.pid, record.startIdentity), looked, from)
    else
      role == Some(record)
  }

  predicate Harmless(e: Event) {
    e.Read? || e.Snapshot?
  }

  lemma ResolutionIsVouched(record: Option<Record>, cached: bool, host: Host, log: seq<Event>)
    ensures var ran := ResolveRecord(record, cached, host, log);
      && log <= ran.log && (forall i :: |log| <= i < |ran.log| ==> Harmless(ran.log[i]))
      && (ran.result.resolution.Adopted? ==>
           Vouched(record, ran.result.resolution, ran.result.resolution.record, host, ran.log, |log|))
  {
    var ran := ResolveRecord(record, cached, host, log);
    if ran.result.resolution.Adopted? {
      AdoptedIffOnlyCandidate(host.snapshot, record.value);
      var adopted := ran.result.resolution.record;
      assert ran.log[|ran.log| - 1] == Read(adopted.pid, adopted.startIdentity);
    }
  }

  predicate NamesLive(record: Record, identity: Option<string>) {
    identity.Some? && identity == record.startIdentity
  }

  /**
   Exactly when a process is adopted, and under which identity. The confirming read is not compared with the
   snapshot: whatever the pid is read to be by then, even a later process under a reused pid, is what is adopted.
   */
  lemma AdoptionIff(record: Record, pid: int, identity: string, cached: bool, host: Host, log: seq<Event>)
    ensures ResolveRecord(Some(record), cached, host, log).result.resolution == Adopted(Record(pid, Some(identity)))
      <==>
      && record.pid != 0 && host.windows
      && !NamesLive(record, Identity(record.pid, host, |log|))
      && Descendant(record, pid, host)
      && Identity(pid, host, |log| + if cached then 1 else 2) == Some(identity)
  {
    if record.pid != 0 {
      AdoptedIffOnlyCandidate(host.snapshot, record);
    }
  }

  /** Every other way in which a resolution can end, from the readings and the snapshot alone. */
  lemma ResolutionIff(record: Option<Record>, cached: bool, host: Host, log: seq<Event>)
    ensures var resolution := ResolveRecord(record, cached, host, log).result.resolution;
      && (resolution.Missing? <==> record.None? || record.value.pid == 0)
      && (resolution.Live? <==>
           IsRecorded(record) && NamesLive(record.value, Identity(record.value.pid, host, |log|)))
      && (resolution.Live? ==> resolution.record == record.value)
      && (resolution.Ambiguous? <==>
           && IsRecorded(record) && !NamesLive(record.value, Identity(record.value.pid, host, |log|)) && host.windows
           && exists i, j :: i < j
                && IsCandidateAt(host.snapshot, i, record.value) && IsCandidateAt(host.snapshot, j, record.value))
  {
    if IsRecorded(record) {
      SelectionIsUnique(host.snapshot, record.value);
    }
  }

  /** What a look establishes about the two roles. */
  ghost predicate Established(saved: Runtime, findings: Findings, host: Host, looked: seq<Event>, from: nat) {
    && (findings.web.Adopted? ==> Vouched(saved.web, findings.web, findings.web.record, host, looked, from))
    && (findings.worker.Adopted? ==> Vouched(saved.worker, findings.worker, findings.worker.record, host, looked, from))
  }

  lemma LookIsHarmless(saved: Runtime, host: Host, log: seq<Event>)
    ensures var look := Look(saved, host, log);
      && log <= look.log && (forall i :: |log| <= i < |look.log| ==> Harmless(look.log[i]))
      && Established(saved, look.result, host, look.log, |log|)
  {
    var launched := log + [Read(saved.launcherPid, Identity(saved.launcherPid, host, |log|))];
    ResolutionIsVouched(saved.web, false, host, launched);
    var web := ResolveRecord(saved.web, false, host, launched);
    ResolutionIsVouched(saved.worker, web.result.cached, host, web.log);
    var worker := ResolveRecord(saved.worker, web.result.cached, host, web.log);
    if web.result.resolution.Adopted? {
      var e := Read(web.result.resolution.record.pid, web.result.resolution.record.startIdentity);
      var i :| |launched| <= i < |web.log| && web.log[i] == e;
      assert worker.log[i] == e;
    }
  }

  /** The signal at `i` directly follows a reading of its pid with exactly the identity that is vouched for the role. */
  ghost predicate VouchedKill(
      role: Option<Record>, resolution: Resolution, log: seq<Event>, i: int, host: Host, looked: seq<Event>, from: nat)
    requires 0 <= i < |log|
  {
    && log[i].Kill? && i > 0 && log[i - 1].Read? && log[i - 1].pid == log[i].pid && log[i - 1].identity.Some?
    && Vouched(role, resolution, Record(log[i].pid, log[i - 1].identity), host, looked, from)
  }

  /** Every signal after the look is vouched for by one of the two roles, by what the look alone has found. */
  ghost predicate VouchedKills(
      saved: Runtime, findings: Findings, log: seq<Event>, host: Host, looked: seq<Event>, from: nat)
  {
    forall i :: |looked| <= i < |log| && log[i].Kill? ==>
      || VouchedKill(saved.web, findings.web, log, i, host, looked, from)
      || VouchedKill(saved.worker, findings.worker, log, i, host, looked, from)
  }

  lemma TerminationIsVouched(
      role: Option<Record>, resolution: Resolution, host: Host, log: seq<Event>, looked: seq<Event>, from: nat)
    requires resolution.Adopted? ==> Vouched(role, resolution, resolution.record, host, looked, from)
    ensures var ran := TerminateRecorded(Upgraded(role, resolution), host, log);
      && log <= ran.log
      && (forall i :: |log| <= i < |ran.log| && ran.log[i].Kill? ==>
           VouchedKill(role, resolution, ran.log, i, host, looked, from))
      && ReadsAndSignals(ran.log, |log|)
  {
    var record := Upgraded(role, resolution);
    TerminationReadsAndSignals(record, host, log);
    if IsRecorded(record) && IsSet(record.value.startIdentity) {
      RecordedTerminationIsSafe(record.value, record.value.startIdentity.value, host, log);
    }
  }

  lemma DiscardIsVouched(saved: Runtime, findings: Findings, host: Host, looked: seq<Event>, from: nat)
    requires Established(saved, findings, host, looked, from)
    ensures var ran := Discard(Upgrade(saved, findings), host, looked);
      && looked <= ran.log && VouchedKills(saved, findings, ran.log, host, looked, from)
      && (ran.result == Absent || ran.result == Failed)
      && (forall i :: |looked| <= i < |ran.log| ==>
           ran.log[i].Read? || ran.log[i].Kill? || (ran.result.Absent? && i == |ran.log| - 1 && ran.log[i] == RemoveRuntime))
      && (ran.result.Absent? ==> Logged(RemoveRuntime, ran.log, |looked|))
  {
    var runtime := Upgrade(saved, findings);
    var ran := Discard(runtime, host, looked);
    TerminationIsVouched(saved.worker, findings.worker, host, looked, looked, from);
    var worker := TerminateRecorded(runtime.worker, host, looked);
    TerminationIsVouched(saved.web, findings.web, host, worker.log, looked, from);
    if ran.result.Absent? {
      assert ran.log[|ran.log| - 1] == RemoveRuntime;
    }
  }

  /** The launcher still runs: the first reading finds its pid under exactly the saved identity. */
  predicate LauncherRuns(saved: Runtime, host: Host, log: seq<Event>) {
    var reading := Identity(saved.launcherPid, host, |log|);
    reading.Some? && saved.launcherStartIdentity == reading
  }

  /** What the two terminations of a dead launcher's processes leave, the worker's first. */
  function BothTerminated(runtime: Runtime, host: Host, log: seq<Event>): Ran<bool> {
    var worker := TerminateRecorded(runtime.worker, host, log);
    if worker.result.Threw? then Ran(worker.log, false)
    else
      var web := TerminateRecorded(runtime.web, host, worker.log);
      Ran(web.log, !web.result.Threw?)
  }

  /**
   A reconciliation signals only a process that a saved record names, or that its look has adopted as the one
   descendant of such a record, and only right after reading the very identity that was recorded or confirmed then.
   It changes nothing when a role is ambiguous. While the first reading finds the launcher, it sends no signal and
   keeps the metadata, and writes them exactly when it has adopted a process; otherwise it terminates the worker's
   process and then the web server's, and removes the metadata exactly when neither termination throws.
   */
  lemma ReconciliationIsSafe(saved: Runtime, host: Host, log: seq<Event>)
    ensures var look := Look(saved, host, log);
      var ran := Reconcile(saved, look.result, host, look.log);
      var upgraded := Upgrade(saved, look.result);
      var ambiguous := look.result.web.Ambiguous? || look.result.worker.Ambiguous?;
      var adopted := look.result.web.Adopted? || look.result.worker.Adopted?;
      && log <= look.log <= ran.log && VouchedKills(saved, look.result, ran.log, host, look.log, |log|)
      && (forall i :: |log| <= i < |look.log| ==> Harmless(ran.log[i]))
      && (ambiguous ==> ran.log == look.log && ran.result == Refused(saved))
      && (!ambiguous && LauncherRuns(saved, host, log) ==>
           ran == if adopted then Ran(look.log + [WriteRuntime(upgraded)], Updated(upgraded)) else Ran(look.log, Unchanged(saved)))
      && (!ambiguous && !LauncherRuns(saved, host, log) ==>
           var both := BothTerminated(upgraded, host, look.log);
           ran == if both.result then Ran(both.log + [RemoveRuntime], Absent) else Ran(both.log, Failed))
      && (Logged(RemoveRuntime, ran.log, |log|) <==> ran.result.Absent?)
      && (host.windows && !ambiguous && !LauncherRuns(saved, host, log) ==> ran.result.Absent?)
  {
    LookIsHarmless(saved, host, log);
    var look := Look(saved, host, log);
    var ran := Reconcile(saved, look.result, host, look.log);
    assert look.result.launcherAlive <==> LauncherRuns(saved, host, log);
    if !look.result.web.Ambiguous? && !look.result.worker.Ambiguous? && !look.result.launcherAlive {
      DiscardIsVouched(saved, look.result, host, look.log, |log|);
    }
    assert forall i :: |log| <= i < |look.log| ==> ran.log[i] == look.log[i];
  }

  /** While the launcher runs nothing is signalled or removed, whatever became of the other two processes. */
  lemma LiveLauncherIsLeftAlone(saved: Runtime, host: Host, log: seq<Event>)
    requires LauncherRuns(saved, host, log)
    ensures var look := Look(saved, host, log);
      var ran := Reconcile(saved, look.result, host, look.log);
      forall i :: |log| <= i < |ran.log| ==> !ran.log[i].Kill? && !ran.log[i].RemoveRuntime?
  {
    ReconciliationIsSafe(saved, host, log);
  }
}
