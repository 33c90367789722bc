/**
 Termination of recorded processes (apps/worker/src/owned-process.ts and scripts/start-local.mjs). The host is an
 adversary: it decides, for every moment, what a reading of a process identity returns.
 */
module KillSafety {
  import opened Wrappers

  datatype Event =
    | Read(pid: int, identity: Option<string>)
    | Kill(pid: int, force: bool)
    | Snapshot
    | WriteRuntime(runtime: Runtime)
    | RemoveRuntime

  /** `inRepository` is what `withinRepository` makes of the command line and the executable path. */
  datatype Process = Process(pid: int, parentPid: int, inRepository: bool, creationDate: Option<string>)

  /** The number of events so far is the moment that selects an answer. */
  datatype Host = Host(
    windows: bool,
    answers: nat -> Option<string>,
    signalFails: nat -> bool,
    snapshot: seq<Process>)

  datatype Record = Record(pid: int, startIdentity: Option<string>)

  datatype Runtime = Runtime(
    launcherPid: int,
    launcherStartIdentity: Option<string>,
    web: Option<Record>,
    worker: Option<Record>)

  datatype Termination = NotRecorded | AlreadyExited | IdentityMismatch | Terminated | Unconfirmed | Threw

  /** The log after a call, and what the call returns. */
  datatype Ran<T> = Ran(log: seq<Event>, result: T)

  // ---------- terminating one process ----------

  /** What reading the identity of `pid` returns at moment `now`; an empty answer is none. */
  function Identity(pid: int, host: Host, now: nat): (identity: Option<string>)
    ensures identity != Some("")
  {
    if pid <= 0 || host.answers(now) == Some("") then None else host.answers(now)
  }

  /** Readings until the first absence, at most `tries`; the result says whether there was one. */
  function Polls(pid: int, host: Host, log: seq<Event>, tries: nat): Ran<bool>
    decreases tries, log
  {
    if tries == 0 then Ran(log, false)
    else
      var identity := Identity(pid, host, |log|);
      if identity.None? then Ran(log + [Read(pid, None)], true)
      else Polls(pid, host, log + [Read(pid, identity)], tries - 1)
  }

  const OWNED_POLLS: nat := 20
  const GRACEFUL_POLLS: nat := 30
  const FORCED_POLLS: nat := 20

  function TerminateOwned(pid: int, expected: string, host: Host, log: seq<Event>): Ran<Termination> {
    var current := Identity(pid, host, |log|);
    var seen := log + [Read(pid, current)];
    if current.None? then Ran(seen, AlreadyExited)
    else if current.value != expected then Ran(seen, IdentityMismatch)
    else
      var polls := Polls(pid, host, seen + [Kill(pid, true)], OWNED_POLLS);
      Ran(polls.log, if polls.result then Terminated else Threw)
  }

  /** JavaScript truth of an optional string. */
  predicate IsSet(s: Option<string>) {
    s.Some? && s.value != ""
  }

  predicate IsRecorded(record: Option<Record>) {
    record.Some? && record.value.pid != 0
  }

  /** `process.kill` throws where the failure of `taskkill` is ignored. */
  predicate SignalThrows(host: Host, now: nat) {
    !host.windows && host.signalFails(now)
  }

  function Forced(pid: int, host: Host, log: seq<Event>): Ran<Termination> {
    var signalled := log + [Kill(pid, true)];
    if SignalThrows(host, |log|) then Ran(signalled, Threw)
    else
      var polls := Polls(pid, host, signalled, FORCED_POLLS);
      Ran(polls.log, if polls.result then Terminated else Unconfirmed)
  }

  /** From the graceful signal on. */
  function Signalled(pid: int, expected: string, host: Host, log: seq<Event>): Ran<Termination> {
    var polls := Polls(pid, host, log + [Kill(pid, false)], GRACEFUL_POLLS);
    var survivor := Identity(pid, host, |polls.log|);
    var seen := polls.log + [Read(pid, survivor)];
    if SignalThrows(host, |log|) then Ran(log + [Kill(pid, false)], Threw)
    else if polls.result then Ran(polls.log, Terminated)
    else if survivor.None? then Ran(seen, AlreadyExited)
    else if survivor.value != expected then Ran(seen, IdentityMismatch)
    else Forced(pid, host, seen)
  }

  function TerminateRecorded(record: Option<Record>, host: Host, log: seq<Event>): Ran<Termination> {
    if !IsRecorded(record) || !IsSet(record.value.startIdentity) then Ran(log, NotRecorded)
    else
      var pid, expected := record.value.pid, record.value.startIdentity.value;
      var current := Identity(pid, host, |log|);
      var seen := log + [Read(pid, current)];
      if current.None? then Ran(seen, AlreadyExited)
      else if current.value != expected then Ran(seen, IdentityMismatch)
      else Signalled(pid, expected, host, seen)
  }

  // ---------- the imperative side ----------

  class Machine {
    const host: Host
    var log: seq<Event>

    constructor (host: Host)
      ensures this.host == host && log == []
    {
      this.host := host;
      log := [];
    }

    method ProcessIdentity(pid: int) returns (identity: Option<string>)
      modifies this`log
      ensures identity == Identity(pid, host, |old(log)|)
      ensures log == old(log) + [Read(pid, identity)]
    {
      identity := None;
      if pid > 0 && host.answers(|log|) != Some("") {
        identity := host.answers(|log|);
      }
      log := log + [Read(pid, identity)];
    }

    method Signal(pid: int, force: bool) returns (threw: bool)
      modifies this`log
      ensures threw == SignalThrows(host, |old(log)|)
      ensures log == old(log) + [Kill(pid, force)]
    {
      threw := !host.windows && host.signalFails(|log|);
      log := log + [Kill(pid, force)];
    }

    method WaitForExit(pid: int, tries: nat) returns (exited: bool)
      modifies this`log
      ensures Ran(log, exited) == Polls(pid, host, old(log), tries)
    {
      var attempt := 0;
      while attempt < tries
        invariant 0 <= attempt <= tries
        invariant Polls(pid, host, log, tries - attempt) == Polls(pid, host, old(log), tries)
      {
        var identity := ProcessIdentity(pid);
        if identity.None? {
          return true;
        }
        attempt := attempt + 1;
      }
      return false;
    }

    method TerminateOwnedProcessTree(pid: int, expected: string) returns (result: Termination)
      modifies this`log
      ensures Ran(log, result) == TerminateOwned(pid, expected, host, old(log))
    {
      var current := ProcessIdentity(pid);
      if current.None? {
        return AlreadyExited;
      }
      if current.value != expected {
        return IdentityMismatch;
      }
      log := log + [Kill(pid, true)];
      var exited := WaitForExit(pid, OWNED_POLLS);
      return if exited then Terminated else Threw;
    }

    method TerminateRecordedProcess(record: Option<Record>) returns (result: Termination)
      modifies this`log
      ensures Ran(log, result) == TerminateRecorded(record, host, old(log))
    {
      if !IsRecorded(record) || !IsSet(record.value.startIdentity) {
        return NotRecorded;
      }
      var pid := record.value.pid;
      var current := ProcessIdentity(pid);
      if current.None? {
        return AlreadyExited;
      }
      if current != record.value.startIdentity {
        return IdentityMismatch;
      }
      var threw := Signal(pid, false);
      if threw {
        return Threw;
      }
      var exited := WaitForExit(pid, GRACEFUL_POLLS);
      if exited {
        return Terminated;
      }
      var survivor := ProcessIdentity(pid);
      if survivor != record.value.startIdentity {
        return if survivor.Some? then IdentityMismatch else AlreadyExited;
      }
      threw := Signal(pid, true);
      if threw {
        return Threw;
      }
      exited := WaitForExit(pid, FORCED_POLLS);
      return if exited then Terminated else Unconfirmed;
    }
  }

  // ---------- what a termination may do ----------

  /** Every signal from `from` on goes to `pid`, right after `pid` was read to have exactly this identity. */
  ghost predicate CheckedKills(log: seq<Event>, from: nat, pid: int, identity: string) {
    forall i :: from <= i < |log| && log[i].Kill? ==>
      i > 0 && log[i].pid == pid && log[i - 1] == Read(pid, Some(identity))
  }

  ghost predicate Sends(log: seq<Event>, from: nat, pid: int, force: bool) {
    exists i :: from <= i < |log| && log[i] == Kill(pid, force)
  }

  ghost predicate EndsAbsent(log: seq<Event>, pid: int) {
    log != [] && log[|log| - 1] == Read(pid, None)
  }

  ghost predicate OnlyReads(log: seq<Event>, from: nat, pid: int) {
    forall i :: from <= i < |log| ==> log[i].Read? && log[i].pid == pid
  }

  ghost predicate AlwaysPresent(pid: int, host: Host, from: nat, until: nat) {
    forall m :: from <= m < until ==> Identity(pid, host, m).Some?
  }

  lemma {:induction false} PollsOnlyRead(pid: int, host: Host, log: seq<Event>, tries: nat)
    ensures var polls := Polls(pid, host, log, tries);
      && log <= polls.log && OnlyReads(polls.log, |log|, pid)
      && (polls.result ==> EndsAbsent(polls.log, pid) && |polls.log| > |log|)
      && (polls.result <==> !AlwaysPresent(pid, host, |log|, |log| + tries))
      && (!polls.result ==> |polls.log| == |log| + tries)
    decreases tries
  {
    if tries > 0 {
      var identity := Identity(pid, host, |log|);
      if identity.Some? {
        PollsOnlyRead(pid, host, log + [Read(pid, identity)], tries - 1);
      }
    }
  }

  /** The worker kills only on an exact match, once, and reports an exit only after reading an absence. */
  lemma OwnedTerminationIsSafe(pid: int, expected: string, host: Host, log: seq<Event>)
    ensures var ran := TerminateOwned(pid, expected, host, log);
      && log <= ran.log && CheckedKills(ran.log, |log|, pid, expected)
      && (ran.result.Terminated? || ran.result.AlreadyExited? ==> EndsAbsent(ran.log, pid))
      && (Sends(ran.log, |log|, pid, true) <==> Identity(pid, host, |log|) == Some(expected))
      && (ran.result.Threw? <==>
           && Identity(pid, host, |log|) == Some(expected)
           && AlwaysPresent(pid, host, |log| + 2, |log| + 22))
  {
    var ran := TerminateOwned(pid, expected, host, log);
    if Identity(pid, host, |log|) == Some(expected) {
      PollsOnlyRead(pid, host, log + [Read(pid, Some(expected))] + [Kill(pid, true)], OWNED_POLLS);
      assert ran.log[|log| + 1] == Kill(pid, true);
    }
  }

  lemma ForcedIsSafe(pid: int, host: Host, log: seq<Event>)
    ensures var ran := Forced(pid, host, log);
      && log + [Kill(pid, true)] <= ran.log && OnlyReads(ran.log, |log| + 1, pid)
      && (ran.result.Terminated? ==> EndsAbsent(ran.log, pid))
      && !ran.result.AlreadyExited?
      && (ran.result.Unconfirmed? <==> !SignalThrows(host, |log|) && AlwaysPresent(pid, host, |log| + 1, |log| + 21))
  {
    PollsOnlyRead(pid, host, log + [Kill(pid, true)], FORCED_POLLS);
  }

  /** When the forced signal is sent: the process outlived the graceful window and still is the recorded one. */
  ghost predicate Escalates(pid: int, expected: string, host: Host, now: nat) {
    && !SignalThrows(host, now)
    && AlwaysPresent(pid, host, now + 1, now + 31)
    && Identity(pid, host, now + 31) == Some(expected)
  }

  lemma SignalledIsSafe(pid: int, expected: string, host: Host, log: seq<Event>)
    requires log != [] && log[|log| - 1] == Read(pid, Some(expected))
    ensures var ran := Signalled(pid, expected, host, log);
      && log + [Kill(pid, false)] <= ran.log && CheckedKills(ran.log, |log|, pid, expected)
      && (ran.result.Terminated? || ran.result.AlreadyExited? ==> EndsAbsent(ran.log, pid))
  {
    var polls := Polls(pid, host, log + [Kill(pid, false)], GRACEFUL_POLLS);
    PollsOnlyRead(pid, host, log + [Kill(pid, false)], GRACEFUL_POLLS);
    ForcedIsSafe(pid, host, polls.log + [Read(pid, Some(expected))]);
  }

  /** The forced signal comes after the graceful one, its thirty readings and one more. */
  const FORCED_AFTER: nat := 32

  lemma SignalledForcesIff(pid: int, expected: string, host: Host, log: seq<Event>)
    ensures Sends(Signalled(pid, expected, host, log).log, |log|, pid, true) <==> Escalates(pid, expected, host, |log|)
    ensures Signalled(pid, expected, host, log).result.Threw? <==>
      || SignalThrows(host, |log|)
      || (Escalates(pid, expected, host, |log|) && SignalThrows(host, |log| + FORCED_AFTER))
    ensures Signalled(pid, expected, host, log).result.Unconfirmed? <==>
      && Escalates(pid, expected, host, |log|) && !SignalThrows(host, |log| + FORCED_AFTER)
      && AlwaysPresent(pid, host, |log| + 1 + FORCED_AFTER, |log| + 21 + FORCED_AFTER)
  {
    var polls := Polls(pid, host, log + [Kill(pid, false)], GRACEFUL_POLLS);
    PollsOnlyRead(pid, host, log + [Kill(pid, false)], GRACEFUL_POLLS);
    var ran := Signalled(pid, expected, host, log);
    if Escalates(pid, expected, host, |log|) {
      ForcedIsSafe(pid, host, polls.log + [Read(pid, Some(expected))]);
      assert ran.log[|polls.log| + 1] == Kill(pid, true);
    }
  }

  /**
   The launcher signals only right after reading the recorded identity, and forces only a process that
   outlived the whole graceful window and still has that identity. It throws exactly when one of
   its signals does, and leaves the exit unconfirmed exactly when twenty more readings all find a process.
   */
  lemma RecordedTerminationIsSafe(record: Record, expected: string, host: Host, log: seq<Event>)
    requires record.pid != 0 && record.startIdentity == Some(expected) && expected != ""
    ensures var ran := TerminateRecorded(Some(record), host, log);
      && log <= ran.log && CheckedKills(ran.log, |log|, record.pid, expected)
      && (ran.result.Terminated? || ran.result.AlreadyExited? ==> EndsAbsent(ran.log, record.pid))
      && (Sends(ran.log, |log|, record.pid, false) <==> Identity(record.pid, host, |log|) == Some(expected))
      && (Sends(ran.log, |log|, record.pid, true) <==>
           Identity(record.pid, host, |log|) == Some(expected) && Escalates(record.pid, expected, host, |log| + 1))
      && (ran.result.Threw? <==>
           && Identity(record.pid, host, |log|) == Some(expected)
           && (|| SignalThrows(host, |log| + 1)
               || (Escalates(record.pid, expected, host, |log| + 1) && SignalThrows(host, |log| + 1 + FORCED_AFTER))))
      && (ran.result.Unconfirmed? <==>
           && Identity(record.pid, host, |log|) == Some(expected) && Escalates(record.pid, expected, host, |log| + 1)
           && !SignalThrows(host, |log| + 1 + FORCED_AFTER)
           && AlwaysPresent(record.pid, host, |log| + 2 + FORCED_AFTER, |log| + 22 + FORCED_AFTER))
  {
    var ran := TerminateRecorded(Some(record), host, log);
    if Identity(record.pid, host, |log|) == Some(expected) {
      var seen := log + [Read(record.pid, Some(expected))];
      SignalledIsSafe(record.pid, expected, host, seen);
      SignalledForcesIff(record.pid, expected, host, seen);
      assert ran.log[|log| + 1] == Kill(record.pid, false);
    }
  }

  ghost predicate ReadsAndSignals(log: seq<Event>, from: nat) {
    forall i :: from <= i < |log| ==> log[i].Read? || log[i].Kill?
  }

  lemma SignalledReadsAndSignals(pid: int, expected: string, host: Host, log: seq<Event>)
    ensures var ran := Signalled(pid, expected, host, log); log <= ran.log && ReadsAndSignals(ran.log, |log|)
  {
    var polls := Polls(pid, host, log + [Kill(pid, false)], GRACEFUL_POLLS);
    PollsOnlyRead(pid, host, log + [Kill(pid, false)], GRACEFUL_POLLS);
    ForcedIsSafe(pid, host, polls.log + [Read(pid, Some(expected))]);
  }

  /** A termination touches nothing but processes. */
  lemma TerminationReadsAndSignals(record: Option<Record>, host: Host, log: seq<Event>)
    ensures var ran := TerminateRecorded(record, host, log); log <= ran.log && ReadsAndSignals(ran.log, |log|)
  {
    if IsRecorded(record) && IsSet(record.value.startIdentity) {
      var pid, expected := record.value.pid, record.value.startIdentity.value;
      SignalledReadsAndSignals(pid, expected, host, log + [Read(pid, Some(expected))]);
    }
  }
}
