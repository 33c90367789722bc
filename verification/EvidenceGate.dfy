/**
 Evidence, acceptance criteria and verification: `captureEvidence` (apps/worker/src/index.ts), `canVerify` and
 `criterionAcceptsEvidence` (packages/shared/src/index.ts) and the verify route.
 */
module EvidenceGate {
  import opened Wrappers
  import opened Sequences

  type TaskId = nat
  type CriterionId = nat

  datatype Criterion = Criterion(task: TaskId, evidenceKinds: seq<string>, commandIds: seq<string>, passed: bool)

  datatype Evidence = Evidence(
    task: TaskId,
    criterion: CriterionId,
    kind: string,
    commandId: Option<string>,
    successful: bool)

  datatype Status = Open | CodeComplete | TestFailed | ReadyForReview | Verified

  /** Criteria are numbered by position and never added to or removed; evidence is only ever added. */
  datatype Store = Store(criteria: seq<Criterion>, evidence: seq<Evidence>, status: map<TaskId, Status>)

  /** `criterionAcceptsEvidence`: what may prove a criterion. */
  predicate Accepts(criterion: Criterion, kind: string, commandId: Option<string>) {
    && kind in criterion.evidenceKinds
    && (|| criterion.commandIds == []
        || (commandId.Some? && commandId.value != "" && commandId.value in criterion.commandIds))
  }

  /** The worker's own `evidenceLinks`: what a capture links to a criterion. */
  predicate EvidenceLinks(criterion: Criterion, kind: string, commandId: Option<string>) {
    && kind in criterion.evidenceKinds
    && (criterion.commandIds != [] ==>
         commandId.Some? && commandId.value != "" && commandId.value in criterion.commandIds)
  }

  predicate Supports(e: Evidence, c: CriterionId) {
    e.criterion == c && e.successful
  }

  predicate HasSuccess(evidence: seq<Evidence>, c: CriterionId) {
    exists i :: 0 <= i < |evidence| && Supports(evidence[i], c)
  }

  predicate BelongsTo(criteria: seq<Criterion>, c: CriterionId, task: TaskId) {
    c < |criteria| && criteria[c].task == task
  }

  /** `canVerify` on the criteria of a task. */
  predicate CanVerify(criteria: seq<Criterion>, evidence: seq<Evidence>, task: TaskId) {
    && (exists c :: 0 <= c < |criteria| && BelongsTo(criteria, c, task))
    && forall c :: 0 <= c < |criteria| && BelongsTo(criteria, c, task) ==> HasSuccess(evidence, c)
  }

  // ---------- atomic steps ----------

  /**
   One write of a capture or of a verify request. What the request had read before it is a prefix of the evidence:
   `seen` rows.
   */
  datatype Step =
    | RecordEvidence(e: Evidence)
    | MarkPassed(task: TaskId, seen: nat)
    | Judge(task: TaskId, failed: bool, seen: nat)
    | Verify(task: TaskId, seen: nat)

  function Seen(store: Store, seen: nat): seq<Evidence> {
    if seen <= |store.evidence| then store.evidence[..seen] else store.evidence
  }

  /** `updateMany` on the criteria of the task that have successful evidence, or on all of them. */
  function Mark(criteria: seq<Criterion>, evidence: seq<Evidence>, task: TaskId, all: bool): seq<Criterion> {
    seq(|criteria|, c requires 0 <= c < |criteria| =>
      if criteria[c].task == task && (all || HasSuccess(evidence, c)) then criteria[c].(passed := true) else criteria[c])
  }

  function Judged(failed: bool, supported: bool): Status {
    if failed then TestFailed else if supported then ReadyForReview else CodeComplete
  }

  function Apply(store: Store, step: Step): Store {
    match step
    case RecordEvidence(e) =>
      if e.criterion < |store.criteria| && EvidenceLinks(store.criteria[e.criterion], e.kind, e.commandId)
      then store.(evidence := store.evidence + [e]) else store
    case MarkPassed(task, seen) => store.(criteria := Mark(store.criteria, Seen(store, seen), task, false))
    case Judge(task, failed, seen) =>
      store.(status := store.status[task := Judged(failed, CanVerify(store.criteria, Seen(store, seen), task))])
    case Verify(task, seen) =>
      if !CanVerify(store.criteria, Seen(store, seen), task) then store
      else
        store.(criteria := Mark(store.criteria, Seen(store, seen), task, true), status := store.status[task := Verified])
  }

  function Exec(store: Store, run: seq<Step>): Store
    decreases |run|
  {
    if run == [] then store else Exec(Apply(store, run[0]), run[1..])
  }

  // ---------- what every run keeps ----------

  ghost predicate Linked(store: Store) {
    forall i :: 0 <= i < |store.evidence| ==>
      var e := store.evidence[i];
      e.criterion < |store.criteria| && Accepts(store.criteria[e.criterion], e.kind, e.commandId)
  }

  ghost predicate PassedIsProved(store: Store) {
    forall c :: 0 <= c < |store.criteria| && store.criteria[c].passed ==> HasSuccess(store.evidence, c)
  }

  ghost predicate VerifiedIsProved(store: Store) {
    forall task :: task in store.status && store.status[task] == Verified ==>
      CanVerify(store.criteria, store.evidence, task)
  }

  ghost predicate Gate(store: Store) {
    Linked(store) && PassedIsProved(store) && VerifiedIsProved(store)
  }

  ghost predicate SameCriterion(before: Criterion, after: Criterion) {
    after == before.(passed := after.passed) && (before.passed ==> after.passed)
  }

  /** Evidence is never lost, and a passed criterion stays passed. */
  ghost predicate Forward(before: Store, after: Store) {
    && |before.criteria| == |after.criteria| && before.evidence <= after.evidence
    && forall c :: 0 <= c < |before.criteria| ==> SameCriterion(before.criteria[c], after.criteria[c])
  }

  lemma SuccessStays(before: seq<Evidence>, after: seq<Evidence>, c: CriterionId)
    requires before <= after && HasSuccess(before, c)
    ensures HasSuccess(after, c)
  {
    var i :| 0 <= i < |before| && Supports(before[i], c);
    assert Supports(after[i], c);
  }

  /** Support only grows. */
  lemma CanVerifyStays(before: Store, evidence: seq<Evidence>, after: Store, task: TaskId)
    requires Forward(before, after) && evidence <= after.evidence && CanVerify(before.criteria, evidence, task)
    ensures CanVerify(after.criteria, after.evidence, task)
  {
    forall c | 0 <= c < |after.criteria| && BelongsTo(after.criteria, c, task) ensures HasSuccess(after.evidence, c) {
      assert SameCriterion(before.criteria[c], after.criteria[c]);
      assert BelongsTo(before.criteria, c, task);
      SuccessStays(evidence, after.evidence, c);
    }
    var c :| 0 <= c < |before.criteria| && BelongsTo(before.criteria, c, task);
    assert SameCriterion(before.criteria[c], after.criteria[c]);
    assert BelongsTo(after.criteria, c, task);
  }

  lemma StepForward(store: Store, step: Step)
    ensures Forward(store, Apply(store, step))
  {
  }

  lemma StepKeepsGate(store: Store, step: Step)
    requires Gate(store)
    ensures Gate(Apply(store, step))
  {
    var after := Apply(store, step);
    StepForward(store, step);
    forall c | 0 <= c < |after.criteria| && after.criteria[c].passed ensures HasSuccess(after.evidence, c) {
      assert SameCriterion(store.criteria[c], after.criteria[c]);
      if store.criteria[c].passed {
        SuccessStays(store.evidence, after.evidence, c);
      } else {
        assert BelongsTo(store.criteria, c, step.task);
        SuccessStays(Seen(store, step.seen), after.evidence, c);
      }
    }
    forall task | task in after.status && after.status[task] == Verified
      ensures CanVerify(after.criteria, after.evidence, task)
    {
      if task in store.status && store.status[task] == Verified {
        CanVerifyStays(store, store.evidence, after, task);
      } else {
        CanVerifyStays(store, Seen(store, step.seen), after, task);
      }
    }
    forall i | 0 <= i < |after.evidence|
      ensures var e := after.evidence[i];
        e.criterion < |after.criteria| && Accepts(after.criteria[e.criterion], e.kind, e.commandId)
    {
      var c := after.evidence[i].criterion;
      assert c < |store.criteria| && SameCriterion(store.criteria[c], after.criteria[c]);
    }
  }

  /**
   Over every interleaving of captures and verify requests: linked rows are rows that the criterion accepts, a
   passed criterion has a successful linked row, and a verified task can be verified.
   */
  lemma {:induction false} RunKeepsGate(store: Store, run: seq<Step>)
    requires Gate(store)
    ensures Gate(Exec(store, run)) && Forward(store, Exec(store, run))
    decreases |run|
  {
    if run != [] {
      var next := Apply(store, run[0]);
      StepKeepsGate(store, run[0]);
      StepForward(store, run[0]);
      RunKeepsGate(next, run[1..]);
      ForwardTransitive(store, next, Exec(store, run));
    }
  }

  lemma ForwardTransitive(a: Store, b: Store, c: Store)
    requires Forward(a, b) && Forward(b, c)
    ensures Forward(a, c)
  {
    forall i | 0 <= i < |a.criteria| ensures SameCriterion(a.criteria[i], c.criteria[i]) {
      assert SameCriterion(a.criteria[i], b.criteria[i]) && SameCriterion(b.criteria[i], c.criteria[i]);
    }
  }

  ghost predicate Fresh(store: Store) {
    && store.evidence == []
    && (forall c :: 0 <= c < |store.criteria| ==> !store.criteria[c].passed)
    && (forall task :: task in store.status ==> store.status[task] != Verified)
  }

  /** A row that is both successful and accepted by its criterion. */
  predicate Proof(store: Store, i: nat, c: CriterionId)
    requires i < |store.evidence| && c < |store.criteria|
  {
    Supports(store.evidence[i], c) && Accepts(store.criteria[c], store.evidence[i].kind, store.evidence[i].commandId)
  }

  /** A verified task has criteria, and each has accepted successful evidence; so has every passed criterion. */
  lemma VerifiedTaskIsProved(store: Store, run: seq<Step>, task: TaskId, c: CriterionId)
    requires Fresh(store)
    requires var now := Exec(store, run);
      && c < |now.criteria|
      && (now.criteria[c].passed
          || (now.criteria[c].task == task && task in now.status && now.status[task] == Verified))
    ensures var now := Exec(store, run); exists i :: 0 <= i < |now.evidence| && Proof(now, i, c)
  {
    RunKeepsGate(store, run);
    var now := Exec(store, run);
    assert BelongsTo(now.criteria, c, now.criteria[c].task);
    assert HasSuccess(now.evidence, c);
    var i :| 0 <= i < |now.evidence| && Supports(now.evidence[i], c);
    assert Proof(now, i, c);
  }

  /**
   Support is never withdrawn: once a task can be verified, a verify request succeeds after any further run,
   even right after a capture in which every command failed.
   */
  lemma OnceSupportedAlwaysVerifiable(store: Store, run: seq<Step>, task: TaskId, seen: nat)
    requires Gate(store) && CanVerify(store.criteria, store.evidence, task)
    requires seen >= |Exec(store, run).evidence|
    ensures task in Exec(store, run + [Verify(task, seen)]).status
    ensures Exec(store, run + [Verify(task, seen)]).status[task] == Verified
  {
    RunKeepsGate(store, run);
    var now := Exec(store, run);
    CanVerifyStays(store, store.evidence, now, task);
    assert Seen(now, seen) == now.evidence;
    ExecLast(store, run, Verify(task, seen));
  }

  lemma {:induction false} ExecLast(store: Store, run: seq<Step>, last: Step)
    ensures Exec(store, run + [last]) == Apply(Exec(store, run), last)
    decreases |run|
  {
    if run == [] {
      assert run + [last] == [last] && [last][1..] == [];
    } else {
      ExecLast(Apply(store, run[0]), run[1..], last);
      assert (run + [last])[1..] == run[1..] + [last];
    }
  }

  // ---------- one capture ----------

  datatype Command = Command(id: string, evidenceKind: string)

  datatype CommandResult = CommandResult(exitCode: Option<int>, timedOut: bool, cancelled: bool)

  predicate Successful(result: CommandResult) {
    result.exitCode == Some(0) && !result.timedOut && !result.cancelled
  }

  /** The rows that one observation adds: one for each criterion of the task, up to number `n`, that accepts it. */
  function Rows(criteria: seq<Criterion>, n: nat, task: TaskId, kind: string, commandId: Option<string>, ok: bool): seq<Evidence>
    requires n <= |criteria|
  {
    if n == 0 then []
    else
      Rows(criteria, n - 1, task, kind, commandId, ok)
      + (if criteria[n - 1].task == task && EvidenceLinks(criteria[n - 1], kind, commandId)
         then [Evidence(task, n - 1, kind, commandId, ok)] else [])
  }

  function AllRows(criteria: seq<Criterion>, task: TaskId, kind: string, commandId: Option<string>, ok: bool): seq<Evidence> {
    Rows(criteria, |criteria|, task, kind, commandId, ok)
  }

  const GIT_KINDS: seq<string> := ["GIT_STATUS", "GIT_DIFF", "CHANGED_FILES"]

  function RowsOfKinds(criteria: seq<Criterion>, task: TaskId, kinds: seq<string>): seq<Evidence>
    decreases |kinds|, criteria
  {
    if kinds == [] then []
    else
      var n := |kinds| - 1;
      RowsOfKinds(criteria, task, kinds[..n]) + AllRows(criteria, task, kinds[n], None, true)
  }

  function GitRows(criteria: seq<Criterion>, task: TaskId): seq<Evidence> {
    RowsOfKinds(criteria, task, GIT_KINDS)
  }

  /** Every row that a capture adds, in order. */
  function CaptureRows(criteria: seq<Criterion>, task: TaskId, commands: seq<Command>, results: seq<CommandResult>): seq<Evidence>
    requires |commands| == |results|
  {
    if commands == [] then GitRows(criteria, task)
    else
      var n := |commands| - 1;
      CaptureRows(criteria, task, commands[..n], results[..n])
      + AllRows(criteria, task, commands[n].evidenceKind, Some(commands[n].id), Successful(results[n]))
  }

  predicate AcceptsAny(criterion: Criterion, kinds: seq<string>) {
    exists i :: 0 <= i < |kinds| && Accepts(criterion, kinds[i], None)
  }

  /** A criterion accepts some observation of the capture that succeeded. */
  predicate Observed(criterion: Criterion, commands: seq<Command>, results: seq<CommandResult>)
    requires |commands| == |results|
  {
    || AcceptsAny(criterion, GIT_KINDS)
    || exists i :: 0 <= i < |commands| && AcceptsCommand(criterion, commands[i], results[i])
  }

  predicate AcceptsCommand(criterion: Criterion, command: Command, result: CommandResult) {
    Successful(result) && Accepts(criterion, command.evidenceKind, Some(command.id))
  }

  /** Where a capture ends that records these rows. */
  function Captured(store: Store, rows: seq<Evidence>, task: TaskId, failed: bool): Store {
    var evidence := store.evidence + rows;
    Store(Mark(store.criteria, evidence, task, false), evidence,
          store.status[task := Judged(failed, CanVerify(store.criteria, evidence, task))])
  }

  lemma CaptureRowsStep(
      criteria: seq<Criterion>, task: TaskId, commands: seq<Command>, results: seq<CommandResult>, i: nat)
    requires |commands| == |results| && i < |commands|
    ensures CaptureRows(criteria, task, commands[..i + 1], results[..i + 1])
      == CaptureRows(criteria, task, commands[..i], results[..i])
         + AllRows(criteria, task, commands[i].evidenceKind, Some(commands[i].id), Successful(results[i]))
  {
    assert commands[..i + 1][..i] == commands[..i] && results[..i + 1][..i] == results[..i];
  }

  class Relay {
    var store: Store

    constructor (store: Store)
      ensures this.store == store
    {
      this.store := store;
    }

    method RecordAll(task: TaskId, kind: string, commandId: Option<string>, ok: bool)
      modifies this
      ensures store == old(store).(evidence :=
        old(store).evidence + AllRows(old(store).criteria, task, kind, commandId, ok))
    {
      var c := 0;
      while c < |store.criteria|
        invariant 0 <= c <= |store.criteria| && store.criteria == old(store).criteria
        invariant store == old(store).(evidence :=
          old(store).evidence + Rows(old(store).criteria, c, task, kind, commandId, ok))
      {
        if store.criteria[c].task == task && EvidenceLinks(store.criteria[c], kind, commandId) {
          store := store.(evidence := store.evidence + [Evidence(task, c, kind, commandId, ok)]);
        }
        c := c + 1;
      }
    }

    method RecordGit(task: TaskId)
      modifies this
      ensures store == old(store).(evidence := old(store).evidence + GitRows(old(store).criteria, task))
    {
      var kinds := ["GIT_STATUS", "GIT_DIFF", "CHANGED_FILES"];
      var i := 0;
      while i < |kinds|
        invariant 0 <= i <= |kinds| && store.criteria == old(store).criteria && store.status == old(store).status
        invariant store.evidence == old(store).evidence + RowsOfKinds(old(store).criteria, task, kinds[..i])
      {
        RecordAll(task, kinds[i], None, true);
        assert kinds[..i + 1][..i] == kinds[..i];
        Assoc(old(store).evidence, RowsOfKinds(store.criteria, task, kinds[..i]),
              AllRows(store.criteria, task, kinds[i], None, true));
        i := i + 1;
      }
      assert kinds[..i] == GIT_KINDS;
    }

    method CaptureEvidence(task: TaskId, commands: seq<Command>, results: seq<CommandResult>, conflicts: bool)
      requires |commands| == |results|
      modifies this
      ensures var failed := conflicts || exists i :: 0 <= i < |results| && !Successful(results[i]);
        store == Captured(old(store), CaptureRows(old(store).criteria, task, commands, results), task, failed)
    {
      var failed := conflicts;
      RecordGit(task);
      var i := 0;
      while i < |commands|
        invariant 0 <= i <= |commands| && store.criteria == old(store).criteria && store.status == old(store).status
        invariant store.evidence
               == old(store).evidence + CaptureRows(old(store).criteria, task, commands[..i], results[..i])
        invariant failed <==> conflicts || exists k :: 0 <= k < i && !Successful(results[k])
      {
        if !Successful(results[i]) {
          failed := true;
        }
        RecordAll(task, commands[i].evidenceKind, Some(commands[i].id), Successful(results[i]));
        CaptureRowsStep(store.criteria, task, commands, results, i);
        Assoc(old(store).evidence, CaptureRows(store.criteria, task, commands[..i], results[..i]),
              AllRows(store.criteria, task, commands[i].evidenceKind, Some(commands[i].id), Successful(results[i])));
        i := i + 1;
      }
      assert commands[..i] == commands && results[..i] == results;
      var supported := CanVerify(store.criteria, store.evidence, task);
      store := store.(criteria := Mark(store.criteria, store.evidence, task, false),
                      status := store.status[task := Judged(failed, supported)]);
    }

    method VerifyTask(task: TaskId) returns (verified: bool)
      modifies this
      ensures verified == CanVerify(old(store).criteria, old(store).evidence, task)
      ensures store == Apply(old(store), Verify(task, |old(store).evidence|))
    {
      verified := CanVerify(store.criteria, store.evidence, task);
      if verified {
        store := store.(criteria := Mark(store.criteria, store.evidence, task, true),
                        status := store.status[task := Verified]);
      }
    }
  }

  // ---------- what a capture achieves ----------

  lemma SuccessOfConcat(a: seq<Evidence>, b: seq<Evidence>, c: CriterionId)
    ensures HasSuccess(a + b, c) <==> HasSuccess(a, c) || HasSuccess(b, c)
  {
    if HasSuccess(a + b, c) {
      var i :| 0 <= i < |a + b| && Supports((a + b)[i], c);
      assert if i < |a| then Supports(a[i], c) else Supports(b[i - |a|], c);
    }
    if HasSuccess(b, c) {
      var i :| 0 <= i < |b| && Supports(b[i], c);
      assert Supports((a + b)[|a| + i], c);
    }
    if HasSuccess(a, c) {
      SuccessStays(a, a + b, c);
    }
  }

  lemma {:induction false} RowsSupport(
      criteria: seq<Criterion>, n: nat, task: TaskId, kind: string, commandId: Option<string>, ok: bool, c: CriterionId)
    requires n <= |criteria| && c < |criteria|
    ensures HasSuccess(Rows(criteria, n, task, kind, commandId, ok), c)
      <==> ok && c < n && criteria[c].task == task && Accepts(criteria[c], kind, commandId)
  {
    if n > 0 {
      RowsSupport(criteria, n - 1, task, kind, commandId, ok, c);
      var row := Evidence(task, n - 1, kind, commandId, ok);
      var last := if criteria[n - 1].task == task && Accepts(criteria[n - 1], kind, commandId) then [row] else [];
      SuccessOfConcat(Rows(criteria, n - 1, task, kind, commandId, ok), last, c);
      assert last != [] ==> (HasSuccess(last, c) <==> Supports(last[0], c));
    }
  }

  lemma {:induction false} KindsSupport(criteria: seq<Criterion>, task: TaskId, kinds: seq<string>, c: CriterionId)
    requires c < |criteria|
    ensures HasSuccess(RowsOfKinds(criteria, task, kinds), c)
      <==> criteria[c].task == task && AcceptsAny(criteria[c], kinds)
    decreases |kinds|
  {
    if kinds != [] {
      var n := |kinds| - 1;
      KindsSupport(criteria, task, kinds[..n], c);
      RowsSupport(criteria, |criteria|, task, kinds[n], None, true, c);
      SuccessOfConcat(RowsOfKinds(criteria, task, kinds[..n]), AllRows(criteria, task, kinds[n], None, true), c);
      AnyButLast(criteria[c], kinds);
    }
  }

  lemma AnyButLast(criterion: Criterion, kinds: seq<string>)
    requires kinds != []
    ensures var n := |kinds| - 1;
      AcceptsAny(criterion, kinds) <==> AcceptsAny(criterion, kinds[..n]) || Accepts(criterion, kinds[n], None)
  {
    var n := |kinds| - 1;
    assert forall i :: 0 <= i < n ==> kinds[..n][i] == kinds[i];
  }

  lemma {:induction false} RowsSupportIff(
      criteria: seq<Criterion>, task: TaskId, commands: seq<Command>, results: seq<CommandResult>, c: CriterionId)
    requires |commands| == |results| && c < |criteria|
    ensures HasSuccess(CaptureRows(criteria, task, commands, results), c)
      <==> criteria[c].task == task && Observed(criteria[c], commands, results)
    decreases |commands|
  {
    if commands == [] {
      KindsSupport(criteria, task, GIT_KINDS, c);
    } else {
      var n := |commands| - 1;
      RowsSupportIff(criteria, task, commands[..n], results[..n], c);
      var kind, id, ok := commands[n].evidenceKind, Some(commands[n].id), Successful(results[n]);
      RowsSupport(criteria, |criteria|, task, kind, id, ok, c);
      SuccessOfConcat(CaptureRows(criteria, task, commands[..n], results[..n]), AllRows(criteria, task, kind, id, ok), c);
      assert forall i :: 0 <= i < n ==> commands[..n][i] == commands[i] && results[..n][i] == results[i];
      assert AcceptsCommand(criteria[c], commands[n], results[n]) <==> ok && Accepts(criteria[c], kind, id);
    }
  }

  /** A capture supports exactly the criteria of its task that accept something it saw succeed. */
  lemma CaptureSupportsIff(
      store: Store, task: TaskId, commands: seq<Command>, results: seq<CommandResult>, c: CriterionId)
    requires |commands| == |results| && c < |store.criteria|
    ensures HasSuccess(store.evidence + CaptureRows(store.criteria, task, commands, results), c)
      <==> || HasSuccess(store.evidence, c)
           || (store.criteria[c].task == task && Observed(store.criteria[c], commands, results))
  {
    RowsSupportIff(store.criteria, task, commands, results, c);
    SuccessOfConcat(store.evidence, CaptureRows(store.criteria, task, commands, results), c);
  }

  predicate Ascending(rows: seq<Evidence>) {
    forall i, j :: 0 <= i < j < |rows| ==> rows[i].criterion < rows[j].criterion
  }

  predicate RowFor(criteria: seq<Criterion>, task: TaskId, kind: string, commandId: Option<string>, ok: bool, e: Evidence) {
    && e == Evidence(task, e.criterion, kind, commandId, ok) && e.criterion < |criteria|
    && criteria[e.criterion].task == task && Accepts(criteria[e.criterion], kind, commandId)
  }

  lemma {:induction false} RowsMember(
      criteria: seq<Criterion>, n: nat, task: TaskId, kind: string, commandId: Option<string>, ok: bool, e: Evidence)
    requires n <= |criteria|
    ensures e in Rows(criteria, n, task, kind, commandId, ok) <==>
      e.criterion < n && RowFor(criteria, task, kind, commandId, ok, e)
  {
    if n > 0 {
      RowsMember(criteria, n - 1, task, kind, commandId, ok, e);
    }
  }

  lemma {:induction false} RowsAscend(
      criteria: seq<Criterion>, n: nat, task: TaskId, kind: string, commandId: Option<string>, ok: bool)
    requires n <= |criteria|
    ensures Ascending(Rows(criteria, n, task, kind, commandId, ok))
    ensures forall i :: 0 <= i < |Rows(criteria, n, task, kind, commandId, ok)| ==>
      Rows(criteria, n, task, kind, commandId, ok)[i].criterion < n
  {
    if n > 0 {
      RowsAscend(criteria, n - 1, task, kind, commandId, ok);
    }
  }

  /** One observation adds exactly one row for each criterion of the task that accepts it, in their order. */
  lemma RowsAreExact(
      criteria: seq<Criterion>, task: TaskId, kind: string, commandId: Option<string>, ok: bool)
    ensures var rows := AllRows(criteria, task, kind, commandId, ok);
      && (forall i, j :: 0 <= i < j < |rows| ==> rows[i].criterion < rows[j].criterion)
      && (forall e :: e in rows <==>
           && e == Evidence(task, e.criterion, kind, commandId, ok) && e.criterion < |criteria|
           && criteria[e.criterion].task == task && Accepts(criteria[e.criterion], kind, commandId))
  {
    RowsAscend(criteria, |criteria|, task, kind, commandId, ok);
    forall e
      ensures e in AllRows(criteria, task, kind, commandId, ok) <==> RowFor(criteria, task, kind, commandId, ok, e)
    {
      RowsMember(criteria, |criteria|, task, kind, commandId, ok, e);
    }
  }

  /** A row for one of the readings of the repository, or for one of the commands. */
  predicate CaptureRow(
      criteria: seq<Criterion>, task: TaskId, commands: seq<Command>, results: seq<CommandResult>, e: Evidence)
    requires |commands| == |results|
  {
    || KindRow(criteria, task, GIT_KINDS, e)
    || exists i :: 0 <= i < |commands| && CommandRow(criteria, task, commands[i], results[i], e)
  }

  predicate KindRow(criteria: seq<Criterion>, task: TaskId, kinds: seq<string>, e: Evidence) {
    exists i :: 0 <= i < |kinds| && RowFor(criteria, task, kinds[i], None, true, e)
  }

  predicate CommandRow(criteria: seq<Criterion>, task: TaskId, command: Command, result: CommandResult, e: Evidence) {
    RowFor(criteria, task, command.evidenceKind, Some(command.id), result.exitCode == Some(0) && !result.timedOut && !result.cancelled, e)
  }

  lemma {:induction false} KindRowsMember(criteria: seq<Criterion>, task: TaskId, kinds: seq<string>, e: Evidence)
    ensures e in RowsOfKinds(criteria, task, kinds) <==> KindRow(criteria, task, kinds, e)
    decreases |kinds|
  {
    if kinds != [] {
      var n := |kinds| - 1;
      KindRowsMember(criteria, task, kinds[..n], e);
      RowsMember(criteria, |criteria|, task, kinds[n], None, true, e);
      LastKindRow(criteria, task, kinds, e);
    }
  }

  lemma LastKindRow(criteria: seq<Criterion>, task: TaskId, kinds: seq<string>, e: Evidence)
    requires kinds != []
    ensures var n := |kinds| - 1;
      KindRow(criteria, task, kinds, e) <==>
        KindRow(criteria, task, kinds[..n], e) || RowFor(criteria, task, kinds[n], None, true, e)
  {
    var n := |kinds| - 1;
    assert forall i :: 0 <= i < n ==> kinds[..n][i] == kinds[i];
  }

  /** The rows of a capture are exactly those of its three readings of the repository and of its commands. */
  lemma {:induction false} CaptureRowsAreExact(
      criteria: seq<Criterion>, task: TaskId, commands: seq<Command>, results: seq<CommandResult>, e: Evidence)
    requires |commands| == |results|
    ensures e in CaptureRows(criteria, task, commands, results) <==> CaptureRow(criteria, task, commands, results, e)
    decreases |commands|
  {
    if commands == [] {
      KindRowsMember(criteria, task, GIT_KINDS, e);
    } else {
      var n := |commands| - 1;
      CaptureRowsAreExact(criteria, task, commands[..n], results[..n], e);
      CommandRows(criteria, task, commands[n], results[n], e);
      LastCommandRow(criteria, task, commands, results, e);
    }
  }

  lemma CommandRows(criteria: seq<Criterion>, task: TaskId, command: Command, result: CommandResult, e: Evidence)
    ensures e in AllRows(criteria, task, command.evidenceKind, Some(command.id), Successful(result)) <==>
      CommandRow(criteria, task, command, result, e)
  {
    RowsMember(criteria, |criteria|, task, command.evidenceKind, Some(command.id), Successful(result), e);
  }

  lemma LastCommandRow(
      criteria: seq<Criterion>, task: TaskId, commands: seq<Command>, results: seq<CommandResult>, e: Evidence)
    requires |commands| == |results| > 0
    ensures var n := |commands| - 1;
      CaptureRow(criteria, task, commands, results, e) <==>
        CaptureRow(criteria, task, commands[..n], results[..n], e) || CommandRow(criteria, task, commands[n], results[n], e)
  {
    var n := |commands| - 1;
    assert forall i :: 0 <= i < n ==> commands[..n][i] == commands[i] && results[..n][i] == results[i];
  }

  /** A criterion of the task has successful evidence after the capture, old or new. */
  predicate Proved(store: Store, commands: seq<Command>, results: seq<CommandResult>, c: CriterionId)
    requires |commands| == |results| && c < |store.criteria|
  {
    HasSuccess(store.evidence, c) || Observed(store.criteria[c], commands, results)
  }

  /** The task has criteria, and all are proved. */
  predicate AllProved(store: Store, task: TaskId, commands: seq<Command>, results: seq<CommandResult>)
    requires |commands| == |results|
  {
    && (exists c :: 0 <= c < |store.criteria| && store.criteria[c].task == task)
    && forall c :: 0 <= c < |store.criteria| && store.criteria[c].task == task ==> Proved(store, commands, results, c)
  }

  lemma CaptureProves(store: Store, task: TaskId, commands: seq<Command>, results: seq<CommandResult>)
    requires |commands| == |results|
    ensures var evidence := store.evidence + CaptureRows(store.criteria, task, commands, results);
      && (forall c :: 0 <= c < |store.criteria| && store.criteria[c].task == task ==>
           (HasSuccess(evidence, c) <==> Proved(store, commands, results, c)))
      && (CanVerify(store.criteria, evidence, task) <==> AllProved(store, task, commands, results))
  {
    var evidence := store.evidence + CaptureRows(store.criteria, task, commands, results);
    forall c | 0 <= c < |store.criteria| && store.criteria[c].task == task
      ensures HasSuccess(evidence, c) <==> Proved(store, commands, results, c)
    {
      CaptureSupportsIff(store, task, commands, results, c);
    }
    assert forall c: CriterionId :: BelongsTo(store.criteria, c, task) <==> c < |store.criteria| && store.criteria[c].task == task;
  }

  /**
   What a capture decides, from its results alone: exactly the proved criteria of its task pass, and the task is
   TEST_FAILED when something failed, else READY_FOR_REVIEW when it has criteria and all are proved, else
   CODE_COMPLETE; nothing else changes.
   */
  lemma CaptureDecides(
      store: Store, task: TaskId, commands: seq<Command>, results: seq<CommandResult>, failed: bool)
    requires |commands| == |results|
    ensures var after := Captured(store, CaptureRows(store.criteria, task, commands, results), task, failed);
      && |after.criteria| == |store.criteria| && task in after.status
      && (forall c :: 0 <= c < |store.criteria| ==>
           after.criteria[c] == store.criteria[c].(passed :=
             store.criteria[c].passed || (store.criteria[c].task == task && Proved(store, commands, results, c))))
      && (after.status[task] == TestFailed <==> failed)
      && (after.status[task] == ReadyForReview <==> !failed && AllProved(store, task, commands, results))
      && (after.status[task] == CodeComplete <==> !failed && !AllProved(store, task, commands, results))
      && after.status == store.status[task := after.status[task]]
  {
    CaptureProves(store, task, commands, results);
  }

  /** A verify request passes all criteria of a task that can be verified, and only then does anything. */
  lemma VerifyDecides(store: Store, task: TaskId)
    ensures var after := Apply(store, Verify(task, |store.evidence|));
      && after.evidence == store.evidence && |after.criteria| == |store.criteria|
      && if (exists c :: 0 <= c < |store.criteria| && BelongsTo(store.criteria, c, task))
            && (forall c :: 0 <= c < |store.criteria| && store.criteria[c].task == task ==>
                 exists i :: 0 <= i < |store.evidence| && Supports(store.evidence[i], c))
         then
           && after.status == store.status[task := Verified]
           && forall c :: 0 <= c < |store.criteria| ==>
                after.criteria[c] == store.criteria[c].(passed := store.criteria[c].passed || store.criteria[c].task == task)
         else after == store
  {
    assert Seen(store, |store.evidence|) == store.evidence;
    assert forall c: CriterionId :: BelongsTo(store.criteria, c, task) <==> c < |store.criteria| && store.criteria[c].task == task;
  }

  // ---------- a capture is a run ----------

  function Records(rows: seq<Evidence>): seq<Step> {
    seq(|rows|, i requires 0 <= i < |rows| => RecordEvidence(rows[i]))
  }

  ghost predicate AllAccepted(criteria: seq<Criterion>, rows: seq<Evidence>) {
    forall e :: e in rows ==> e.criterion < |criteria| && Accepts(criteria[e.criterion], e.kind, e.commandId)
  }

  lemma {:induction false} RowsAreAccepted(
      criteria: seq<Criterion>, n: nat, task: TaskId, kind: string, commandId: Option<string>, ok: bool)
    requires n <= |criteria|
    ensures AllAccepted(criteria, Rows(criteria, n, task, kind, commandId, ok))
  {
    if n > 0 {
      RowsAreAccepted(criteria, n - 1, task, kind, commandId, ok);
    }
  }

  lemma {:induction false} KindsAreAccepted(criteria: seq<Criterion>, task: TaskId, kinds: seq<string>)
    ensures AllAccepted(criteria, RowsOfKinds(criteria, task, kinds))
    decreases |kinds|
  {
    if kinds != [] {
      var n := |kinds| - 1;
      KindsAreAccepted(criteria, task, kinds[..n]);
      RowsAreAccepted(criteria, |criteria|, task, kinds[n], None, true);
    }
  }

  lemma {:induction false} CaptureRowsAreAccepted(
      criteria: seq<Criterion>, task: TaskId, commands: seq<Command>, results: seq<CommandResult>)
    requires |commands| == |results|
    ensures AllAccepted(criteria, CaptureRows(criteria, task, commands, results))
    decreases |commands|
  {
    if commands == [] {
      KindsAreAccepted(criteria, task, GIT_KINDS);
    } else {
      var n := |commands| - 1;
      CaptureRowsAreAccepted(criteria, task, commands[..n], results[..n]);
      RowsAreAccepted(
        criteria, |criteria|, task, commands[n].evidenceKind, Some(commands[n].id), Successful(results[n]));
    }
  }

  lemma {:induction false} RecordsAppend(store: Store, rows: seq<Evidence>, rest: seq<Step>)
    requires AllAccepted(store.criteria, rows)
    ensures Exec(store, Records(rows) + rest) == Exec(store.(evidence := store.evidence + rows), rest)
    decreases |rows|
  {
    if rows == [] {
      assert Records(rows) + rest == rest && store.evidence + rows == store.evidence;
    } else {
      var next := Apply(store, RecordEvidence(rows[0]));
      var run := Records(rows) + rest;
      assert rows[0] in rows;
      assert run[0] == RecordEvidence(rows[0]) && run[1..] == Records(rows[1..]) + rest;
      RecordsAppend(next, rows[1..], rest);
      assert rows == [rows[0]] + rows[1..];
      Assoc(store.evidence, [rows[0]], rows[1..]);
    }
  }

  /** The last two writes of a capture that has seen `seen` rows. */
  function Closing(task: TaskId, failed: bool, seen: nat): seq<Step> {
    [MarkPassed(task, seen), Judge(task, failed, seen)]
  }

  lemma MarkAndJudge(store: Store, rows: seq<Evidence>, task: TaskId, failed: bool)
    ensures Exec(store.(evidence := store.evidence + rows), Closing(task, failed, |store.evidence + rows|))
         == Captured(store, rows, task, failed)
  {
    var recorded := store.(evidence := store.evidence + rows);
    var seen := |recorded.evidence|;
    var mark, judge := MarkPassed(task, seen), Judge(task, failed, seen);
    assert recorded.evidence[..seen] == recorded.evidence;
    MarkKeepsTasks(recorded.criteria, recorded.evidence, task);
    assert [mark, judge][1..] == [judge];
    assert Exec(Apply(recorded, mark), [judge]) == Apply(Apply(recorded, mark), judge);
  }

  /** `CaptureEvidence` ends where the run of its writes ends, so that every run property holds of it. */
  lemma CaptureIsRun(store: Store, task: TaskId, commands: seq<Command>, results: seq<CommandResult>, failed: bool)
    requires |commands| == |results|
    ensures var rows := CaptureRows(store.criteria, task, commands, results);
      Exec(store, Records(rows) + Closing(task, failed, |store.evidence + rows|)) == Captured(store, rows, task, failed)
  {
    var rows := CaptureRows(store.criteria, task, commands, results);
    CaptureRowsAreAccepted(store.criteria, task, commands, results);
    RecordsAppend(store, rows, Closing(task, failed, |store.evidence + rows|));
    MarkAndJudge(store, rows, task, failed);
  }

  lemma MarkKeepsTasks(criteria: seq<Criterion>, evidence: seq<Evidence>, task: TaskId)
    ensures CanVerify(Mark(criteria, evidence, task, false), evidence, task) == CanVerify(criteria, evidence, task)
  {
    var marked := Mark(criteria, evidence, task, false);
    assert forall c: CriterionId :: BelongsTo(marked, c, task) <==> BelongsTo(criteria, c, task);
  }
}
