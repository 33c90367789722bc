/** How often an event that never publishes is tried, when dispatch passes do not overlap. */
module Retries {
  import opened Wrappers
  import opened Tables
  import opened Submission
  import opened Protocol
  import opened Backoff
  import opened BackoffBounds

  /** One whole pass over a row whose publish throws: read, claim, record the failure. */
  function FailingPass(m: Mail, id: Id, now: Time, policy: Policy, jitter: real): Mail
    requires id in m.outbox
  {
    var row := m.outbox[id];
    if !Due(row, now) then m
    else
      DoRecordFailure(DoClaimRow(m, 0, id, now, row.attempts), Dispatch(0, id, row.job, row.attempts), now, policy, jitter)
  }

  datatype Pass = Pass(now: Time, jitter: real)

  function AfterPasses(m: Mail, id: Id, passes: seq<Pass>, policy: Policy): (m': Mail)
    requires id in m.outbox
    ensures id in m'.outbox
    decreases |passes|
  {
    if passes == [] then m
    else AfterPasses(FailingPass(m, id, passes[0].now, policy, passes[0].jitter), id, passes[1..], policy)
  }

  /** The passes that claim the row and so call `publish`. */
  function Publishes(m: Mail, id: Id, passes: seq<Pass>, policy: Policy): nat
    requires id in m.outbox
    decreases |passes|
  {
    if passes == [] then 0
    else
      (if Due(m.outbox[id], passes[0].now) then 1 else 0)
      + Publishes(FailingPass(m, id, passes[0].now, policy, passes[0].jitter), id, passes[1..], policy)
  }

  /** A row that has failed `n` publishes. */
  predicate FailedTimes(row: OutboxRow, n: nat, policy: Policy) {
    && row.attempts == n
    && (n >= policy.maxAttempts <==> row.status == DeadLetter)
    && (n < policy.maxAttempts ==> Purgeable(row))
  }

  lemma {:induction false} CountFrom(m: Mail, id: Id, passes: seq<Pass>, policy: Policy, n: nat)
    requires id in m.outbox && policy.maxAttempts >= 1 && FailedTimes(m.outbox[id], n, policy) && n <= policy.maxAttempts
    ensures FailedTimes(AfterPasses(m, id, passes, policy).outbox[id], n + Publishes(m, id, passes, policy), policy)
    ensures n + Publishes(m, id, passes, policy) <= policy.maxAttempts
    decreases |passes|
  {
    if passes != [] {
      var m' := FailingPass(m, id, passes[0].now, policy, passes[0].jitter);
      CountFrom(m', id, passes[1..], policy, if Due(m.outbox[id], passes[0].now) then n + 1 else n);
    }
  }

  /**
   A pending event whose every publish fails is published at most maxAttempts times however
   many passes follow, and is dead-lettered exactly when it has been published that often.
   */
  lemma DeadLetteredAfterExactlyMaxAttempts(m: Mail, id: Id, passes: seq<Pass>, raw: RawPolicy)
    requires id in m.outbox && m.outbox[id].status == Pending && m.outbox[id].attempts == 0
    ensures var policy := Resolve(raw);
      var published := Publishes(m, id, passes, policy);
      var row := AfterPasses(m, id, passes, policy).outbox[id];
      && published <= policy.maxAttempts
      && (row.status == DeadLetter <==> published == policy.maxAttempts)
      && row.attempts == published
  {
    CountFrom(m, id, passes, Resolve(raw), 0);
  }

  /** After a failure the row is not due again for at least a second, given a policy of at least a second. */
  lemma FailureWaits(m: Mail, id: Id, now: Time, raw: RawPolicy, jitter: real, soon: Time)
    requires id in m.outbox && Due(m.outbox[id], now)
    requires raw.baseDelayMs >= 1_000.0 || raw.maxDelayMs >= 1_000.0
    ensures var m' := FailingPass(m, id, now, Resolve(raw), jitter);
      id in m'.outbox && (soon < now + 1_000 ==> !Due(m'.outbox[id], soon))
  {
    var p := Resolve(raw);
    BaseAtMostMaxIff(raw);
    RoundMonotone(1_000.0, Clamp(p, Jittered(m.outbox[id].attempts + 1, p, jitter)));
    assert Round(1_000.0) == 1_000;
  }

  // ---------- when a failed row is tried again ----------

  /** The base doubled once for each attempt after the first. */
  function Scaled(p: Policy, attempt: nat): real
    requires attempt > 0
  {
    p.baseDelayMs * Pow2(attempt - 1) as real
  }

  /** The backoff before jitter. */
  function Nominal(p: Policy, attempt: nat): real
    requires attempt > 0
  {
    Min(p.maxDelayMs, Scaled(p, attempt))
  }

  /** How far jitter can move it. */
  function Spread(p: Policy, attempt: nat): real
    requires attempt > 0
  {
    Nominal(p, attempt) * p.jitterPercent
  }

  /** A wait of `delay`, at least a second and at most the maximum, in whole milliseconds. */
  function WholeWait(p: Policy, delay: real): int {
    Round(Min(p.maxDelayMs, Max(1_000.0, delay)))
  }

  /** The wait lies within the jitter's spread around the nominal delay, and reaches both ends and the middle. */
  predicate Spreads(p: Policy, nominal: real, spread: real, jitter: real, wait: int) {
    && WholeWait(p, nominal - spread) <= wait <= WholeWait(p, nominal + spread)
    && (jitter == 0.0 ==> wait == WholeWait(p, nominal - spread))
    && (jitter == 0.5 ==> wait == WholeWait(p, nominal))
    && (jitter == 1.0 ==> wait == WholeWait(p, nominal + spread))
  }

  /** The wait after the given attempt has failed. */
  predicate Backs(p: Policy, attempt: nat, jitter: real, wait: int)
    requires attempt > 0
  {
    && Spreads(p, Nominal(p, attempt), Spread(p, attempt), jitter, wait)
    && (p.jitterPercent == 0.0 ==> wait == WholeWait(p, Scaled(p, attempt)))
  }

  lemma NominalIs(p: Policy, attempt: nat)
    requires attempt > 0
    ensures Exponential(attempt, p) == Nominal(p, attempt)
  {
    DoubledIsPow2(p.baseDelayMs, attempt - 1);
  }

  lemma WholeWaitMonotone(p: Policy, x: real, y: real)
    requires x <= y
    ensures WholeWait(p, x) <= WholeWait(p, y)
  {
    RoundMonotone(Min(p.maxDelayMs, Max(1_000.0, x)), Min(p.maxDelayMs, Max(1_000.0, y)));
  }

  lemma DelayIsWhole(p: Policy, attempt: int, jitter: real)
    ensures RetryDelay(attempt, p, jitter) == WholeWait(p, Jittered(attempt, p, jitter))
  {
  }

  /** A maximum below a second leaves only one wait. */
  lemma OnlyWait(p: Policy, x: real)
    requires p.maxDelayMs < 1_000.0
    ensures WholeWait(p, x) == Round(p.maxDelayMs)
  {
  }

  lemma NominalSpreads(p: Policy, attempt: nat, jitter: real, spread: real)
    requires attempt > 0 && 0.0 <= p.jitterPercent && 0.0 <= p.baseDelayMs && 0.0 <= p.maxDelayMs
    requires spread == Spread(p, attempt)
    ensures var nominal, delay := Nominal(p, attempt), Jittered(attempt, p, jitter);
      && nominal - spread <= delay <= nominal + spread
      && (jitter == 0.0 ==> delay == nominal - spread)
      && (jitter == 0.5 ==> delay == nominal)
      && (jitter == 1.0 ==> delay == nominal + spread)
  {
    NominalIs(p, attempt);
    DoubledMonotone(p.baseDelayMs, 0, attempt - 1);
    JitterSpreads(p, attempt, jitter);
  }

  lemma JitterBacks(p: Policy, attempt: nat, jitter: real, nominal: real, spread: real)
    requires attempt > 0 && nominal == Nominal(p, attempt)
    requires p.maxDelayMs < 1_000.0 ||
      (0.0 <= p.jitterPercent && 0.0 <= p.baseDelayMs && spread == Spread(p, attempt))
    ensures Spreads(p, nominal, spread, jitter, RetryDelay(attempt, p, jitter))
  {
    var delay := Jittered(attempt, p, jitter);
    DelayIsWhole(p, attempt, jitter);
    if p.maxDelayMs < 1_000.0 {
      OnlyWait(p, delay);
      OnlyWait(p, nominal - spread);
      OnlyWait(p, nominal);
      OnlyWait(p, nominal + spread);
    } else {
      NominalSpreads(p, attempt, jitter, spread);
      WholeWaitMonotone(p, nominal - spread, delay);
      WholeWaitMonotone(p, delay, nominal + spread);
    }
  }

  /** Without spread the wait is the nominal one; bounding a delay by the maximum first changes nothing. */
  lemma NoSpread(p: Policy, d: real, spread: real, jitter: real, wait: int)
    requires Spreads(p, Min(p.maxDelayMs, d), spread, jitter, wait) && spread == 0.0
    ensures wait == WholeWait(p, d)
  {
  }

  lemma ZeroSpread(p: Policy, attempt: nat)
    requires attempt > 0 && p.jitterPercent == 0.0
    ensures Spread(p, attempt) == 0.0
  {
  }

  lemma PolicyBacks(p: Policy, attempt: nat, jitter: real)
    requires attempt > 0 && 0.0 <= p.jitterPercent && 0.0 <= p.baseDelayMs
    ensures Backs(p, attempt, jitter, RetryDelay(attempt, p, jitter))
  {
    PolicySpreads(p, attempt, jitter);
    if p.jitterPercent == 0.0 {
      ZeroSpread(p, attempt);
      NoSpread(p, Scaled(p, attempt), Spread(p, attempt), jitter, RetryDelay(attempt, p, jitter));
    }
  }

  lemma PolicySpreads(p: Policy, attempt: nat, jitter: real)
    requires attempt > 0 && 0.0 <= p.jitterPercent && 0.0 <= p.baseDelayMs
    ensures Spreads(p, Nominal(p, attempt), Spread(p, attempt), jitter, RetryDelay(attempt, p, jitter))
  {
    JitterBacks(p, attempt, jitter, Nominal(p, attempt), Spread(p, attempt));
  }

  lemma ResolvedIsPositive(raw: RawPolicy)
    ensures 0.0 <= Resolve(raw).jitterPercent && 0.0 <= Resolve(raw).baseDelayMs
  {
  }

  lemma DelayBacks(raw: RawPolicy, attempt: nat, jitter: real)
    requires attempt > 0
    ensures Backs(Resolve(raw), attempt, jitter, RetryDelay(attempt, Resolve(raw), jitter))
  {
    ResolvedIsPositive(raw);
    PolicyBacks(Resolve(raw), attempt, jitter);
  }

  /**
   What recording a failed publish leaves, whatever the dispatcher read and whatever the row has become: the wait
   of the attempt that failed, one more attempt, and DEAD_LETTER exactly when it was the last; no other row changes.
   */
  lemma FailureIsRecorded(w: World, d: Dispatch, now: Time, raw: RawPolicy, jitter: real)
    requires Sized(w) && d in w.mail.inFlight && d.jobId in w.mail.outbox
    ensures var m, m' := w.mail, Apply(w, RecordFailure(d, now, Resolve(raw), jitter)).mail;
      && m'.outbox.Keys == m.outbox.Keys && m'.inFlight == m.inFlight - {d}
      && (forall id :: id in m.outbox && id != d.jobId ==> m'.outbox[id] == m.outbox[id])
      && var row, row' := m.outbox[d.jobId], m'.outbox[d.jobId];
      && row'.job == row.job && row'.attempts == row.attempts + 1 && row'.updatedAt == now
      && row'.status == (if d.attemptsRead + 1 >= Resolve(raw).maxAttempts then DeadLetter else PublishFailed)
      && Backs(Resolve(raw), d.attemptsRead + 1, jitter, row'.nextAttemptAt - now)
  {
    DelayBacks(raw, d.attemptsRead + 1, jitter);
    assert Apply(w, RecordFailure(d, now, Resolve(raw), jitter)).mail == DoRecordFailure(w.mail, d, now, Resolve(raw), jitter);
  }

  // ---------- the schedule of an event that never publishes ----------

  /** The waits that the passes record, in order. */
  function Waits(m: Mail, id: Id, passes: seq<Pass>, policy: Policy): (waits: seq<int>)
    requires id in m.outbox
    ensures |waits| == Publishes(m, id, passes, policy)
    decreases |passes|
  {
    if passes == [] then []
    else
      var m' := FailingPass(m, id, passes[0].now, policy, passes[0].jitter);
      (if Due(m.outbox[id], passes[0].now) then [m'.outbox[id].nextAttemptAt - passes[0].now] else [])
      + Waits(m', id, passes[1..], policy)
  }

  /** The jitter of the k-th pass that claims the row. */
  function Jitters(m: Mail, id: Id, passes: seq<Pass>, policy: Policy): (jitters: seq<real>)
    requires id in m.outbox
    ensures |jitters| == Publishes(m, id, passes, policy)
    decreases |passes|
  {
    if passes == [] then []
    else
      (if Due(m.outbox[id], passes[0].now) then [passes[0].jitter] else [])
      + Jitters(FailingPass(m, id, passes[0].now, policy, passes[0].jitter), id, passes[1..], policy)
  }

  lemma {:induction false} WaitsFrom(m: Mail, id: Id, passes: seq<Pass>, policy: Policy, k: nat)
    requires id in m.outbox && k < Publishes(m, id, passes, policy)
    ensures Waits(m, id, passes, policy)[k]
         == RetryDelay(m.outbox[id].attempts + k + 1, policy, Jitters(m, id, passes, policy)[k])
    decreases |passes|
  {
    var m' := FailingPass(m, id, passes[0].now, policy, passes[0].jitter);
    if !Due(m.outbox[id], passes[0].now) {
      WaitsFrom(m', id, passes[1..], policy, k);
    } else if k > 0 {
      WaitsFrom(m', id, passes[1..], policy, k - 1);
    }
  }

  /** The n-th failing publish of an event is followed by the n-th wait of the backoff, for every run of passes. */
  lemma NthWaitBacks(m: Mail, id: Id, passes: seq<Pass>, raw: RawPolicy, n: nat)
    requires id in m.outbox && m.outbox[id].attempts == 0
    requires 0 < n <= Publishes(m, id, passes, Resolve(raw))
    ensures Backs(Resolve(raw), n, Jitters(m, id, passes, Resolve(raw))[n - 1], Waits(m, id, passes, Resolve(raw))[n - 1])
  {
    WaitsFrom(m, id, passes, Resolve(raw), n - 1);
    DelayBacks(raw, n, Jitters(m, id, passes, Resolve(raw))[n - 1]);
  }

  /** With the same jitter in every pass the recorded waits never shrink. */
  lemma WaitsNeverShrink(m: Mail, id: Id, passes: seq<Pass>, raw: RawPolicy, j: nat, k: nat)
    requires id in m.outbox && j <= k < Publishes(m, id, passes, Resolve(raw))
    requires Jitters(m, id, passes, Resolve(raw))[j] == Jitters(m, id, passes, Resolve(raw))[k]
    ensures Waits(m, id, passes, Resolve(raw))[j] <= Waits(m, id, passes, Resolve(raw))[k]
  {
    WaitsFrom(m, id, passes, Resolve(raw), j);
    WaitsFrom(m, id, passes, Resolve(raw), k);
    var attempts := m.outbox[id].attempts;
    DelayMonotone(raw, attempts + j + 1, attempts + k + 1, Jitters(m, id, passes, Resolve(raw))[j]);
  }
}
