/** Bounds and monotonicity of the retry delay. */
module BackoffBounds {
  import opened Backoff

  /** The resolved base stays below the resolved maximum exactly when one of the raw delays reaches a second. */
  lemma BaseAtMostMaxIff(raw: RawPolicy)
    ensures Resolve(raw).baseDelayMs <= Resolve(raw).maxDelayMs <==> raw.baseDelayMs >= 1_000.0 || raw.maxDelayMs >= 1_000.0
    ensures Resolve(raw).maxDelayMs >= 1_000.0 <==> raw.baseDelayMs >= 1_000.0 || raw.maxDelayMs >= 1_000.0
  {
  }

  lemma {:induction false} DoubledMonotone(base: real, m: nat, n: nat)
    requires 0.0 <= base && m <= n
    ensures 0.0 <= Doubled(base, m) <= Doubled(base, n)
  {
    if m < n {
      DoubledMonotone(base, m, n - 1);
    } else if m > 0 {
      DoubledMonotone(base, m - 1, m - 1);
    }
  }

  lemma ScaleMonotone(a: real, b: real, k: real)
    requires a <= b && 0.0 <= k
    ensures a * k <= b * k && k * a <= k * b
  {
  }

  lemma RoundMonotone(x: real, y: real)
    requires x <= y
    ensures Round(x) <= Round(y)
  {
  }

  lemma FactorIs(p: Policy, jitter: real, j: real)
    requires j == Min(1.0, Max(0.0, jitter))
    ensures Factor(p, jitter) == 1.0 - p.jitterPercent + 2.0 * p.jitterPercent * j
  {
  }

  lemma FactorWithin(p: Policy, jitter: real)
    requires 0.0 <= p.jitterPercent
    ensures 1.0 - p.jitterPercent <= Factor(p, jitter) <= 1.0 + p.jitterPercent
  {
    var j, k := Min(1.0, Max(0.0, jitter)), 2.0 * p.jitterPercent;
    FactorIs(p, jitter, j);
    ScaleMonotone(0.0, j, k);
    ScaleMonotone(j, 1.0, k);
    assert k * 0.0 == 0.0 && k * 1.0 == k;
  }

  lemma FactorRange(p: Policy, jitter: real)
    requires 0.0 <= p.jitterPercent <= 0.25
    ensures 0.75 <= 1.0 - p.jitterPercent <= Factor(p, jitter) <= 1.0 + p.jitterPercent
  {
    FactorWithin(p, jitter);
  }

  lemma ExponentialMonotone(attempt: int, later: int, p: Policy)
    requires attempt <= later && 0.0 <= p.baseDelayMs
    ensures Exponential(attempt, p) <= Exponential(later, p)
  {
    var m := if attempt < 1 then 0 else attempt - 1;
    var n := if later < 1 then 0 else later - 1;
    DoubledMonotone(p.baseDelayMs, m, n);
  }

  lemma JitteredMonotone(attempt: int, later: int, p: Policy, jitter: real)
    requires attempt <= later && 0.0 <= p.baseDelayMs && 0.0 <= p.jitterPercent <= 0.25
    ensures Jittered(attempt, p, jitter) <= Jittered(later, p, jitter)
  {
    ExponentialMonotone(attempt, later, p);
    FactorRange(p, jitter);
    ScaleMonotone(Exponential(attempt, p), Exponential(later, p), Factor(p, jitter));
  }

  /** For a fixed jitter value a later attempt never waits less. */
  lemma DelayMonotone(raw: RawPolicy, attempt: int, later: int, jitter: real)
    requires attempt <= later
    ensures RetryDelay(attempt, Resolve(raw), jitter) <= RetryDelay(later, Resolve(raw), jitter)
  {
    var p := Resolve(raw);
    JitteredMonotone(attempt, later, p, jitter);
    RoundMonotone(Clamp(p, Jittered(attempt, p, jitter)), Clamp(p, Jittered(later, p, jitter)));
  }

  /** Rounding does not lift `x` above itself. */
  predicate RoundsDown(x: real) {
    x - x.Floor as real < 0.5
  }

  lemma RoundsDownIff(x: real)
    ensures RoundsDown(x) <==> Round(x) as real <= x
  {
    var f := x.Floor;
    if RoundsDown(x) {
      FloorIs(x + 0.5, f);
    } else {
      FloorIs(x + 0.5, f + 1);
    }
  }

  lemma FloorIs(x: real, n: int)
    requires n as real <= x < n as real + 1.0
    ensures x.Floor == n
  {
  }

  lemma TwelveDoublings(base: real)
    ensures Doubled(base, 12) == 4096.0 * base
  {
    assert Doubled(base, 1) == 2.0 * base;
    assert Doubled(base, 2) == 4.0 * base;
    assert Doubled(base, 4) == 16.0 * base;
    assert Doubled(base, 6) == 64.0 * base;
    assert Doubled(base, 8) == 256.0 * base;
    assert Doubled(base, 10) == 1024.0 * base;
  }

  lemma Stretch(attempt: int, p: Policy, jitter: real)
    requires 0.0 <= Exponential(attempt, p) && 1.0 <= Factor(p, jitter)
    ensures Exponential(attempt, p) <= Jittered(attempt, p, jitter)
  {
    ScaleMonotone(1.0, Factor(p, jitter), Exponential(attempt, p));
  }

  /** The thirteenth attempt of a resolved policy with full jitter has reached the maximum. */
  lemma SaturatesAtMax(raw: RawPolicy)
    ensures RetryDelay(13, Resolve(raw), 1.0) == Round(Resolve(raw).maxDelayMs)
  {
    var p := Resolve(raw);
    TwelveDoublings(p.baseDelayMs);
    assert Exponential(13, p) == p.maxDelayMs;
    assert 1.0 <= Factor(p, 1.0);
    if p.maxDelayMs >= 0.0 {
      Stretch(13, p, 1.0);
    }
    assert Clamp(p, Jittered(13, p, 1.0)) == p.maxDelayMs;
  }

  /**
   Every delay of a resolved policy lies in [1000, maxDelayMs] if and only if one of the raw
   delays reaches a second and the resolved maximum is one that rounding does not lift.
   */
  lemma DelayWithinBoundsIff(raw: RawPolicy)
    ensures var p := Resolve(raw);
      (forall attempt, jitter :: 1_000 <= RetryDelay(attempt, p, jitter) && RetryDelay(attempt, p, jitter) as real <= p.maxDelayMs)
      <==> (raw.baseDelayMs >= 1_000.0 || raw.maxDelayMs >= 1_000.0) && RoundsDown(p.maxDelayMs)
  {
    var p := Resolve(raw);
    BaseAtMostMaxIff(raw);
    RoundsDownIff(p.maxDelayMs);
    SaturatesAtMax(raw);
    if (raw.baseDelayMs >= 1_000.0 || raw.maxDelayMs >= 1_000.0) && RoundsDown(p.maxDelayMs) {
      forall attempt, jitter
        ensures 1_000 <= RetryDelay(attempt, p, jitter) && RetryDelay(attempt, p, jitter) as real <= p.maxDelayMs
      {
        var x := Clamp(p, Jittered(attempt, p, jitter));
        RoundMonotone(1_000.0, x);
        RoundMonotone(x, p.maxDelayMs);
      }
    } else {
      var delay := RetryDelay(13, p, 1.0);
      assert !(1_000 <= delay && delay as real <= p.maxDelayMs);
    }
  }

  function Pow2(n: nat): nat {
    if n == 0 then 1 else 2 * Pow2(n - 1)
  }

  lemma {:induction false} DoubledIsPow2(base: real, n: nat)
    ensures Doubled(base, n) == base * Pow2(n) as real
  {
    if n > 0 {
      DoubledIsPow2(base, n - 1);
    }
  }

  /** Without jitter the delay is the base doubled once for each attempt after the first, within the bounds. */
  lemma DelayDoubles(p: Policy, attempt: nat, jitter: real)
    requires attempt > 0 && p.jitterPercent == 0.0
    ensures RetryDelay(attempt, p, jitter)
      == Round(Min(p.maxDelayMs, Max(1_000.0, p.baseDelayMs * Pow2(attempt - 1) as real)))
  {
    var d, j := Doubled(p.baseDelayMs, attempt - 1), Min(1.0, Max(0.0, jitter));
    DoubledIsPow2(p.baseDelayMs, attempt - 1);
    assert Factor(p, jitter) == 1.0 by {
      FactorIs(p, jitter, j);
      assert 2.0 * p.jitterPercent == 0.0;
      assert 0.0 * j == 0.0;
    }
    assert Exponential(attempt, p) == Min(p.maxDelayMs, d);
    assert Jittered(attempt, p, jitter) == Min(p.maxDelayMs, d) * 1.0 == Min(p.maxDelayMs, d);
    ClampAbsorbs(p, d);
    assert RetryDelay(attempt, p, jitter) == Round(Clamp(p, Min(p.maxDelayMs, d)));
    assert Clamp(p, Min(p.maxDelayMs, d)) == Min(p.maxDelayMs, Max(1_000.0, d));
    assert d == p.baseDelayMs * Pow2(attempt - 1) as real;
  }

  lemma ClampAbsorbs(p: Policy, d: real)
    ensures Clamp(p, Min(p.maxDelayMs, d)) == Min(p.maxDelayMs, Max(1_000.0, d))
  {
  }

  /** Jitter spreads a delay evenly over the given fraction to either side: 0 and 1 reach the ends, one half the middle. */
  lemma JitterSpreads(p: Policy, attempt: int, jitter: real)
    requires 0.0 <= p.jitterPercent && 0.0 <= Exponential(attempt, p)
    ensures var e, spread := Exponential(attempt, p), Exponential(attempt, p) * p.jitterPercent;
      && Jittered(attempt, p, 0.0) == e - spread
      && Jittered(attempt, p, 0.5) == e
      && Jittered(attempt, p, 1.0) == e + spread
      && e - spread <= Jittered(attempt, p, jitter) <= e + spread
  {
    var e, q := Exponential(attempt, p), p.jitterPercent;
    Distribute(e, 1.0, q);
    FactorIs(p, 0.0, 0.0);
    FactorIs(p, 0.5, 0.5);
    FactorIs(p, 1.0, 1.0);
    FactorWithin(p, jitter);
    ScaleMonotone(1.0 - q, Factor(p, jitter), e);
    ScaleMonotone(Factor(p, jitter), 1.0 + q, e);
  }

  lemma Distribute(e: real, a: real, b: real)
    ensures e * (a - b) == e * a - e * b && e * (a + b) == e * a + e * b
  {
  }

  /** `y` is the point of the range that lies nearest to `x`. */
  predicate Nearest(y: real, x: real, low: real, high: real) {
    && low <= y <= high
    && (low <= x <= high ==> y == x) && (x < low ==> y == low) && (x > high ==> y == high)
  }

  /** Each override is moved into its range and no further; the maximum is never below the raw base, up to an hour. */
  lemma ResolveMovesIntoRange(raw: RawPolicy)
    ensures var p := Resolve(raw);
      && Nearest(p.baseDelayMs, raw.baseDelayMs, 1_000.0, 900_000.0)
      && Nearest(p.jitterPercent, raw.jitterPercent, 0.0, 0.25)
      && Nearest(p.maxAttempts as real, raw.maxAttempts as real, 1.0, 100.0)
      && (raw.baseDelayMs <= 3_600_000.0 && raw.maxDelayMs <= 3_600_000.0 ==>
           p.maxDelayMs == if raw.baseDelayMs <= raw.maxDelayMs then raw.maxDelayMs else raw.baseDelayMs)
      && (raw.baseDelayMs > 3_600_000.0 || raw.maxDelayMs > 3_600_000.0 ==> p.maxDelayMs == 3_600_000.0)
  {
  }

  /** Resolving twice changes nothing exactly when the first result keeps its base below its maximum. */
  lemma ResolveIdempotentIff(raw: RawPolicy)
    ensures var p := Resolve(raw);
      Resolve(RawPolicy(p.baseDelayMs, p.maxDelayMs, p.maxAttempts, p.jitterPercent)) == p
      <==> p.baseDelayMs <= p.maxDelayMs
    ensures var p := Resolve(raw);
      1_000.0 <= p.baseDelayMs <= 900_000.0 && p.maxDelayMs <= 3_600_000.0
      && 1 <= p.maxAttempts <= 100 && 0.0 <= p.jitterPercent <= 0.25
  {
  }
}
