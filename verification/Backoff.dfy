/**
 The bounded exponential backoff of the outbox
 (packages/database/src/outbox-service.ts). JavaScript numbers are `real` here.
 */
module Backoff {
  /** A resolved policy. */
  datatype Policy = Policy(baseDelayMs: real, maxDelayMs: real, maxAttempts: int, jitterPercent: real)

  /** The overrides merged over the defaults, before any bound is applied. */
  datatype RawPolicy = RawPolicy(baseDelayMs: real, maxDelayMs: real, maxAttempts: int, jitterPercent: real)

  function Min(a: real, b: real): real { if a <= b then a else b }
  function Max(a: real, b: real): real { if a >= b then a else b }

  function Resolve(raw: RawPolicy): Policy {
    Policy(
      Min(900_000.0, Max(1_000.0, raw.baseDelayMs)),
      Min(3_600_000.0, Max(raw.baseDelayMs, raw.maxDelayMs)),
      if raw.maxAttempts < 1 then 1 else if raw.maxAttempts > 100 then 100 else raw.maxAttempts,
      Min(0.25, Max(0.0, raw.jitterPercent)))
  }

  /** `base * 2 ** n`. */
  function Doubled(base: real, n: nat): real { if n == 0 then base else 2.0 * Doubled(base, n - 1) }

  /** `Math.round`: the nearest integer, halves upwards. */
  function Round(x: real): int { (x + 0.5).Floor }

  function Exponential(attempt: int, p: Policy): real {
    Min(p.maxDelayMs, Doubled(p.baseDelayMs, if attempt < 1 then 0 else attempt - 1))
  }

  function Factor(p: Policy, jitter: real): real {
    1.0 - p.jitterPercent + 2.0 * p.jitterPercent * Min(1.0, Max(0.0, jitter))
  }

  function Jittered(attempt: int, p: Policy, jitter: real): real {
    Exponential(attempt, p) * Factor(p, jitter)
  }

  function Clamp(p: Policy, delay: real): real {
    Min(p.maxDelayMs, Max(1_000.0, delay))
  }

  function RetryDelay(attempt: int, p: Policy, jitter: real): int {
    Round(Clamp(p, Jittered(attempt, p, jitter)))
  }
}
