/** The retry decision and the backoff arithmetic. */
module Retry {
  import opened Wrappers
  import opened Errors

  datatype RetryConfig = RetryConfig(maxRetries: nat, baseDelay: real, maxDelay: real, factor: real, jitter: bool) {
    predicate Valid() {
      maxRetries <= 10 && baseDelay > 0.0 && maxDelay > 0.0 && factor > 1.0
    }

    /** No computed delay exceeds this. */
    function Ceiling(): real {
      1.25 * maxDelay
    }
  }

  predicate ShouldRetry(error: ApiError, attempt: nat, cfg: RetryConfig, idempotent: bool) {
    if attempt > cfg.maxRetries then false
    else if error.IsRateLimit() then error.IsRetryable()
    else if !idempotent then false
    else if error.IsSpooled() then error.IsRetryable()
    else true
  }

  /** A write that may have reached the server is retried only after a rate limit that is no plan limit. */
  lemma UnsafeRetriesOnlyRateLimits(error: ApiError, attempt: nat, cfg: RetryConfig)
    ensures ShouldRetry(error, attempt, cfg, false) <==> attempt <= cfg.maxRetries && error.RateLimitError?
    ensures ShouldRetry(error, attempt, cfg, true) <==> attempt <= cfg.maxRetries && error.Counts()
  {
  }

  function Power(x: real, n: nat): real {
    if n == 0 then 1.0 else x * Power(x, n - 1)
  }

  function Min(x: real, y: real): real {
    if x <= y then x else y
  }

  function Backoff(attempt: nat, cfg: RetryConfig): real
    requires attempt >= 1
  {
    Min(cfg.baseDelay * Power(cfg.factor, attempt - 1), cfg.maxDelay)
  }

  lemma {:induction false} PowerAtLeastOne(x: real, n: nat)
    requires x > 1.0
    ensures Power(x, n) >= 1.0
  {
    if n > 0 {
      PowerAtLeastOne(x, n - 1);
      assert x * Power(x, n - 1) >= 1.0 * Power(x, n - 1);
    }
  }

  lemma PowerGrows(x: real, n: nat)
    requires x > 1.0
    ensures 1.0 <= Power(x, n) <= Power(x, n + 1)
  {
    PowerAtLeastOne(x, n);
    MulMonotone(Power(x, n), 1.0, x);
  }

  /** Backoff never shrinks from one attempt to the next, starts at the base delay and stays within its cap. */
  lemma BackoffGrows(attempt: nat, cfg: RetryConfig)
    requires attempt >= 1 && cfg.Valid()
    ensures 0.0 < Backoff(attempt, cfg) <= Backoff(attempt + 1, cfg) <= cfg.maxDelay
    ensures Backoff(1, cfg) == Min(cfg.baseDelay, cfg.maxDelay)
  {
    PowerGrows(cfg.factor, attempt - 1);
    Ordered(cfg.baseDelay, Power(cfg.factor, attempt - 1), Power(cfg.factor, attempt), cfg.maxDelay);
    assert Backoff(1, cfg) == Min(cfg.baseDelay * 1.0, cfg.maxDelay);
  }

  /** Each backoff is the one before times the factor, up to the cap. */
  lemma BackoffMultiplies(attempt: nat, cfg: RetryConfig)
    requires attempt >= 1 && cfg.Valid()
    ensures Backoff(attempt + 1, cfg) == Min(cfg.factor * Backoff(attempt, cfg), cfg.maxDelay)
  {
    var p := Power(cfg.factor, attempt - 1);
    var b := cfg.baseDelay * p;
    assert cfg.baseDelay * (cfg.factor * p) == cfg.factor * b;
    PowerAtLeastOne(cfg.factor, attempt - 1);
    MulMonotone(cfg.baseDelay, 1.0, p);
    Capped(cfg.factor, b, cfg.maxDelay);
  }

  lemma Capped(x: real, b: real, cap: real)
    requires x > 1.0 && b > 0.0 && cap > 0.0
    ensures Min(x * b, cap) == Min(x * Min(b, cap), cap)
  {
    if b > cap {
      MulMonotone(cap, 1.0, x);
      MulMonotone(b, 1.0, x);
    }
  }

  lemma Ordered(b: real, p: real, q: real, cap: real)
    requires b > 0.0 && cap > 0.0 && 1.0 <= p <= q
    ensures 0.0 < Min(b * p, cap) <= Min(b * q, cap) <= cap
  {
    MulMonotone(b, 1.0, p);
    MulMonotone(b, p, q);
  }

  lemma MulMonotone(x: real, y: real, z: real)
    requires x > 0.0 && y <= z
    ensures x * y <= x * z
  {
    assert x * (z - y) >= 0.0;
    assert x * (z - y) == x * z - x * y;
  }

  /** The wait before the next attempt; jitter adds up to a quarter. */
  method CalculateDelay(attempt: nat, cfg: RetryConfig, retryAfter: Option<nat>) returns (delay: real)
    requires attempt >= 1 && cfg.Valid()
    ensures 0.0 < delay <= cfg.Ceiling()
    ensures retryAfter.Some? && retryAfter.value > 0 ==> delay == Min(retryAfter.value as real, cfg.maxDelay)
    ensures !(retryAfter.Some? && retryAfter.value > 0) ==>
      Backoff(attempt, cfg) <= delay <= (if cfg.jitter then 1.25 else 1.0) * Backoff(attempt, cfg)
  {
    BackoffGrows(attempt, cfg);
    if retryAfter.Some? && retryAfter.value > 0 {
      return Min(retryAfter.value as real, cfg.maxDelay);
    }
    delay := cfg.baseDelay * Power(cfg.factor, attempt - 1);
    delay := Min(delay, cfg.maxDelay);
    if cfg.jitter {
      var range := delay * 0.25;
      var jitter: real :| 0.0 <= jitter <= range;
      delay := delay + jitter;
    }
  }
}
