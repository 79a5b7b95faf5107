/** When a failed provider call is repeated, and how long the loop waits before it. */
module RetryPolicies {
  import opened Wrappers

  /** What the policy looks at: an HTTP status, or whether the error is of a transient kind. */
  datatype CallError = CallError(status: Option<int>, transient: bool)

  datatype RetryDecision = RetryDecision(retry: bool, delayMs: int)

  datatype RetryPolicy = RetryPolicy(maxAttempts: int, retryableHttp: set<int>, backoffMs: nat -> int) {

    predicate Valid() {
      maxAttempts >= 1
    }

    predicate Retryable(error: CallError) {
      if error.status.Some? then error.status.value in retryableHttp else error.transient
    }

    function Decide(error: CallError, attempt: nat): RetryDecision {
      if attempt >= maxAttempts || !Retryable(error) then RetryDecision(false, 0)
      else RetryDecision(true, backoffMs(attempt))
    }

    /** Time slept before the attempts 2 to `attempts`. */
    function Slept(attempts: nat): (ms: int)
      ensures ms >= 0
    {
      if attempts <= 1 then 0
      else Slept(attempts - 1) + (if backoffMs(attempts - 1) > 0 then backoffMs(attempts - 1) else 0)
    }
  }

  function Pow2(n: nat): (p: nat)
    ensures p >= 1
  {
    if n == 0 then 1 else 2 * Pow2(n - 1)
  }

  /** Exponential backoff from a quarter of a second. */
  function DefaultBackoff(attempt: nat): int {
    if attempt == 0 then 125 else 250 * Pow2(attempt - 1)
  }

  const DEFAULT_POLICY := RetryPolicy(3, {408, 429, 500, 502, 503, 504}, DefaultBackoff)

  lemma {:induction false} Pow2Monotone(m: nat, n: nat)
    requires m <= n
    ensures Pow2(m) <= Pow2(n)
    decreases n - m
  {
    if m < n { Pow2Monotone(m + 1, n); }
  }

  lemma {:induction false} DefaultSleepSum(p: RetryPolicy, attempts: nat)
    requires p.backoffMs == DefaultBackoff && attempts >= 1
    ensures p.Slept(attempts) == 250 * (Pow2(attempts - 1) - 1)
  {
    if attempts > 1 { DefaultSleepSum(p, attempts - 1); }
  }

  /** Under the default backoff one turn sleeps at most 250 * (2^(maxAttempts - 1) - 1) milliseconds. */
  lemma DefaultSleepBound(p: RetryPolicy, attempts: nat)
    requires p.Valid() && p.backoffMs == DefaultBackoff && 1 <= attempts <= p.maxAttempts
    ensures p.Slept(attempts) <= 250 * (Pow2(p.maxAttempts - 1) - 1)
  {
    DefaultSleepSum(p, attempts);
    Pow2Monotone(attempts - 1, p.maxAttempts - 1);
  }

  /** With nothing configured a call is repeated twice, after 250 and 500 ms, on six statuses and transient errors. */
  lemma DefaultDecisions(error: CallError, attempt: nat)
    requires attempt >= 1
    ensures var decision := DEFAULT_POLICY.Decide(error, attempt);
            && (decision.retry <==> attempt < 3 && (if error.status.Some? then
                                                      error.status.value in {408, 429, 500, 502, 503, 504}
                                                    else error.transient))
            && (decision.retry ==> decision.delayMs == (if attempt == 1 then 250 else 500))
  {
    assert Pow2(0) == 1 && Pow2(1) == 2;
  }

  /** With nothing configured a turn waits at most three quarters of a second. */
  lemma DefaultPolicySleep(attempts: nat)
    requires 1 <= attempts <= DEFAULT_POLICY.maxAttempts
    ensures DEFAULT_POLICY.Slept(attempts) <= 750
  {
    DefaultSleepBound(DEFAULT_POLICY, attempts);
    assert Pow2(0) == 1 && Pow2(1) == 2 && Pow2(2) == 4;
  }
}
