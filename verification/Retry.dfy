/** internal/delivery/retry.go: the capped exponential delay and the retry cut-off. */
module Retry {

  const SECOND: int := 1000
  const CAP: int := 300

  function Pow2(n: nat): (p: nat)
    ensures p > 0
  {
    if n == 0 then 1 else 2 * Pow2(n - 1)
  }

  /** Delay in milliseconds before the retry that follows the given attempt. */
  function Backoff(attempt: nat): (ms: nat)
    ensures 0 < ms <= CAP * SECOND
  {
    var delay := Pow2(attempt);
    SECOND * (if delay > CAP then CAP else delay)
  }

  function RetryAt(now: int, attempt: nat): int {
    now + Backoff(attempt)
  }

  predicate ShouldRetry(attemptCount: int, maxRetries: int) {
    attemptCount < maxRetries
  }

  lemma {:induction false} Pow2Monotone(m: nat, n: nat)
    requires m <= n
    ensures Pow2(m) <= Pow2(n)
  {
    if m < n {
      Pow2Monotone(m, n - 1);
    }
  }

  /** The delay never shrinks from one attempt to the next, and stays at its cap from the ninth on. */
  lemma BackoffShape(m: nat, n: nat)
    requires m <= n
    ensures Backoff(m) <= Backoff(n)
    ensures Backoff(n) == CAP * SECOND <==> n >= 9
  {
    Pow2Monotone(m, n);
    assert Pow2(8) == 256 && Pow2(9) == 512;
    if n >= 9 {
      Pow2Monotone(9, n);
    } else {
      Pow2Monotone(n, 8);
    }
  }

  /** The delays that separate the first attempt's failure from the start of attempt k. */
  function TotalBackoff(k: nat): nat {
    if k <= 1 then 0 else TotalBackoff(k - 1) + Backoff(k - 1)
  }

  lemma {:induction false} TotalBackoffClosedForm(k: nat)
    requires k >= 1
    ensures TotalBackoff(k) == if k <= 9 then (Pow2(k) - 2) * SECOND else (510 + 300 * (k - 9)) * SECOND
  {
    if k > 1 {
      TotalBackoffClosedForm(k - 1);
      assert Pow2(9) == 512;
      if k <= 9 {
        Pow2Monotone(k - 1, 8);
        assert Pow2(8) == 256;
      } else {
        Pow2Monotone(9, k - 1);
      }
    }
  }
}
