/** The data-fetching client's retry policy (src/utils/queryClient.js). */
module QueryClient {

  /** The largest wait before a retry, in milliseconds. */
  const MaxRetryDelay: nat := 30000

  /** Queries retry once; mutations never. */
  const QueryRetry: nat := 1
  const MutationRetry: nat := 0

  function Pow2(n: nat): (r: nat)
    ensures r >= 1
  {
    if n == 0 then 1 else 2 * Pow2(n - 1)
  }

  /** `Math.min(1000 * 2 ** attemptIndex, 30000)` */
  function RetryDelay(attempt: nat): (r: nat)
    ensures 1000 <= r <= MaxRetryDelay
  {
    var d := 1000 * Pow2(attempt);
    if d < MaxRetryDelay then d else MaxRetryDelay
  }

  lemma {:induction false} Pow2Monotone(m: nat, n: nat)
    requires m <= n
    ensures Pow2(m) <= Pow2(n)
  {
    if m < n {
      Pow2Monotone(m, n - 1);
    }
  }

  /** The delay never shrinks from one attempt to the next. */
  lemma RetryDelayMonotone(m: nat, n: nat)
    requires m <= n
    ensures RetryDelay(m) <= RetryDelay(n)
  {
    Pow2Monotone(m, n);
  }

  /** The delay doubles from 1 s for the first five attempts, then stays
      at the 30 s cap. */
  lemma RetryDelaySchedule(n: nat)
    ensures RetryDelay(0) == 1000
    ensures n <= 4 ==> RetryDelay(n) == 1000 * Pow2(n)
    ensures n >= 5 ==> RetryDelay(n) == MaxRetryDelay
  {
    assert Pow2(4) == 16;
    if n <= 4 {
      Pow2Monotone(n, 4);
    } else {
      assert Pow2(5) == 32;
      Pow2Monotone(5, n);
    }
  }

  /** A failed request is retried while fewer than `retry` failures have
      been seen. */
  predicate ShouldRetry(retry: nat, failureCount: nat)
  {
    failureCount < retry
  }

  /** A query runs at most twice; a mutation runs once. */
  lemma RetryCounts(failureCount: nat)
    ensures ShouldRetry(QueryRetry, failureCount) <==> failureCount == 0
    ensures !ShouldRetry(MutationRetry, failureCount)
  {
  }
}
