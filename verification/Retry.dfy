/** Retrying with exponential backoff (`RetryConfig` and `probe_with_retry` in
    `downloader.rs`). Durations are in nanoseconds. */
module Retry {
  import opened Basics

  const SECOND: nat := 1_000_000_000
  const DURATION_MAX: nat := U64_LIMIT * SECOND - 1
  const DEFAULT_BACKOFF_INITIAL: nat := 100_000_000
  const DEFAULT_BACKOFF_MAX: nat := 3 * SECOND

  datatype RetryConfig = RetryConfig(maxRetries: u32, backoffInitial: nat, backoffMax: nat) {

    /** A zero maximum is replaced by the default before it is compared with the
        initial delay, and the default is not compared at all. */
    function Normalized(): RetryConfig {
      var initial := if backoffInitial == 0 then DEFAULT_BACKOFF_INITIAL else backoffInitial;
      RetryConfig(maxRetries, initial, if backoffMax == 0 then DEFAULT_BACKOFF_MAX else Max(backoffMax, initial))
    }

    function MaxAttempts(): u32 {
      Max(Min(maxRetries + 1, 0xFFFF_FFFF), 1)
    }

    predicate Ordered() {
      0 < backoffInitial <= backoffMax
    }
  }

  // ---- normalization ----

  /** One call is enough exactly if a maximum was given or the default one is
      not below the initial delay. */
  lemma OneCallOrders(c: RetryConfig)
    ensures c.Normalized().Ordered() <==> c.backoffMax != 0 || c.backoffInitial <= DEFAULT_BACKOFF_MAX
  {
  }

  lemma OneCallMayNotOrder()
    ensures !RetryConfig(4, 10 * SECOND, 0).Normalized().Ordered()
    ensures RetryConfig(4, 10 * SECOND, 0).Normalized() != RetryConfig(4, 10 * SECOND, 0).Normalized().Normalized()
  {
    assert RetryConfig(4, 10 * SECOND, 0).Normalized().backoffMax == DEFAULT_BACKOFF_MAX;
  }

  /** Normalizing fills in what is missing and raises a maximum that is too small;
      nothing else changes. */
  lemma NormalizedKeepsGiven(c: RetryConfig)
    ensures c.Normalized().maxRetries == c.maxRetries
    ensures c.backoffInitial > 0 ==> c.Normalized().backoffInitial == c.backoffInitial
    ensures c.backoffInitial == 0 ==> c.Normalized().backoffInitial == 100_000_000
    ensures c.backoffMax == 0 ==> c.Normalized().backoffMax == 3_000_000_000
    ensures c.backoffMax > 0 ==>
              c.backoffMax <= c.Normalized().backoffMax
              && (c.Normalized().backoffMax == c.backoffMax
                  || c.Normalized().backoffMax == c.Normalized().backoffInitial)
    ensures 0 < c.backoffInitial <= c.backoffMax ==> c.Normalized() == c
  {
  }

  /** One attempt, and one more for each retry, as far as 32 bits go. */
  lemma AttemptsAreRetriesPlusOne(c: RetryConfig)
    ensures c.maxRetries < 0xffff_ffff ==> c.MaxAttempts() == c.maxRetries + 1
    ensures c.maxRetries == 0xffff_ffff ==> c.MaxAttempts() == c.maxRetries
  {
  }

  /** The handle, the run and the retry loop each normalize once; from the second
      call on the delays are ordered and nothing changes any more. */
  lemma TwoCallsSettle(c: RetryConfig)
    ensures c.Normalized().Normalized().Ordered()
    ensures c.Normalized().Normalized().Normalized() == c.Normalized().Normalized()
    ensures c.Normalized().Normalized().MaxAttempts() == c.MaxAttempts()
  {
  }

  // ---- the loop ----

  function Pow2(k: nat): (p: nat)
    ensures p > 0
  {
    if k == 0 then 1 else 2 * Pow2(k - 1)
  }

  /** The k-th delay, counting from zero. */
  function Delay(c: RetryConfig, k: nat): nat {
    if k == 0 then c.backoffInitial else Min(c.backoffInitial * Pow2(k), c.backoffMax)
  }

  lemma NextDelay(c: RetryConfig, k: nat)
    ensures Min(Delay(c, k) * 2, c.backoffMax) == Delay(c, k + 1)
  {
    assert c.backoffInitial * Pow2(k + 1) == 2 * (c.backoffInitial * Pow2(k));
  }

  /** What the n-th attempt yields, and whether a cancellation is seen before it. */
  datatype World<T> = World(answer: nat -> Result<T>, cancelled: nat -> bool)

  predicate GoesOn<T>(world: World<T>, attempts: nat, n: nat) {
    !world.cancelled(n) && world.answer(n).Failure? && n < attempts
    && (world.answer(n).error.Network? || world.answer(n).error.RetryableHttpStatus?)
  }

  /** `n` is the first attempt that ends the loop. */
  predicate EndsAt<T>(world: World<T>, attempts: nat, n: nat) {
    1 <= n <= attempts && !GoesOn(world, attempts, n) && forall k | 1 <= k < n :: GoesOn(world, attempts, k)
  }

  /** The retry loop. It always ends inside, at the first attempt that succeeds,
      fails for good or is the last one; the error behind the loop is never
      reached. `n` is the number of attempts it considered. */
  method RunWithRetry<T>(config: RetryConfig, world: World<T>) returns (r: Result<T>, delays: seq<nat>, n: nat)
    ensures var c := config.Normalized();
            (forall k | 0 <= k < |delays| :: delays[k] == Delay(c, k))
            && 1 <= n <= c.MaxAttempts() && |delays| <= n
            && (forall k | 1 <= k < n :: GoesOn(world, c.MaxAttempts(), k))
            && (r != Failure(Panic) ==> |delays| == n - 1 && EndsAt(world, c.MaxAttempts(), n)
                                        && r == if world.cancelled(n) then Failure(Cancelled) else world.answer(n))
            && (r == Failure(Panic) ==> r == world.answer(n) || (|delays| == n && delays[n - 1] * 2 > DURATION_MAX))
  {
    var c := config.Normalized();
    var delay: nat := c.backoffInitial;
    delays := [];
    n := 1;
    assert Pow2(0) == 1;
    while n <= c.MaxAttempts()
      invariant 1 <= n <= c.MaxAttempts() && |delays| == n - 1
      invariant delay == Delay(c, n - 1) && forall k | 0 <= k < |delays| :: delays[k] == Delay(c, k)
      invariant forall k | 1 <= k < n :: GoesOn(world, c.MaxAttempts(), k)
      decreases c.MaxAttempts() - n
    {
      if world.cancelled(n) {
        return Failure(Cancelled), delays, n;
      }
      var answer := world.answer(n);
      if answer.Success? || !(IsRetryable(answer.error) && n < c.MaxAttempts()) {
        return answer, delays, n;
      }
      delays := delays + [delay];
      if delay * 2 > DURATION_MAX {
        return Failure(Panic), delays, n;
      }
      NextDelay(c, n - 1);
      delay := Min(delay * 2, c.backoffMax);
      n := n + 1;
    }
    assert false;
  }

  /** Delays never shrink and never pass the maximum. */
  lemma {:induction false} DelaysGrow(c: RetryConfig, j: nat, k: nat)
    requires c.Ordered() && j <= k
    ensures c.backoffInitial <= Delay(c, j) <= Delay(c, k) <= c.backoffMax
    decreases k
  {
    assert Pow2(0) == 1;
    if j < k {
      DelaysGrow(c, j, k - 1);
      NextDelay(c, k - 1);
    } else if k > 0 {
      DelaysGrow(c, k - 1, k - 1);
      NextDelay(c, k - 1);
    }
  }
}
