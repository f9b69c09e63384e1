/** The three capped exponential delays of the worker. */
module Backoff {
  import opened Common

  const DB_ERROR_BASE_DELAY_MS: nat := 1000
  const DB_ERROR_MAX_DELAY_MS: nat := 30000
  const RECONNECT_BASE_DELAY_MS: nat := 1000
  const RECONNECT_MAX_DELAY_MS: nat := 30000
  const RETRY_BASE_DELAY_MS: nat := 2000
  const RETRY_MAX_DELAY_MS: nat := 20000

  function Pow2(n: nat): (p: nat)
    ensures p >= 1
  {
    if n == 0 then 1 else 2 * Pow2(n - 1)
  }

  /** The delay before the n-th consecutive requeue after an infrastructure error, counting from 1. */
  function ComputeDbErrorBackoffMs(consecutiveErrors: nat): nat
    requires consecutiveErrors >= 1
  {
    Min(DB_ERROR_BASE_DELAY_MS * Pow2(consecutiveErrors - 1), DB_ERROR_MAX_DELAY_MS)
  }

  /** The delay before a job's next attempt, from its attempt count after the failed one. */
  function CalculateBackoffMs(attemptCount: int): nat {
    Min(RETRY_BASE_DELAY_MS * Pow2(Max(attemptCount - 1, 0)), RETRY_MAX_DELAY_MS)
  }

  /** Clamping while doubling is the same as doubling and then clamping. */
  lemma DoubleAndClamp(base: nat, cap: nat, n: nat)
    ensures Min(2 * Min(base * Pow2(n), cap), cap) == Min(base * Pow2(n + 1), cap)
  {
    assert base * Pow2(n + 1) == 2 * (base * Pow2(n));
  }

  /** 1, 2, 4, 8 and 16 seconds, and half a minute from the sixth consecutive error on. */
  lemma ErrorSchedule(n: nat)
    requires n >= 1
    ensures ComputeDbErrorBackoffMs(n)
      == if n == 1 then 1000 else if n == 2 then 2000 else if n == 3 then 4000
         else if n == 4 then 8000 else if n == 5 then 16000 else 30000
  {
    assert Pow2(0) == 1 && Pow2(1) == 2 && Pow2(2) == 4 && Pow2(3) == 8 && Pow2(4) == 16 && Pow2(5) == 32;
    if n >= 6 {
      Pow2Grows(5, n - 1);
    }
  }

  /** The time a worker sleeps over k consecutive infrastructure errors. */
  function OutageMs(k: nat): nat {
    if k == 0 then 0 else OutageMs(k - 1) + ComputeDbErrorBackoffMs(k)
  }

  lemma {:induction false} Pow2Grows(m: nat, n: nat)
    requires m <= n
    ensures Pow2(m) <= Pow2(n)
  {
    if m < n {
      Pow2Grows(m, n - 1);
    }
  }

  /** From the fifth consecutive error on the worker is throttled to one delivery per 30 seconds. */
  lemma {:induction false} OutageThrottle(k: nat)
    requires k >= 5
    ensures OutageMs(k) == 31000 + 30000 * (k - 5)
  {
    if k == 5 {
      assert Pow2(1) == 2 && Pow2(2) == 4 && Pow2(3) == 8 && Pow2(4) == 16;
      assert OutageMs(1) == 1000;
      assert OutageMs(2) == 3000;
      assert OutageMs(3) == 7000;
      assert OutageMs(4) == 15000;
    } else {
      OutageThrottle(k - 1);
      assert Pow2(2) == 4 && Pow2(3) == 8 && Pow2(4) == 16 && Pow2(5) == 32;
      Pow2Grows(5, k - 1);
    }
  }

  /** A job retried on every attempt of a default cycle waits 2, 4, 8 and 16 seconds; no later wait passes 20. */
  lemma RetrySchedule(attemptCount: int)
    ensures CalculateBackoffMs(1) == 2000 && CalculateBackoffMs(2) == 4000
    ensures CalculateBackoffMs(3) == 8000 && CalculateBackoffMs(4) == 16000
    ensures attemptCount >= 5 ==> CalculateBackoffMs(attemptCount) == 20000
    ensures attemptCount <= 1 ==> CalculateBackoffMs(attemptCount) == 2000
  {
    assert Pow2(0) == 1 && Pow2(1) == 2 && Pow2(2) == 4 && Pow2(3) == 8 && Pow2(4) == 16;
    if attemptCount >= 5 {
      Pow2Grows(4, attemptCount - 1);
    }
  }
}
