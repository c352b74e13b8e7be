/**
 * `retry_loop`: calls a function up to `max_retries` times. A return ends
 * the loop with that value; an API error (a rate limit among them) is
 * retried after a sleep of `base_delay * 2**attempt` plus jitter, except
 * after the last attempt, when it is raised again; any other exception
 * propagates at once. With no attempts at all the loop raises its own
 * "max retries exceeded" error.
 *
 * The function is an oracle: `func(k)` is what its k-th call (from 0)
 * returns or raises. The jitter is an oracle too: `jitter(k)` is the random
 * amount added to the k-th sleep. Sleeping is recorded, not performed.
 */
module Retry {
  import opened Wrappers

  const ERROR_MAX_RETRY: string := "max retries exceeded"

  /** The exceptions the loop catches and retries. */
  predicate Retryable<T>(outcome: Result<T>)
  {
    outcome.Err? && outcome.error.ApiError?
  }

  /** `2**k`. */
  function Pow2(k: nat): (r: nat)
    ensures r >= 1
  {
    if k == 0 then 1 else 2 * Pow2(k - 1)
  }

  /** The number of calls made from attempt `attempt` on (counting the earlier ones). */
  function CallsFrom<T>(func: nat -> Result<T>, maxRetries: int, attempt: nat): nat
    decreases maxRetries - attempt
  {
    if attempt >= maxRetries then attempt
    else if !Retryable(func(attempt)) || attempt == maxRetries - 1 then attempt + 1
    else CallsFrom(func, maxRetries, attempt + 1)
  }

  /** From an attempt inside the budget, the calls end at the first decisive outcome or at the budget. */
  lemma {:induction false} CallsFromShape<T>(func: nat -> Result<T>, maxRetries: int, attempt: nat)
    requires attempt < maxRetries
    ensures attempt < CallsFrom(func, maxRetries, attempt) <= maxRetries
    ensures forall k :: attempt <= k < CallsFrom(func, maxRetries, attempt) - 1 ==> Retryable(func(k))
    ensures CallsFrom(func, maxRetries, attempt) < maxRetries ==>
              !Retryable(func(CallsFrom(func, maxRetries, attempt) - 1))
    decreases maxRetries - attempt
  {
    if Retryable(func(attempt)) && attempt != maxRetries - 1 {
      CallsFromShape(func, maxRetries, attempt + 1);
    }
  }

  /**
   * How many times the loop calls the function: none without a budget;
   * otherwise every call but the last raised a retryable error, the budget
   * is never exceeded, and stopping early means the last call was decisive.
   */
  function RetryCalls<T>(func: nat -> Result<T>, maxRetries: int): (n: nat)
    ensures maxRetries <= 0 ==> n == 0
    ensures maxRetries > 0 ==> 1 <= n <= maxRetries
    ensures forall k :: 0 <= k < n - 1 ==> Retryable(func(k))
    ensures 0 < n < maxRetries ==> !Retryable(func(n - 1))
  {
    if maxRetries <= 0 then 0
    else
      CallsFromShape(func, maxRetries, 0);
      CallsFrom(func, maxRetries, 0)
  }

  /**
   * What the loop returns or raises: the outcome of its last call (a value,
   * an exception that is not retried, or the last retryable exception once
   * the budget is spent), or `exhausted` when no call was made.
   */
  function RetryResult<T>(func: nat -> Result<T>, maxRetries: int, exhausted: Error): (r: Result<T>)
    ensures maxRetries <= 0 ==> r == Err(exhausted)
    ensures maxRetries > 0 && !Retryable(r) ==>
      exists n :: 0 <= n < maxRetries && r == func(n) && forall k :: 0 <= k < n ==> Retryable(func(k))
    ensures maxRetries > 0 && Retryable(r) ==>
      r == func(maxRetries - 1) && forall k :: 0 <= k < maxRetries ==> Retryable(func(k))
  {
    if maxRetries <= 0 then Err(exhausted) else func(RetryCalls(func, maxRetries) - 1)
  }

  /** The sleeps before attempts 1 .. n: doubling base delays plus their jitter. */
  predicate BackoffSleeps(sleeps: seq<real>, baseDelay: real, jitter: nat -> real, n: nat)
  {
    |sleeps| == n && forall k :: 0 <= k < n ==> sleeps[k] == baseDelay * Pow2(k) as real + jitter(k)
  }

  /**
   * `retry_loop` with the error it raises when no attempt was made: the
   * loop's outcome, its number of calls and the sleeps between them.
   */
  method RetryLoop<T>(func: nat -> Result<T>, maxRetries: int, baseDelay: real, jitter: nat -> real, exhausted: Error)
    returns (r: Result<T>, calls: nat, sleeps: seq<real>)
    ensures calls == RetryCalls(func, maxRetries)
    ensures r == RetryResult(func, maxRetries, exhausted)
    ensures BackoffSleeps(sleeps, baseDelay, jitter, if calls == 0 then 0 else calls - 1)
  {
    calls := 0;
    sleeps := [];
    var last: Option<Error> := None;
    var attempt := 0;
    while attempt < maxRetries
      invariant calls == attempt
      invariant attempt > 0 ==> attempt < maxRetries
      invariant forall k :: 0 <= k < attempt ==> Retryable(func(k))
      invariant attempt == 0 ==> last.None?
      invariant attempt > 0 ==> last == Some(func(attempt - 1).error)
      invariant attempt > 0 ==> CallsFrom(func, maxRetries, 0) == CallsFrom(func, maxRetries, attempt)
      invariant BackoffSleeps(sleeps, baseDelay, jitter, attempt)
      decreases maxRetries - attempt
    {
      var outcome := func(attempt);
      calls := calls + 1;
      if !Retryable(outcome) {
        r := outcome;
        return;
      }
      last := Some(outcome.error);
      if attempt == maxRetries - 1 {
        break;
      }
      sleeps := sleeps + [baseDelay * Pow2(attempt) as real + jitter(attempt)];
      attempt := attempt + 1;
    }
    r := if last.Some? then Err(last.value) else Err(exhausted);
  }

  /** `n` retryable failures and then a value, within the budget: `n + 1` calls and that value. */
  lemma SuccessAfterFailures<T>(func: nat -> Result<T>, maxRetries: int, n: nat)
    requires n < maxRetries
    requires forall k :: 0 <= k < n ==> Retryable(func(k))
    requires func(n).Ok?
    ensures RetryCalls(func, maxRetries) == n + 1
    ensures RetryResult(func, maxRetries, MaxRetriesExceededError(ERROR_MAX_RETRY)) == func(n)
  {
  }

  /** An exception that is not retried ends the loop at once and is raised as it is. */
  lemma OtherErrorPropagates<T>(func: nat -> Result<T>, maxRetries: int, n: nat)
    requires n < maxRetries
    requires forall k :: 0 <= k < n ==> Retryable(func(k))
    requires func(n).Err? && !func(n).error.ApiError?
    ensures RetryCalls(func, maxRetries) == n + 1
    ensures RetryResult(func, maxRetries, MaxRetriesExceededError(ERROR_MAX_RETRY)) == Err(func(n).error)
  {
  }

  /** When every attempt fails retryably, all are made and the last error is raised again. */
  lemma ExhaustionReraisesLast<T>(func: nat -> Result<T>, maxRetries: int, exhausted: Error)
    requires maxRetries > 0
    requires forall k :: 0 <= k < maxRetries ==> Retryable(func(k))
    ensures RetryCalls(func, maxRetries) == maxRetries
    ensures RetryResult(func, maxRetries, exhausted) == func(maxRetries - 1)
  {
  }

  /** The error of its own is raised only when there was no attempt at all. */
  lemma OwnErrorOnlyWithoutAttempts<T>(func: nat -> Result<T>, maxRetries: int)
    ensures RetryResult(func, maxRetries, MaxRetriesExceededError(ERROR_MAX_RETRY)) == Err(MaxRetriesExceededError(ERROR_MAX_RETRY))
            <==> maxRetries <= 0 || func(RetryCalls(func, maxRetries) - 1) == Err(MaxRetriesExceededError(ERROR_MAX_RETRY))
  {
  }

  /** `llmcore.utils.retry_loop`: out of attempts without any, it raises MaxRetriesExceededError. */
  method CoreRetryLoop<T>(func: nat -> Result<T>, maxRetries: int, baseDelay: real, jitter: nat -> real)
    returns (r: Result<T>, calls: nat, sleeps: seq<real>)
    ensures calls == RetryCalls(func, maxRetries)
    ensures r == RetryResult(func, maxRetries, MaxRetriesExceededError(ERROR_MAX_RETRY))
    ensures BackoffSleeps(sleeps, baseDelay, jitter, if calls == 0 then 0 else calls - 1)
  {
    r, calls, sleeps := RetryLoop(func, maxRetries, baseDelay, jitter, MaxRetriesExceededError(ERROR_MAX_RETRY));
  }

  /** `llm.utils.retry_loop`: the same loop, raising RuntimeError when no attempt was made. */
  method LegacyRetryLoop<T>(func: nat -> Result<T>, maxRetries: int, baseDelay: real, jitter: nat -> real)
    returns (r: Result<T>, calls: nat, sleeps: seq<real>)
    ensures calls == RetryCalls(func, maxRetries)
    ensures r == RetryResult(func, maxRetries, RuntimeError(ERROR_MAX_RETRY))
    ensures BackoffSleeps(sleeps, baseDelay, jitter, if calls == 0 then 0 else calls - 1)
  {
    r, calls, sleeps := RetryLoop(func, maxRetries, baseDelay, jitter, RuntimeError(ERROR_MAX_RETRY));
  }

  /** The two loops agree whenever at least one attempt is allowed. */
  lemma LoopsAgreeWithABudget<T>(func: nat -> Result<T>, maxRetries: int)
    requires maxRetries > 0
    ensures RetryResult(func, maxRetries, MaxRetriesExceededError(ERROR_MAX_RETRY)) ==
            RetryResult(func, maxRetries, RuntimeError(ERROR_MAX_RETRY))
  {
  }
}
