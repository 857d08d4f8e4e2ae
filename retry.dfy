/** The bounded retry loop with linear backoff that appears twice in the
    repository: `postAiWithRetry` in src/engine/aiClient.ts and
    `callGeminiWithRetry` in api/ai.ts. The remote call is abstracted as the
    outcome of each numbered attempt; the waits are returned as a schedule
    instead of being slept. */
module Retry {
  import opened Wrappers

  /** What the k-th call did: resolved with a value or threw an error. */
  datatype Attempt<T, E> = Resolved(value: T) | Threw(error: E)

  /** `throw lastError ?? new Error(...)`: the last error, or a fresh one when
      no attempt was made at all. */
  datatype RetryError<E> = LastError(error: E) | NoAttemptMade

  function Max0(n: int): nat {
    if n > 0 then n else 0
  }

  /** The backoff schedule after n failures: base, 2*base, ..., n*base. */
  function Backoff(base: int, n: nat): (s: seq<int>)
    ensures |s| == n && forall k :: 0 <= k < n ==> s[k] == base * (k + 1)
  {
    seq(n, k => base * (k + 1))
  }

  /** Attempts 1..n all threw. */
  predicate FailedThrough<T, E>(call: nat -> Attempt<T, E>, n: int) {
    forall k :: 1 <= k <= n ==> call(k).Threw?
  }

  /** Calls attempt 1, 2, ... up to `attempts` and returns the first value that
      resolves. After the k-th failure it waits `delayMs * k`, except after the
      last attempt; when every attempt fails the last error is re-thrown. */
  method WithRetry<T, E>(call: nat -> Attempt<T, E>, attempts: int, delayMs: int)
    returns (result: Result<T, RetryError<E>>, calls: nat, waits: seq<int>)
    ensures calls <= Max0(attempts)
    ensures FailedThrough(call, calls - 1)
    ensures result.Failure? <==> FailedThrough(call, attempts)
    ensures result.Success? ==>
              calls >= 1 && call(calls) == Resolved(result.value) && waits == Backoff(delayMs, calls - 1)
    ensures result.Failure? ==>
              calls == Max0(attempts) && waits == Backoff(delayMs, Max0(attempts - 1)) &&
              result.error == (if attempts >= 1 then LastError(call(attempts).error) else NoAttemptMade)
  {
    var lastError: Option<E> := None;
    waits := [];
    calls := 0;
    var attempt := 1;
    while attempt <= attempts
      invariant 1 <= attempt <= Max0(attempts) + 1
      invariant calls == attempt - 1
      invariant FailedThrough(call, attempt - 1)
      invariant waits == Backoff(delayMs, if attempt <= attempts then attempt - 1 else Max0(attempts - 1))
      invariant lastError == if attempt == 1 then None else Some(call(attempt - 1).error)
    {
      calls := calls + 1;
      var outcome := call(attempt);
      if outcome.Resolved? {
        result := Success(outcome.value);
        assert !FailedThrough(call, attempts) by { assert !call(attempt).Threw?; }
        return;
      }
      lastError := Some(outcome.error);
      if attempt < attempts {
        waits := waits + [delayMs * attempt];
      }
      attempt := attempt + 1;
    }
    result := Failure(match lastError case Some(e) => LastError(e) case None => NoAttemptMade);
  }
}
