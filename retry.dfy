/** `retry_with_backoff` and `is_retryable_error`: how a failing request is retried. The operation
    is abstract (`op(k)` is what the `k`-th call, counted from zero, does), the random jitter is an
    abstract draw in [0, 1] per attempt, and sleeping is recorded as the list of waits. */
module Retry {
  import opened Wrappers
  import opened PyText

  /** `x ** k` for a natural exponent. */
  function Pow(x: real, k: nat): (r: real)
    ensures x >= 0.0 ==> r >= 0.0
    ensures x >= 1.0 ==> r >= 1.0
  {
    if k == 0 then 1.0 else x * Pow(x, k - 1)
  }

  /** The delay before retrying after failed attempt `k`, before jitter. */
  function Delay(baseDelay: real, backoffFactor: real, k: nat): real {
    baseDelay * Pow(backoffFactor, k)
  }

  /** The wait after failed attempt `k`: the delay plus, with jitter, `uniform(0, delay * 0.1)`,
      whose random fraction is `draw(k)`. */
  function Wait(baseDelay: real, backoffFactor: real, jitter: bool, draw: nat -> real, k: nat): real {
    var d := Delay(baseDelay, backoffFactor, k);
    if jitter then d + d * 0.1 * draw(k) else d
  }

  /** Every wait is the exponential delay plus at most ten percent of it, and exactly the delay
      without jitter. */
  lemma WaitBounds(baseDelay: real, backoffFactor: real, jitter: bool, draw: nat -> real, k: nat)
    requires baseDelay >= 0.0 && backoffFactor >= 0.0 && 0.0 <= draw(k) <= 1.0
    ensures var d, w := Delay(baseDelay, backoffFactor, k), Wait(baseDelay, backoffFactor, jitter, draw, k);
      d <= w <= d + d * 0.1
    ensures !jitter ==> Wait(baseDelay, backoffFactor, jitter, draw, k) == Delay(baseDelay, backoffFactor, k)
  {
    var d := Delay(baseDelay, backoffFactor, k);
    NonNegative(baseDelay, Pow(backoffFactor, k));
    ScaleFraction(d * 0.1, draw(k));
    var extra := d * 0.1 * draw(k);
    assert 0.0 <= extra <= d * 0.1;
    assert Wait(baseDelay, backoffFactor, jitter, draw, k) == if jitter then d + extra else d;
  }

  lemma NonNegative(a: real, b: real)
    requires a >= 0.0 && b >= 0.0
    ensures a * b >= 0.0
  {
  }

  lemma ScaleFraction(a: real, u: real)
    requires a >= 0.0 && 0.0 <= u <= 1.0
    ensures 0.0 <= a * u <= a
  {
  }

  /** With a factor of at least one the delays never shrink, and each is the previous one times
      the factor. */
  lemma DelayGrowth(baseDelay: real, backoffFactor: real, k: nat)
    requires baseDelay >= 0.0 && backoffFactor >= 1.0
    ensures Delay(baseDelay, backoffFactor, k + 1) == Delay(baseDelay, backoffFactor, k) * backoffFactor
    ensures Delay(baseDelay, backoffFactor, k) <= Delay(baseDelay, backoffFactor, k + 1)
  {
    var p := Pow(backoffFactor, k);
    assert Pow(backoffFactor, k + 1) == backoffFactor * p;
    assert baseDelay * (backoffFactor * p) == (baseDelay * p) * backoffFactor;
    assert baseDelay * p >= 0.0;
    ScaleUp(baseDelay * p, backoffFactor);
  }

  lemma ScaleUp(a: real, f: real)
    requires a >= 0.0 && f >= 1.0
    ensures a <= a * f
  {
  }

  /** The index of the first of the calls `0 .. n-1` that returns, if any does. */
  function FirstReturn<T>(op: nat -> Outcome<T>, n: nat): (r: Option<nat>)
    ensures r.Some? ==> r.value < n && op(r.value).Returned?
  {
    if n == 0 then None
    else match FirstReturn(op, n - 1)
      case Some(k) => Some(k)
      case None => if op(n - 1).Returned? then Some(n - 1) else None
  }

  /** The index found is that of a call that returns, every call before it raised, and none is
      found exactly when all `n` calls raised. */
  lemma {:induction false} FirstReturnSpec<T>(op: nat -> Outcome<T>, n: nat)
    ensures var r := FirstReturn(op, n);
      r.Some? ==> forall j :: 0 <= j < r.value ==> op(j).Raised?
    ensures FirstReturn(op, n).None? <==> forall j :: 0 <= j < n ==> op(j).Raised?
  {
    if n > 0 {
      FirstReturnSpec(op, n - 1);
    }
  }

  /** Once the first call that returns is known, looking further does not change it. */
  lemma {:induction false} FirstReturnStable<T>(op: nat -> Outcome<T>, a: nat, n: nat)
    requires a < n && op(a).Returned? && forall j :: 0 <= j < a ==> op(j).Raised?
    ensures FirstReturn(op, n) == Some(a)
    decreases n
  {
    if n - 1 > a {
      FirstReturnStable(op, a, n - 1);
    } else {
      FirstReturnSpec(op, a);
    }
  }

  /** How many attempts `range(maxRetries + 1)` allows. */
  function Attempts(maxRetries: int): nat {
    if maxRetries < 0 then 0 else maxRetries + 1
  }

  /** What `retry_with_backoff` returns: the value of the first call that returns, or `None`
      when every allowed call raised. */
  function RetryResult<T>(op: nat -> Outcome<T>, maxRetries: int): Option<T> {
    match FirstReturn(op, Attempts(maxRetries))
    case Some(k) => Some(op(k).value)
    case None => None
  }

  /** Nothing is returned exactly when every allowed call raised; what is returned is the value
      of an allowed call. */
  lemma RetryResultSpec<T>(op: nat -> Outcome<T>, maxRetries: int)
    ensures RetryResult(op, maxRetries).None? <==> forall k :: 0 <= k < Attempts(maxRetries) ==> op(k).Raised?
    ensures RetryResult(op, maxRetries).Some? ==>
      exists k :: 0 <= k < Attempts(maxRetries) && op(k) == Returned(RetryResult(op, maxRetries).value)
  {
    FirstReturnSpec(op, Attempts(maxRetries));
  }

  /** When the first call returns, its value is the result whatever later calls would do. */
  lemma RetryFirstCallReturns<T>(op: nat -> Outcome<T>, maxRetries: int)
    requires maxRetries >= 0 && op(0).Returned?
    ensures RetryResult(op, maxRetries) == Some(op(0).value)
  {
    FirstReturnStable(op, 0, Attempts(maxRetries));
  }

  /** `retry_with_backoff(op, max_retries, base_delay, backoff_factor, jitter)`: calls the operation
      until a call returns, at most `maxRetries + 1` times. The result is the first returned value,
      or `None` once every allowed call raised; nothing is raised to the caller. A failed call is
      followed by a wait unless it was the last attempt, and wait `k` is `Wait(.., k)`. */
  method RetryWithBackoff<T>(op: nat -> Outcome<T>, maxRetries: int, baseDelay: real, backoffFactor: real,
                             jitter: bool, draw: nat -> real)
    returns (result: Option<T>, calls: nat, waits: seq<real>)
    ensures calls <= Attempts(maxRetries)
    ensures result == RetryResult(op, maxRetries)
    ensures match FirstReturn(op, Attempts(maxRetries))
      case Some(k) => calls == k + 1 && result == Some(op(k).value)
      case None => calls == Attempts(maxRetries) && result == None
    ensures |waits| == if calls == 0 then 0 else calls - 1
    ensures forall k :: 0 <= k < |waits| ==> waits[k] == Wait(baseDelay, backoffFactor, jitter, draw, k)
  {
    result, calls, waits := None, 0, [];
    var attempt: nat := 0;
    while attempt < maxRetries + 1
      invariant attempt <= Attempts(maxRetries) && (maxRetries >= 0 ==> attempt <= maxRetries)
      invariant calls == attempt && |waits| == attempt
      invariant FirstReturn(op, attempt).None?
      invariant forall k :: 0 <= k < |waits| ==> waits[k] == Wait(baseDelay, backoffFactor, jitter, draw, k)
    {
      calls := calls + 1;
      var outcome := op(attempt);
      if outcome.Returned? {
        FirstReturnSpec(op, attempt);
        FirstReturnStable(op, attempt, Attempts(maxRetries));
        result := Some(outcome.value);
        return;
      }
      assert FirstReturn(op, attempt + 1).None?;
      if attempt == maxRetries {
        break;
      }
      var delay := Delay(baseDelay, backoffFactor, attempt);
      if jitter {
        delay := delay + delay * 0.1 * draw(attempt);
      }
      waits := waits + [delay];
      attempt := attempt + 1;
    }
  }

  /** The statuses worth retrying: 429 Too Many Requests (section 4 of RFC 6585), the gateway
      errors 502 to 504 and the proxy errors 520 to 524. */
  const RetryableStatuses: set<int> := {429, 502, 503, 504, 520, 521, 522, 523, 524}

  /** Names whose occurrence in the exception's type makes it worth retrying. */
  const RetryableNames: seq<string> :=
    ["TimeoutError", "ConnectionError", "ConnectTimeout", "ReadTimeout", "PoolTimeout", "HTTPError"]

  /** `is_retryable_error(status_code, exception)`; `exceptionType` is `str(type(exception))`. */
  predicate IsRetryableError(status: Option<int>, exceptionType: Option<string>) {
    if status.Some? && status.value != 0 && status.value in RetryableStatuses then true
    else if exceptionType.Some? then
      exists i :: 0 <= i < |RetryableNames| && Contains(exceptionType.value, RetryableNames[i])
    else false
  }

  /** A retryable status decides on its own, whatever the exception. */
  lemma RetryableStatusWins(status: int, exceptionType: Option<string>)
    requires status in RetryableStatuses
    ensures IsRetryableError(Some(status), exceptionType)
  {
  }

  /** Any other status (or none) leaves the decision to the exception alone. */
  lemma OtherStatusDefers(status: Option<int>, exceptionType: Option<string>)
    requires status.None? || status.value !in RetryableStatuses
    ensures IsRetryableError(status, exceptionType) == IsRetryableError(None, exceptionType)
  {
  }

  /** Without an exception the answer is exactly membership of the status in the set. */
  lemma StatusOnly(status: Option<int>)
    ensures IsRetryableError(status, None) <==> status.Some? && status.value in RetryableStatuses
  {
  }

  /** An exception type naming one of the listed names is retryable, and one naming none of
      them is not. */
  lemma NamedExceptionRetryable(t: string, i: nat)
    requires i < |RetryableNames| && Contains(t, RetryableNames[i])
    ensures IsRetryableError(None, Some(t))
  {
  }

  lemma UnnamedExceptionNotRetryable(status: Option<int>, t: string)
    requires status.None? || status.value !in RetryableStatuses
    requires forall i :: 0 <= i < |RetryableNames| ==> !Contains(t, RetryableNames[i])
    ensures !IsRetryableError(status, Some(t))
  {
  }

  /** The type text of a read timeout, `<class 'httpx.ReadTimeout'>`, is retryable. */
  lemma ReadTimeoutRetryable()
    ensures IsRetryableError(Some(404), Some("<class 'httpx.ReadTimeout'>"))
  {
    var t := "<class 'httpx.ReadTimeout'>";
    assert t[14..14 + |RetryableNames[3]|] == RetryableNames[3];
    ContainsAt(t, RetryableNames[3], 14);
  }
}
