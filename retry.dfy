/** Retry policy for outbound calls: which errors are worth retrying, how long to wait
    before the next attempt, and the bounded attempt loop. */
module Retry {
  import opened Wrappers
  import opened Errors

  /** The effective options of one `retryWithBackoff` call. The `onRetry` callback is
      not a field: what it does is a parameter of `RetryWithBackoff`, and its calls appear
      as `OnRetry` events in the run's trace. */
  datatype RetryOptions = RetryOptions(
    maxRetries: int,
    initialDelayMs: int,
    maxDelayMs: int,
    backoffMultiplier: int,
    retryableStatusCodes: seq<int>)

  /** The caller's options: a field left out is None. */
  datatype RetryOverrides = RetryOverrides(
    maxRetries: Option<int>,
    initialDelayMs: Option<int>,
    maxDelayMs: Option<int>,
    backoffMultiplier: Option<int>,
    retryableStatusCodes: Option<seq<int>>)

  const DefaultRetryableStatusCodes: seq<int> := [408, 429, 500, 502, 503, 504]
  const DefaultRetryOptions := RetryOptions(3, 1000, 10000, 2, DefaultRetryableStatusCodes)

  /** The defaults, overridden field by field by whatever the caller supplied. */
  function MergeOptions(overrides: Option<RetryOverrides>): (o: RetryOptions)
    ensures overrides.None? ==> o == DefaultRetryOptions
    ensures overrides.Some? ==>
      && o.maxRetries == overrides.value.maxRetries.GetOr(3)
      && o.initialDelayMs == overrides.value.initialDelayMs.GetOr(1000)
      && o.maxDelayMs == overrides.value.maxDelayMs.GetOr(10000)
      && o.backoffMultiplier == overrides.value.backoffMultiplier.GetOr(2)
      && o.retryableStatusCodes == overrides.value.retryableStatusCodes.GetOr(DefaultRetryableStatusCodes)
  {
    match overrides
    case None => DefaultRetryOptions
    case Some(v) =>
      RetryOptions(
        v.maxRetries.GetOr(DefaultRetryOptions.maxRetries),
        v.initialDelayMs.GetOr(DefaultRetryOptions.initialDelayMs),
        v.maxDelayMs.GetOr(DefaultRetryOptions.maxDelayMs),
        v.backoffMultiplier.GetOr(DefaultRetryOptions.backoffMultiplier),
        v.retryableStatusCodes.GetOr(DefaultRetryOptions.retryableStatusCodes))
  }

  /** Connection-level failure codes that are always worth retrying. */
  predicate IsTransientCode(code: Option<string>) {
    code == Some("ECONNREFUSED") || code == Some("ETIMEDOUT")
  }

  /** Python truthiness of an optional int: present and non-zero. */
  predicate TruthyInt(o: Option<int>) {
    o.Some? && o.value != 0
  }

  /** Whether a failed attempt should be retried. A network error says so itself, a
      rate-limit error always is, any other gateway error with a status is retried iff
      its status is listed, and otherwise only transport failures named `FetchError` or
      coded ECONNREFUSED/ETIMEDOUT are. */
  function IsRetryableError(e: Exception, retryableStatusCodes: seq<int>): (r: bool)
    ensures e.Mpesa? && e.err.NetworkError? ==> r == e.err.isRetryable
    ensures e.Mpesa? && e.err.RateLimitError? ==> r
    ensures e.Mpesa? && !e.err.NetworkError? && !e.err.RateLimitError? && TruthyInt(e.err.StatusCode()) ==>
      r == (e.err.StatusCode().value in retryableStatusCodes)
    ensures e.Mpesa? && !e.err.NetworkError? && !e.err.RateLimitError? && !TruthyInt(e.err.StatusCode()) ==>
      r == IsTransientCode(e.err.Code())
    ensures e.Foreign? ==> r == (e.name == Some("FetchError") || IsTransientCode(e.code))
    ensures e.KeyError? || e.ValueError? || e.TypeError? ==> !r
  {
    match e
    case Mpesa(err) =>
      if err.NetworkError? then err.isRetryable
      else if err.RateLimitError? then true
      else if TruthyInt(err.StatusCode()) then err.StatusCode().value in retryableStatusCodes
      else IsTransientCode(err.Code())
    case Foreign(_, name, code, _) => name == Some("FetchError") || IsTransientCode(code)
    case _ => false
  }

  /** The classification exactly as the source writes it: the status is read by
      subscripting the exception (`error["status_code"]`), which raises TypeError for
      every gateway error that reaches that line. */
  function IsRetryableErrorAsWritten(e: Exception, retryableStatusCodes: seq<int>): (r: Result<bool, Exception>)
    ensures r.Failure? <==>
      e.Mpesa? && !e.err.NetworkError? && !e.err.RateLimitError? && TruthyInt(e.err.StatusCode())
    ensures r.Failure? ==> r.error.TypeError?
    ensures r.Success? ==> r.value == IsRetryableError(e, retryableStatusCodes)
  {
    match e
    case Mpesa(err) =>
      if err.NetworkError? then Success(err.isRetryable)
      else if err.RateLimitError? then Success(true)
      else if TruthyInt(err.StatusCode()) then Failure(TypeError("'" + err.ClassName() + "' object is not subscriptable"))
      else Success(IsTransientCode(err.Code()))
    case Foreign(_, name, code, _) => Success(name == Some("FetchError") || IsTransientCode(code))
    case _ => Success(false)
  }

  /** As written, a timeout error is not retried at all: classifying it raises TypeError,
      which then replaces the timeout as the error the caller sees. */
  lemma TimeoutClassificationRaises(message: string)
    ensures IsRetryableErrorAsWritten(Mpesa(TimeoutError(message, NoDetails)), DefaultRetryableStatusCodes).Failure?
    ensures IsRetryableError(Mpesa(TimeoutError(message, NoDetails)), DefaultRetryableStatusCodes)
  {
  }

  /** Under the default codes, an error parsed from an HTTP response is retried iff its
      status is 408, 429 or 5xx, or its status is 0 (falsy) and its code names a
      transient connection failure. */
  lemma ParsedErrorRetryable(status: int, body: ResponseBody)
    ensures IsRetryableError(Mpesa(ParseApiError(status, body)), DefaultRetryableStatusCodes) <==>
      status == 408 || status == 429 || status >= 500 ||
      (status == 0 && IsTransientCode(Some(ErrorCodeOf(body))))
  {
    var e := ParseApiError(status, body);
    ParsedStatusAndCode(status, body);
    if status == 401 || status == 403 || status == 400 {
      assert e.StatusCode().value !in DefaultRetryableStatusCodes;
    }
  }

  /** Listing more statuses never makes an error less retryable. */
  lemma RetryableMonotone(e: Exception, codes: seq<int>, more: seq<int>)
    requires forall c | c in codes :: c in more
    requires IsRetryableError(e, codes)
    ensures IsRetryableError(e, more)
  {
  }

  function Pow(b: int, n: nat): int {
    if n == 0 then 1 else b * Pow(b, n - 1)
  }

  function Min(a: int, b: int): int {
    if a <= b then a else b
  }

  /** `min(initialDelayMs * backoffMultiplier ** attempt, maxDelayMs)`: the delay before
      jitter. */
  function BaseDelay(attempt: nat, opts: RetryOptions): (d: int)
    ensures d <= opts.maxDelayMs
  {
    Min(opts.initialDelayMs * Pow(opts.backoffMultiplier, attempt), opts.maxDelayMs)
  }

  /** The jitter factor `(random() - 0.5) * 2`, a real in [-1, 1). */
  type Jitter = u: real | -1.0 <= u < 1.0 witness 0.0

  /** The wait a rate-limit error asks for: its `retry_after`, when truthy. */
  function RetryAfterHint(e: Exception): (h: Option<int>)
    ensures h.Some? ==> e.Mpesa? && e.err.RateLimitError? && h == e.err.retryAfter && h.value != 0
  {
    if e.Mpesa? && e.err.RateLimitError? && TruthyInt(e.err.retryAfter) then e.err.retryAfter else None
  }

  lemma JitterBounds(b: int, u: Jitter)
    requires b >= 0
    ensures (4 * b) / 5 <= (b as real + b as real * 0.2 * u).Floor <= (6 * b) / 5
  {
    var B := b as real;
    var x := B + B * 0.2 * u;
    assert B * u >= -B by {
      assert B * (u + 1.0) >= 0.0;
    }
    assert B * u <= B by {
      assert B * (1.0 - u) >= 0.0;
    }
    var q := (4 * b) / 5;
    assert 5 * q <= 4 * b;
    assert (5 * q) as real <= (4 * b) as real;
    assert q as real <= 0.8 * B;
    assert 0.8 * B <= x;
    assert x <= ((6 * b) as real) / 5.0;
  }

  /** The delay before the next attempt: exactly the rate-limit hint in milliseconds when
      there is one, otherwise the capped exponential delay moved by at most 20% of itself. */
  function CalculateDelay(attempt: nat, opts: RetryOptions, e: Exception, u: Jitter): (d: int)
    ensures RetryAfterHint(e).Some? ==> d == RetryAfterHint(e).value * 1000
    ensures RetryAfterHint(e).None? && BaseDelay(attempt, opts) >= 0 ==>
      (4 * BaseDelay(attempt, opts)) / 5 <= d <= (6 * BaseDelay(attempt, opts)) / 5
  {
    match RetryAfterHint(e)
    case Some(seconds) => seconds * 1000
    case None =>
      var b := BaseDelay(attempt, opts);
      if b >= 0 then JitterBounds(b, u); (b as real + b as real * 0.2 * u).Floor
      else (b as real + b as real * 0.2 * u).Floor
  }

  /** The delay exactly as the source writes it: the hint is read by subscripting the
      exception (`error["retry_after"]`), which raises TypeError whenever there is a hint. */
  function CalculateDelayAsWritten(attempt: nat, opts: RetryOptions, e: Exception, u: Jitter): (r: Result<int, Exception>)
    ensures r.Failure? <==> RetryAfterHint(e).Some?
    ensures r.Failure? ==> r.error.TypeError?
    ensures r.Success? ==> r.value == CalculateDelay(attempt, opts, e, u)
  {
    if RetryAfterHint(e).Some? then Failure(TypeError("'MpesaRateLimitError' object is not subscriptable"))
    else Success(CalculateDelay(attempt, opts, e, u))
  }

  lemma {:induction false} PowNonNegative(b: int, n: nat)
    requires b >= 0
    ensures Pow(b, n) >= 0
  {
    if n > 0 {
      PowNonNegative(b, n - 1);
    }
  }

  /** With a multiplier of at least 1 and a non-negative initial delay, the base delay
      never shrinks from one attempt to the next. */
  lemma BaseDelayMonotone(attempt: nat, opts: RetryOptions)
    requires opts.backoffMultiplier >= 1 && opts.initialDelayMs >= 0
    ensures BaseDelay(attempt, opts) <= BaseDelay(attempt + 1, opts)
  {
    var p := Pow(opts.backoffMultiplier, attempt);
    PowNonNegative(opts.backoffMultiplier, attempt);
    assert Pow(opts.backoffMultiplier, attempt + 1) == opts.backoffMultiplier * p;
    assert opts.backoffMultiplier * p >= p by {
      assert (opts.backoffMultiplier - 1) * p >= 0;
    }
    assert opts.initialDelayMs * (opts.backoffMultiplier * p) >= opts.initialDelayMs * p by {
      assert opts.initialDelayMs * (opts.backoffMultiplier * p - p) >= 0;
    }
  }

  /** With the default options the fourth attempt's (index 3) base delay is 8000 ms. */
  lemma DefaultBackoffExample()
    ensures BaseDelay(0, DefaultRetryOptions) == 1000
    ensures BaseDelay(3, DefaultRetryOptions) == 8000
    ensures BaseDelay(4, DefaultRetryOptions) == 10000
  {
  }

  /** What one invocation of the retried operation did. */
  datatype Attempt<T> = Returned(value: T) | Raised(error: Exception)

  /** The caller-observable side effects of a run, in order. */
  datatype RetryEvent = OnRetry(error: Exception, attemptNumber: nat) | Slept(ms: int)

  /** A run's result, how many times the operation was invoked, and its side effects. */
  datatype RetryRun<T> = RetryRun(outcome: Result<T, Exception>, calls: nat, events: seq<RetryEvent>)

  /** What `raise last_error` raises when the loop never ran (last_error is None). */
  const RaiseNone := TypeError("exceptions must derive from BaseException")

  /** Runs the operation until it returns, fails with an error that is not retryable, or
      has been invoked maxRetries + 1 times. `op(i)` is what the i-th invocation does,
      `jitter(i)` the jitter drawn after it, and `onRetry(e, n)` what the options'
      `onRetry` callback does before the n-th sleep (the default never raises). An
      exception from `onRetry` ends the run at once. */
  method RetryWithBackoff<T>(op: nat -> Attempt<T>, options: Option<RetryOverrides>, jitter: nat -> Jitter,
                             onRetry: (Exception, nat) -> Outcome<Exception>)
    returns (run: RetryRun<T>)
    ensures var opts := MergeOptions(options);
      opts.maxRetries < 0 ==> run == RetryRun(Failure(RaiseNone), 0, [])
    ensures var opts := MergeOptions(options);
      opts.maxRetries >= 0 ==> 1 <= run.calls <= opts.maxRetries + 1
    ensures var opts := MergeOptions(options);
      forall i | 0 <= i < run.calls - 1 ::
        && op(i).Raised? && IsRetryableError(op(i).error, opts.retryableStatusCodes)
        && onRetry(op(i).error, i + 1).Pass?
    ensures var opts := MergeOptions(options);
      run.calls >= 1 ==>
        match op(run.calls - 1)
        case Returned(v) => run.outcome == Success(v) && |run.events| == 2 * (run.calls - 1)
        case Raised(e) =>
          if !IsRetryableError(e, opts.retryableStatusCodes) || run.calls - 1 == opts.maxRetries then
            run.outcome == Failure(e) && |run.events| == 2 * (run.calls - 1)
          else
            && onRetry(e, run.calls).Fail?
            && run.outcome == Failure(onRetry(e, run.calls).error)
            && |run.events| == 2 * (run.calls - 1) + 1
            && run.events[2 * (run.calls - 1)] == OnRetry(e, run.calls)
    ensures var opts := MergeOptions(options);
      forall i | 0 <= i < run.calls - 1 ::
        && run.events[2 * i] == OnRetry(op(i).error, i + 1)
        && run.events[2 * i + 1] == Slept(CalculateDelay(i, opts, op(i).error, jitter(i)))
  {
    var opts := MergeOptions(options);
    var events: seq<RetryEvent> := [];
    var attempt: nat := 0;
    while attempt < opts.maxRetries + 1
      invariant attempt <= opts.maxRetries || attempt == 0
      invariant |events| == 2 * attempt
      invariant forall i | 0 <= i < attempt ::
        && op(i).Raised? && IsRetryableError(op(i).error, opts.retryableStatusCodes)
        && onRetry(op(i).error, i + 1).Pass?
      invariant forall i | 0 <= i < attempt ::
        && events[2 * i] == OnRetry(op(i).error, i + 1)
        && events[2 * i + 1] == Slept(CalculateDelay(i, opts, op(i).error, jitter(i)))
      decreases opts.maxRetries + 1 - attempt
    {
      match op(attempt)
      case Returned(v) =>
        return RetryRun(Success(v), attempt + 1, events);
      case Raised(e) =>
        if !IsRetryableError(e, opts.retryableStatusCodes) || attempt == opts.maxRetries {
          return RetryRun(Failure(e), attempt + 1, events);
        }
        var delay := CalculateDelay(attempt, opts, e, jitter(attempt));
        var callback := onRetry(e, attempt + 1);
        if callback.Fail? {
          return RetryRun(Failure(callback.error), attempt + 1, events + [OnRetry(e, attempt + 1)]);
        }
        events := events + [OnRetry(e, attempt + 1), Slept(delay)];
      attempt := attempt + 1;
    }
    run := RetryRun(Failure(RaiseNone), 0, events);
  }
}
