# M-Pesa client core in Dafny

This project models the core of an M-Pesa Daraja gateway client written in Python:

- the error taxonomy and the mapping from an HTTP error response to a typed error
  (`errors.dfy`);
- the retry policy: which failures are retried, the backoff delay, and the bounded
  attempt loop (`retry.dfy`);
- the two fixed-window rate limiters:
  - `ratelimit_spec.dfy` gives one check as a pure step function over the limiter's store;
  - `ratelimiter.dfy` holds the limiter classes, whose methods update their store in place
    and are proved against those step functions;
- the callback handler (`callback.dfy`):
  - the STK, C2B and result-callback parsers with their metadata loops;
  - result-code messages and the reformatting of transaction dates;
  - the IP allow list;
  - the order in which registered handlers run;
  - the acknowledgment body;
- the client (`client.dfy`):
  - phone-number normalisation;
  - the input guards of every gateway operation and the rate-limit key each one uses;
  - the choice of limiter at construction;
  - one request attempt;
  - the acknowledgments its callback entry points return.

`wrappers.dfy` (Option, Result, Outcome) and `text.dfy` (decimal rendering and parsing of
numbers) are support modules.

Some things are parameters rather than modelled:

- **Time.** The clock is a parameter `now` in milliseconds.
- **Randomness.** The retry jitter is a parameter `u` in [-1, 1), standing for
  `(random() - 0.5) * 2`.
- **Handlers.** A registered handler is a function from its argument to whether it
  returned or raised.
- **The network exchange.** It is the datatype `Exchange`: a response, a timeout, or
  another transport failure.

Where a Python exception would propagate, the model returns `Failure(e)` or `Fail(e)`.

## Model

| member | source | states |
|---|---|---|
| Errors.FixedCodeAndStatus | core/mpesa/utils/errors.py:21-48 | each error class fixes its code and HTTP status (AUTH_ERROR/401, VALIDATION_ERROR/400, NETWORK_ERROR/503, TIMEOUT_ERROR/408, RATE_LIMIT_ERROR/429) |
| Errors.FirstTruthy | core/mpesa/utils/errors.py:58-65 | an `a or b or ... or default` chain yields the first truthy candidate, else the default |
| Errors.ParseApiError | core/mpesa/utils/errors.py:57-79 | 401 and 403 give an auth error; 400 a validation error; 429 a rate-limit error carrying `retryAfter`; >= 500 a retryable network error; any other status an API error with that status and the body's code or UNKNOWN_ERROR. The message is errorMessage, then ResponseDescription, then message, else "Unknown API error". The body is kept as details |
| Errors.ParsedStatusAndCode | core/mpesa/utils/errors.py:57-79 | a parsed error reports the response's status, except that 403 reports 401 and every 5xx reports 503; its code is never empty |
| Retry.MergeOptions | core/mpesa/utils/retry.py:74-77 | every option the caller leaves out takes its default (3 retries, 1000 ms, 10000 ms, x2, [408, 429, 500, 502, 503, 504]) |
| Retry.IsRetryableError | core/mpesa/utils/retry.py:32-48 | a network error is retried iff it says so; a rate-limit error always is; another gateway error with a non-zero status iff the status is listed, and one without a status by its connection code. A foreign error is retried iff it is named FetchError or carries ECONNREFUSED/ETIMEDOUT; nothing else is retried |
| Retry.IsRetryableErrorAsWritten | core/mpesa/utils/retry.py:39-40 | as written, the status is read by subscripting the error, which raises TypeError exactly for the gateway errors that reach that line |
| Retry.TimeoutClassificationRaises | core/mpesa/utils/retry.py:39-40 | as written, classifying a timeout error raises instead of answering "retry" |
| Retry.ParsedErrorRetryable | core/mpesa/utils/retry.py:32-48 | with the default codes, an error parsed from a response is retried iff its status is 408, 429 or >= 500, or its status is 0 and the body's code is ECONNREFUSED or ETIMEDOUT |
| Retry.RetryableMonotone | core/mpesa/utils/retry.py:39-40 | listing more statuses never makes an error less retryable |
| Retry.BaseDelay | core/mpesa/utils/retry.py:60-64 | the delay before jitter never exceeds maxDelayMs |
| Retry.BaseDelayMonotone | core/mpesa/utils/retry.py:60-64 | with a multiplier >= 1, the base delay never shrinks from one attempt to the next |
| Retry.DefaultBackoffExample | core/mpesa/utils/retry.py:21-28 | the defaults give 1000 ms, then 8000 ms at attempt 3, capped at 10000 ms from attempt 4 |
| Retry.RetryAfterHint | core/mpesa/utils/retry.py:57 | a hint exists only for a rate-limit error with a truthy `retry_after`, and it is that value |
| Retry.JitterBounds | core/mpesa/utils/retry.py:67-68 | jitter moves a delay by at most 20% of itself, after flooring |
| Retry.CalculateDelay | core/mpesa/utils/retry.py:52-68 | the delay is the rate-limit hint in ms when there is one, else within 20% of the capped exponential delay |
| Retry.CalculateDelayAsWritten | core/mpesa/utils/retry.py:57-58 | as written, reading the hint by subscript raises TypeError exactly when there is a hint; otherwise the result equals CalculateDelay |
| Retry.RetryWithBackoff | core/mpesa/utils/retry.py:70-99 | between 1 and maxRetries + 1 invocations; every invocation but the last raised a retryable error; the run returns the last invocation's value or raises its error, which is not retryable or comes from the final allowed attempt. Each retry is preceded by onRetry(error, n) and a sleep of CalculateDelay ms. If onRetry raises, the run ends at once with that exception, after the OnRetry event and with no sleep. With maxRetries < 0 nothing is invoked and the final `raise` fails. The loop uses the corrected IsRetryableError and CalculateDelay (Findings rows 1-2); as written, the first error whose classification or delay subscripts the exception escapes as a TypeError |
| RateLimitSpec.FullKey | src/singularity_payments/core/mpesa/utils/ratelimiter.py:32 | the store key is the prefix, a colon, then the caller's key |
| RateLimitSpec.LocalCheck | src/singularity_payments/core/mpesa/utils/ratelimiter.py:31-56 | a missing or ended window restarts at count 1 and admits; a live window admits iff its count is below the limit, and then counts the call. A rejection changes nothing and carries the seconds left, rounded up and >= 1, with the limit, the window and resetAt. Other keys are untouched |
| RateLimitSpec.GetUsage | src/singularity_payments/core/mpesa/utils/ratelimiter.py:60-76 | an ended window reads as unused with a full allowance; a live one reports its count, max(0, limit - count) and its reset time |
| RateLimitSpec.UsagePredictsAdmission | src/singularity_payments/core/mpesa/utils/ratelimiter.py:60-76 | with a positive limit, usage shows room left iff the next check at that instant admits |
| RateLimitSpec.LocalCheckKeepsBounds | src/singularity_payments/core/mpesa/utils/ratelimiter.py:37-56 | a check keeps every stored count between 1 and max(1, limit) |
| RateLimitSpec.Sweep | src/singularity_payments/core/mpesa/utils/ratelimiter.py:92-95 | the sweep keeps exactly the windows that have not ended, unchanged |
| RateLimitSpec.SweepInvisible | src/singularity_payments/core/mpesa/utils/ratelimiter.py:87-97 | at the sweep's time or later, checks and usage reports behave the same on the swept store |
| RateLimitSpec.ResetReopens | src/singularity_payments/core/mpesa/utils/ratelimiter.py:80-82 | after `reset` the key's next check admits and opens a fresh window |
| RateLimitSpec.LiveWindowRun | src/singularity_payments/core/mpesa/utils/ratelimiter.py:44-56 | inside a live window holding c calls, the i-th further call is admitted iff c + i < limit |
| RateLimitSpec.FirstNAdmitted | src/singularity_payments/core/mpesa/utils/ratelimiter.py:31-56 | of the calls within one window of a call that opened it, exactly the first maxRequests are admitted |
| RateLimitSpec.TwoPerMinuteExample | src/singularity_payments/core/mpesa/utils/ratelimiter.py:44-54 | at 2 per minute, calls at 0, 10 and 20 ms: two admitted, the third told to wait 60 s |
| RateLimitSpec.Get | src/singularity_payments/core/mpesa/utils/ratelimiter.py:111 | GET sees a counter iff it has not expired |
| RateLimitSpec.Incr | src/singularity_payments/core/mpesa/utils/ratelimiter.py:113 | INCR adds one to a live counter and keeps its expiry; a missing or expired counter restarts at 1 |
| RateLimitSpec.Expire | src/singularity_payments/core/mpesa/utils/ratelimiter.py:114 | EXPIRE sets a live counter's expiry `seconds` from now and touches nothing else |
| RateLimitSpec.SetEx | src/singularity_payments/core/mpesa/utils/ratelimiter.py:112 | SET with EX stores the value with its expiry and touches nothing else |
| RateLimitSpec.SharedCheck | src/singularity_payments/core/mpesa/utils/ratelimiter.py:125-147 | the counter goes up by one, and gets the window rounded up to seconds as expiry when it has just started. The check rejects iff the new count exceeds the limit; the wait comes from the `:ttl` key if present, else the whole window. The error carries the limit and window but no reset time |
| RateLimitSpec.SharedResetReopens | src/singularity_payments/core/mpesa/utils/ratelimiter.py:149-151 | after a shared reset, the next check admits (positive limit) |
| RateLimitSpec.CorrespondingStep | src/singularity_payments/core/mpesa/utils/ratelimiter.py:125-147 | one check on corresponding stores gives the same verdict in both modes and keeps them corresponding |
| RateLimitSpec.CorrespondingRuns | src/singularity_payments/core/mpesa/utils/ratelimiter.py:125-147 | from corresponding stores, both modes admit the same calls of any call sequence |
| RateLimitSpec.LimitersAgree | src/singularity_payments/core/mpesa/utils/ratelimiter.py:117-147 | with a positive limit and a whole-second window, the shared limiter admits exactly the calls the in-memory one does |
| RateLimitSpec.ZeroLimitDisagrees | src/singularity_payments/core/mpesa/utils/ratelimiter.py:37-44 | with limit 0 the in-memory limiter admits a first call that the shared one rejects |
| RateLimitSpec.FractionalWindowDisagrees | src/singularity_payments/core/mpesa/utils/ratelimiter.py:132 | with a 1500 ms window the shared counter outlives the window and rejects a call the in-memory limiter admits |
| RateLimit.RateLimiter.constructor | src/singularity_payments/core/mpesa/utils/ratelimiter.py:21-29 | the prefix defaults to "mpesa"; the store starts empty and the sweep is scheduled |
| RateLimit.RateLimiter.CheckLimit | src/singularity_payments/core/mpesa/utils/ratelimiter.py:31-56 | the verdict and the new store are LocalCheck's; the count bounds are kept |
| RateLimit.RateLimiter.GetUsage | src/singularity_payments/core/mpesa/utils/ratelimiter.py:60-76 | reports GetUsage of the current store |
| RateLimit.RateLimiter.Reset | src/singularity_payments/core/mpesa/utils/ratelimiter.py:80-82 | removes exactly the key's window |
| RateLimit.RateLimiter.ResetAll | src/singularity_payments/core/mpesa/utils/ratelimiter.py:84-85 | empties the store |
| RateLimit.RateLimiter.Cleanup | src/singularity_payments/core/mpesa/utils/ratelimiter.py:88-95 | one pass of the periodic sweep: the store becomes Sweep of itself |
| RateLimit.RateLimiter.Destroy | src/singularity_payments/core/mpesa/utils/ratelimiter.py:99-103 | unschedules the sweep and empties the store |
| RateLimit.CounterStore.Get | src/singularity_payments/core/mpesa/utils/ratelimiter.py:111 | agrees with RateLimitSpec.Get |
| RateLimit.CounterStore.Incr | src/singularity_payments/core/mpesa/utils/ratelimiter.py:113 | the counters become RateLimitSpec.Incr of the old ones; returns the new count |
| RateLimit.CounterStore.Expire | src/singularity_payments/core/mpesa/utils/ratelimiter.py:114 | the counters become RateLimitSpec.Expire of the old ones |
| RateLimit.CounterStore.SetEx | src/singularity_payments/core/mpesa/utils/ratelimiter.py:112 | the counters become RateLimitSpec.SetEx of the old ones |
| RateLimit.RedisRateLimiter.constructor | src/singularity_payments/core/mpesa/utils/ratelimiter.py:117-123 | keeps the store reference; the prefix defaults to "mpesa" |
| RateLimit.RedisRateLimiter.CheckLimit | src/singularity_payments/core/mpesa/utils/ratelimiter.py:125-147 | the verdict and the store's new counters are SharedCheck's |
| RateLimit.RedisRateLimiter.Reset | src/singularity_payments/core/mpesa/utils/ratelimiter.py:149-151 | the key's counter becomes 0 with an immediate expiry |
| Callback.GetErrorMessage | src/singularity_payments/core/mpesa/utils/callback.py:201-206 | the message is never empty |
| Callback.GetErrorMessageOfInt | src/singularity_payments/core/mpesa/utils/callback.py:149-160 | a listed code gets its table message; any other gets "Transaction failed with code: " and the code, which is no table message |
| Callback.UnknownCodesDistinguished | src/singularity_payments/core/mpesa/utils/callback.py:201-206 | distinct unlisted codes get distinct messages |
| Callback.ErrorMessageExamples | src/singularity_payments/core/mpesa/utils/callback.py:149-160 | 1032 and 9999 share a message; True looks up 1 and 2001.0 looks up 2001; the string "1032" is not found |
| Callback.Slice | src/singularity_payments/core/mpesa/utils/callback.py:210-215 | slicing clamps out-of-range bounds like Python's |
| Callback.FormatTransactionDate | src/singularity_payments/core/mpesa/utils/callback.py:208-217 | the result has min(n, 14) characters of the input plus five separators |
| Callback.FormatTransactionDateRoundTrip | src/singularity_payments/core/mpesa/utils/callback.py:208-217 | on >= 14 characters the result is 19 long, has -, -, T, :, : at fixed places, and dropping them gives back the first 14 characters |
| Callback.FormatTransactionDateInjective | src/singularity_payments/core/mpesa/utils/callback.py:208-217 | distinct 14-character timestamps format differently |
| Callback.ProjectFrom | src/singularity_payments/core/mpesa/utils/callback.py:242-253 | the extraction fold, from any starting fields, succeeds iff every recognised item converts; each recognised name then holds its last item's value |
| Callback.ProjectSpec | src/singularity_payments/core/mpesa/utils/callback.py:240-253 | extraction succeeds iff every recognised item converts, and then yields exactly the last value of each recognised name; unknown names are ignored and absent ones stay unset |
| Callback.ExtractFields | src/singularity_payments/core/mpesa/utils/callback.py:240-253 | the item loop computes the extraction fold |
| Callback.ParsedStk | src/singularity_payments/core/mpesa/utils/callback.py:219-238 | a missing Body, stkCallback, ResultCode, MerchantRequestID, CheckoutRequestID or ResultDesc raises KeyError, in that order. isSuccess iff the code == 0 under Python equality; the error message is set iff it failed. Metadata is extracted only on success when present, and a failing conversion fails the parse |
| Callback.ParseCallback | src/singularity_payments/core/mpesa/utils/callback.py:219-253 | the step-by-step parser computes ParsedStk |
| Callback.ParsedResult | src/singularity_payments/core/mpesa/utils/callback.py:270-371 | Result and ResultCode are required. isSuccess iff the code == 0, with the error message iff it failed. Each kind extracts its own parameter keys on success (a reversal none). Only a transaction status carries OriginatorConversationID, and only a reversal carries TransactionID |
| Callback.ParseResultCallback | src/singularity_payments/core/mpesa/utils/callback.py:270-371 | the five parsers with their loops compute ParsedResult |
| Callback.ParseC2BCallback | src/singularity_payments/core/mpesa/utils/callback.py:255-268 | succeeds iff the seven required keys are present and TransAmount converts to float; missing keys raise KeyError in source order; optional names pass through |
| Callback.NewCallbackHandler | src/singularity_payments/core/mpesa/utils/callback.py:174-190 | a missing or empty allow list falls back to the Safaricom addresses |
| Callback.AllowList | src/singularity_payments/core/mpesa/utils/callback.py:194-199 | with validation off every address passes; otherwise exactly the listed (or default) addresses do |
| Callback.DefaultAllowListExample | src/singularity_payments/core/mpesa/utils/callback.py:134-147 | the default list admits a Safaricom address and refuses a private one |
| Callback.DispatchStk | src/singularity_payments/core/mpesa/utils/callback.py:392-417 | a reported duplicate stops before any handler; a raising duplicate check propagates. The generic handler runs first; if it raises, nothing else runs. Then the success handler runs iff the payment succeeded, else the failure handler, and its outcome is the run's |
| Callback.OneOutcomeHandler | src/singularity_payments/core/mpesa/utils/callback.py:410-417 | never both the success and the failure handler, each at most once |
| Callback.StkHandling | src/singularity_payments/core/mpesa/utils/callback.py:373-417 | a non-empty address off the allow list raises ValueError before parsing; a parse error propagates; otherwise the dispatch of the parsed callback. No handler runs unless the sender passed and the parse succeeded |
| Callback.HandleCallback | src/singularity_payments/core/mpesa/utils/callback.py:373-417 | the step-by-step handler computes StkHandling |
| Callback.HandleC2BValidation | src/singularity_payments/core/mpesa/utils/callback.py:419-428 | a parse error propagates; the validator's verdict, or acceptance when none is registered |
| Callback.HandleC2BConfirmation | src/singularity_payments/core/mpesa/utils/callback.py:430-438 | a parse error propagates; the confirmation handler runs iff registered and its outcome is the result |
| Callback.CreateCallbackResponse | src/singularity_payments/core/mpesa/utils/callback.py:440-445 | ResultCode is 0 iff success, else 1; the description is the message when truthy, else Accepted or Rejected |
| Client.RemoveSeparators | core/mpesa/client/mpesa_client.py:125 | no whitespace, '-' or '+' remains, and a string without any is unchanged |
| Client.RemoveSeparatorsAppend | core/mpesa/client/mpesa_client.py:125 | removing separators distributes over concatenation |
| Client.AddCountryCode | core/mpesa/client/mpesa_client.py:127-130 | a leading 0 becomes 254; a number not starting with 254 gets it prefixed; the result starts with 254 |
| Client.ValidateAndFormatPhone | core/mpesa/client/mpesa_client.py:124-135 | succeeds iff the normalised number matches `^254[17]\d{8}$`, returning it (12 characters, starting 2541 or 2547); else a validation error naming the input |
| Client.ValidateAndFormatPhoneIdempotent | core/mpesa/client/mpesa_client.py:124-135 | a formatted number formats to itself |
| Client.DigitNotSeparator | core/mpesa/client/mpesa_client.py:125-132 | no decimal digit of any script is a separator |
| Client.LocalForm | core/mpesa/client/mpesa_client.py:124-135 | 07 followed by eight digits formats to 2547 and those digits |
| Client.BareForm | core/mpesa/client/mpesa_client.py:129-130 | 7 followed by eight digits formats to 2547 and those digits |
| Client.InternationalForm | core/mpesa/client/mpesa_client.py:124-135 | +2541 followed by eight digits formats to 2541 and those digits |
| Client.OtherNetworkRefused | core/mpesa/client/mpesa_client.py:132-133 | anything starting 2548 is refused |
| Client.ArabicIndicDigits | core/mpesa/client/mpesa_client.py:132 | `\d` accepts non-ASCII digits: "07" followed by eight Arabic-Indic digits, none of them ASCII, is accepted and formatted to "2547" and those digits |
| Client.KeyStartsWithHead | core/mpesa/client/mpesa_client.py:163-361 | each rate-limit key is its operation's fixed head, followed by the phone number or identifier where the operation has one |
| Client.OperationOfTagInverts | core/mpesa/client/mpesa_client.py:163-361 | the first three characters of a key name its operation |
| Client.RateKeysDistinct | core/mpesa/client/mpesa_client.py:163-361 | two operations never share a rate-limit key, and one operation shares it only for the same number or identifier |
| Client.StkPush | core/mpesa/client/mpesa_client.py:137-167 | checks amount >= 1, then account reference 1-13 characters, then a description, then the phone, each with its message. On success the key is "stk:" plus the formatted phone and the amount is floored (>= 1) |
| Client.StkQuery | core/mpesa/client/mpesa_client.py:169-184 | requires a truthy CheckoutRequestID; key "query:" plus it |
| Client.RegisterC2BUrl | core/mpesa/client/mpesa_client.py:186-201 | requires both URLs; key "c2b:register" |
| Client.B2CPayment | core/mpesa/client/mpesa_client.py:203-229 | checks amount >= 10, then remarks of 1-100 characters, then the phone; key "b2c:" plus the phone; amount floored |
| Client.B2BPayment | core/mpesa/client/mpesa_client.py:231-260 | checks amount >= 1, then remarks of 1-100 characters, then an account reference of 1-13; key "b2b:" plus partyB |
| Client.AccountBalanceCall | core/mpesa/client/mpesa_client.py:262-282 | no guard; key "balance" |
| Client.TransactionStatus | core/mpesa/client/mpesa_client.py:284-307 | requires a truthy transaction ID; key "status:" plus it |
| Client.ReversalCall | core/mpesa/client/mpesa_client.py:309-334 | requires a transaction ID, then amount >= 1; key "reversal:" plus the ID |
| Client.GenerateDynamicQR | core/mpesa/client/mpesa_client.py:336-361 | checks a merchant name of 1-26 characters, then a reference of 1-12, then amount >= 1; key "qr:" plus the reference |
| Client.AttemptAsWritten | core/mpesa/client/mpesa_client.py:81-120 | as written: a limiter rejection propagates, and a non-2xx response with a JSON body is returned as a success. The typed error for a non-2xx response without one is re-wrapped as a network error |
| Client.Attempt | core/mpesa/client/mpesa_client.py:81-120 | as intended: success iff the limiter passes and a 2xx response has a JSON body. A non-2xx response raises the typed error for its status and body; a timeout raises a timeout error naming the endpoint; typed errors propagate unchanged |
| Client.AttemptRetriedOnlyWhenTransient | core/mpesa/client/mpesa_client.py:101-122 | with the default codes, a failed response is retried iff its status is 408, 429 or >= 500 |
| Client.Non2xxReturnedAsSuccess | core/mpesa/client/mpesa_client.py:101-108 | as written a 400 with a JSON body comes back as a success; as intended it is a validation error |
| Client.TypedErrorRewrapped | core/mpesa/client/mpesa_client.py:104-120 | as written a 401 without a JSON body becomes a retryable network error; as intended it is an auth error that is not retried |
| Client.SelectLimiter | core/mpesa/client/mpesa_client.py:53-65 | no limiter unless rate-limit options are given, non-empty and not disabled. A store given means the shared limiter, otherwise the in-memory one. Defaults are 100 requests per 60000 ms, prefix "mpesa" |
| Client.ClientHandlerAsWritten | core/mpesa/client/mpesa_client.py:46-48 | as written, non-empty callback options (counting a logger and keys whose value is None) become the success handler; validation stays on with the default list and no other handler is set |
| Client.ClientHandler | core/mpesa/client/mpesa_client.py:46-48 | as intended, each callback option reaches its own parameter: the hooks are the options' hooks, and a missing or empty allow list falls back to the Safaricom addresses |
| Client.CallbackOptionsMisrouted | core/mpesa/client/mpesa_client.py:46-48 | as written, every successful STK callback fails calling the options object; as intended the registered success handler decides |
| Client.ValidateIpOptionIgnored | core/mpesa/client/mpesa_client.py:46-48 | as written, turning IP validation off has no effect |
| Client.SuccessfulStkCallbackRejected | core/mpesa/client/mpesa_client.py:366-371 | as written, a client with callback options acknowledges every successful STK callback as an internal error |
| Client.StkAck | core/mpesa/client/mpesa_client.py:366-371 | Accepted iff handling ran to completion, else code 1 "Internal Error" |
| Client.C2BValidationAck | core/mpesa/client/mpesa_client.py:373-380 | Accepted iff the validation returned true; Rejected if false; "Validation Failed" if it raised |
| Client.C2BConfirmationAck | core/mpesa/client/mpesa_client.py:382-388 | Accepted iff confirmation handling completed, else "Processing Failed" |
| Client.ResultAck | core/mpesa/client/mpesa_client.py:396-434 | code 0 iff parsing succeeded, the handler (if any) returned, and the result reports success. A failed result with a completed handler gives Rejected; anything that raised gives "Processing Failed" |
| Client.AcksAlwaysWellFormed | core/mpesa/client/mpesa_client.py:366-434 | every callback entry point answers with code 0 or 1 and a non-empty description |
| Client.MpesaClient.constructor | core/mpesa/client/mpesa_client.py:41-65 | builds the corrected callback handler `ClientHandler` (Findings row 5, not the one lines 46-48 build), keeps the retry options, defaults the timeout to 30000 ms, and creates a fresh limiter as SelectLimiter decides |
| Client.MpesaClient.HandleStkCallback | core/mpesa/client/mpesa_client.py:366-371 | the handling and its acknowledgment compute StkAck |
| Client.MpesaClient.HandleResultCallback | core/mpesa/client/mpesa_client.py:396-434 | the parse, the handler call and the acknowledgment compute ResultAck |
| Client.MpesaClient.Destroy | core/mpesa/client/mpesa_client.py:436-441 | an in-memory limiter is destroyed; a shared store is left alone |

## Left out

- HTTP, authentication and tokens: the session, the access token, the base URL, and
  request payload contents other than amount and rate key. An attempt takes the exchange's
  result as a parameter.
- `makeRequest` as one piece. It is modelled as its two parts, one attempt (`Attempt`) and
  the retry loop (`RetryWithBackoff`, with `op(i)` the i-th attempt). The limiter state
  that carries from one attempt to the next is not threaded through the loop.
- The periodic sweep task is not modelled as a task. Its scheduling is the
  `cleanupScheduled` flag and one pass is `Cleanup(now)`. `asyncio.sleep` becomes the
  `Slept` events of a retry run.
- Logging, the `print` calls in the client's callback wrappers, and the Django
  integration.
- `float()` of a string accepts the plain decimal forms only: an optional sign, digits,
  an optional point. Exponents, `inf`, `nan` and surrounding blanks are not modelled.
  Float arithmetic is exact real arithmetic.
- Sync and async handlers are not distinguished. A handler is its outcome. The client's
  result-callback wrappers await a synchronous handler's `None`, which raises; that
  TypeError is not modelled.
- Client.MpesaClient.HandleResultCallback: there is no B2B wrapper in the client, so
  `kind` excludes B2B.
- The text of Python's own exception messages (float conversion, missing-key errors) is
  approximated.
- RateLimitSpec.SharedReset: a real Redis refuses `SET ... EX 0`. The model reads it as a
  counter that expires at once. A TTL key holding a non-numeric value (where `int(ttl)`
  raises) is not modelled.
- Client.MpesaClient.constructor: the client object is built with the corrected handler `ClientHandler`. The handler that `mpesa_client.py:46-48` actually builds is `ClientHandlerAsWritten` (Findings row 5). So HandleStkCallback and HandleResultCallback acknowledge as the corrected client would. The as-written acknowledgment is stated separately by SuccessfulStkCallbackRejected.
- The value types of an API error body. Every field of `ResponseBody` is an optional string, except `retryAfter`, which is an optional integer. A JSON number in `errorCode` or `ResponseCode` cannot be represented: Python's `or` treats an integer 0 as falsy and falls through. A non-integer `retryAfter` cannot be represented either.
- The counter store's expiry is judged lazily against each caller's `now`: an expired counter stays in the map until it is overwritten. This matches a real store only when call times never decrease. RateLimitSpec.LimitersAgree and CorrespondingRuns quantify over call sequences with any times, so for a sequence whose times go backwards they describe this model, not a real Redis.
- Request dictionaries missing a required key raise KeyError in the source. The model's
  request datatypes always carry those keys; only the keys the guards test are optional.
- JSON values in callbacks are leaves: null, bool, int, float or string. Nested objects or
  lists as item values, a non-dict metadata section, an unhashable result code, and an
  item list given as JSON null are not modelled.
- A key present with value None is modelled like an absent key in the parsers' `get`
  reads. It reads as JNull, which is what `get` returns. In the client's callback options, such keys are counted (`noneValued`), because
  they make the dictionary truthy. In the rate-limit options they are not: a key such as
  `maxRequests` given as None is read as absent, so the model uses its default where the
  source would pass None on.
- `parseSTKCallback`, `parseC2BCallback` and `getCallbackHandler` just forward to the
  handler. They are covered by ParseCallback, ParseC2BCallback and the `callbackHandler`
  field.
- Two points where the description of the system and the code differ follow the code:
  - rate-limit errors are classified as retryable;
  - the in-memory and shared limiters disagree for limits below 1 and for windows that
    are not whole seconds (ZeroLimitDisagrees, FractionalWindowDisagrees).

## Findings

| source | as written | input that shows it | evidently intended | confidence | as-written member | corrected member |
|---|---|---|---|---|---|---|
| core/mpesa/utils/retry.py:40 | reads the status as `error["status_code"]`, subscripting an exception | any MpesaTimeoutError or MpesaApiError reaching the classifier | read the `status_code` attribute | high (not executed) | Retry.IsRetryableErrorAsWritten | Retry.IsRetryableError |
| core/mpesa/utils/retry.py:58 | reads the hint as `error["retry_after"]` | an MpesaRateLimitError with retry_after = 5 | wait `retry_after` seconds | high (not executed) | Retry.CalculateDelayAsWritten | Retry.CalculateDelay |
| core/mpesa/client/mpesa_client.py:101-108 | the `raise` sits inside the `except` branch, so a non-2xx response whose body parses is returned | status 400 with body {"errorMessage": "bad"} | raise the typed error for every non-2xx status | high (not executed) | Client.AttemptAsWritten | Client.Attempt |
| core/mpesa/client/mpesa_client.py:114 | tests `hasattr(error, "statusCode")`, an attribute no error has, so typed errors are re-wrapped as retryable network errors | status 401 with a non-JSON body | let typed errors propagate unchanged | high (not executed) | Client.AttemptAsWritten | Client.Attempt |
| core/mpesa/client/mpesa_client.py:46-48 | passes the callback options dict positionally, so it becomes `on_success` | callbackOptions {"validateIp": False} and a successful STK callback | spread the options into the handler's parameters | high (not executed) | Client.ClientHandlerAsWritten | Client.ClientHandler |
