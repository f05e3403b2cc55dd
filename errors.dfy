/** The error taxonomy of the gateway client and the mapping from a non-2xx HTTP
    response to a typed error. */
module Errors {
  import opened Wrappers
  import opened Text

  /** The fields of a JSON error body that the client reads. Values are abstracted to
      strings (and the retry hint to an int); a missing key is None. */
  datatype ResponseBody = ResponseBody(
    errorMessage: Option<string>,
    responseDescription: Option<string>,
    message: Option<string>,
    errorCode: Option<string>,
    responseCode: Option<string>,
    retryAfter: Option<int>)

  const EmptyBody := ResponseBody(None, None, None, None, None, None)

  /** What an error carries in its `details` attribute. */
  datatype Details =
    | NoDetails
    | Body(body: ResponseBody)
    | LimitInfo(limit: int, windowMs: int, resetAt: Option<int>)
    | Cause(cause: Exception)

  /** One constructor per error class. Every class but the base and the API error fixes
      its own code and HTTP status. */
  datatype MpesaError =
    | BaseError(message: string, code: Option<string>, status: Option<int>, details: Details)
    | AuthError(message: string, details: Details)
    | ValidationError(message: string, details: Details)
    | NetworkError(message: string, isRetryable: bool, details: Details)
    | TimeoutError(message: string, details: Details)
    | RateLimitError(message: string, retryAfter: Option<int>, details: Details)
    | ApiError(message: string, apiCode: string, apiStatus: int, details: Details)
  {
    /** The `code` attribute. */
    function Code(): Option<string> {
      match this
      case BaseError(_, c, _, _) => c
      case AuthError(_, _) => Some("AUTH_ERROR")
      case ValidationError(_, _) => Some("VALIDATION_ERROR")
      case NetworkError(_, _, _) => Some("NETWORK_ERROR")
      case TimeoutError(_, _) => Some("TIMEOUT_ERROR")
      case RateLimitError(_, _, _) => Some("RATE_LIMIT_ERROR")
      case ApiError(_, c, _, _) => Some(c)
    }

    /** The `status_code` attribute. */
    function StatusCode(): Option<int> {
      match this
      case BaseError(_, _, s, _) => s
      case AuthError(_, _) => Some(401)
      case ValidationError(_, _) => Some(400)
      case NetworkError(_, _, _) => Some(503)
      case TimeoutError(_, _) => Some(408)
      case RateLimitError(_, _, _) => Some(429)
      case ApiError(_, _, s, _) => Some(s)
    }

    /** The class name, as Python reports it. */
    function ClassName(): string {
      match this
      case BaseError(_, _, _, _) => "MpesaError"
      case AuthError(_, _) => "MpesaAuthError"
      case ValidationError(_, _) => "MpesaValidationError"
      case NetworkError(_, _, _) => "MpesaNetworkError"
      case TimeoutError(_, _) => "MpesaTimeoutError"
      case RateLimitError(_, _, _) => "MpesaRateLimitError"
      case ApiError(_, _, _, _) => "MpesaApiError"
    }
  }

  /** Any exception that reaches the modelled code. `Foreign` is an exception from code
      outside the model (a transport library, a registered handler); it exposes the
      `name` and `code` attributes that retry classification inspects. */
  datatype Exception =
    | Mpesa(err: MpesaError)
    | KeyError(key: string)
    | ValueError(message: string)
    | TypeError(message: string)
    | Foreign(className: string, name: Option<string>, code: Option<string>, message: string)

  /** `str(error)`. */
  function Describe(e: Exception): string {
    match e
    case Mpesa(err) => err.message
    case KeyError(k) => "'" + k + "'"
    case ValueError(m) => m
    case TypeError(m) => m
    case Foreign(_, _, _, m) => m
  }

  /** Python truthiness of an optional string: present and non-empty. */
  predicate Truthy(o: Option<string>) {
    o.Some? && o.value != ""
  }

  /** `a or b or ... or default`: the first truthy candidate, else the default. */
  function FirstTruthy(candidates: seq<Option<string>>, default: string): (r: string)
    ensures (forall i | 0 <= i < |candidates| :: !Truthy(candidates[i])) ==> r == default
    ensures forall i | 0 <= i < |candidates| ::
      Truthy(candidates[i]) && (forall j | 0 <= j < i :: !Truthy(candidates[j])) ==> r == candidates[i].value
    ensures default != "" ==> r != ""
  {
    if candidates == [] then default
    else if Truthy(candidates[0]) then candidates[0].value
    else FirstTruthy(candidates[1..], default)
  }

  function ErrorMessageOf(body: ResponseBody): string {
    FirstTruthy([body.errorMessage, body.responseDescription, body.message], "Unknown API error")
  }

  function ErrorCodeOf(body: ResponseBody): string {
    FirstTruthy([body.errorCode, body.responseCode], "UNKNOWN_ERROR")
  }

  /** Maps an HTTP status and its JSON error body to a typed error. The checks run in the
      order 401, 403, 400, 429, >= 500, so 429 is a rate-limit error although it is
      not a server error, and every other status becomes an API error. */
  function ParseApiError(status: int, body: ResponseBody): (r: MpesaError)
    ensures r.message == ErrorMessageOf(body) && r.message != ""
    ensures r.details == Body(body)
    ensures r.AuthError? <==> status == 401 || status == 403
    ensures r.ValidationError? <==> status == 400
    ensures r.RateLimitError? <==> status == 429
    ensures r.RateLimitError? ==> r.retryAfter == body.retryAfter
    ensures r.NetworkError? <==> status >= 500
    ensures r.NetworkError? ==> r.isRetryable
    ensures r.ApiError? <==> !(status in {400, 401, 403, 429} || status >= 500)
    ensures r.ApiError? ==> r.apiStatus == status && r.apiCode == ErrorCodeOf(body) && r.apiCode != ""
    ensures !r.BaseError? && !r.TimeoutError?
  {
    var message := ErrorMessageOf(body);
    var code := ErrorCodeOf(body);
    if status == 401 then AuthError(message, Body(body))
    else if status == 403 then AuthError(message, Body(body))
    else if status == 400 then ValidationError(message, Body(body))
    else if status == 429 then RateLimitError(message, body.retryAfter, Body(body))
    else if status >= 500 then NetworkError(message, true, Body(body))
    else ApiError(message, code, status, Body(body))
  }

  /** Each error class fixes its code and status. */
  lemma FixedCodeAndStatus(e: MpesaError)
    ensures e.AuthError? ==> e.Code() == Some("AUTH_ERROR") && e.StatusCode() == Some(401)
    ensures e.ValidationError? ==> e.Code() == Some("VALIDATION_ERROR") && e.StatusCode() == Some(400)
    ensures e.NetworkError? ==> e.Code() == Some("NETWORK_ERROR") && e.StatusCode() == Some(503)
    ensures e.TimeoutError? ==> e.Code() == Some("TIMEOUT_ERROR") && e.StatusCode() == Some(408)
    ensures e.RateLimitError? ==> e.Code() == Some("RATE_LIMIT_ERROR") && e.StatusCode() == Some(429)
  {
  }

  /** The status an error parsed from a response reports is the response's own status,
      except that 403 reports 401 and every 5xx reports 503; its code is never empty. */
  lemma ParsedStatusAndCode(status: int, body: ResponseBody)
    ensures ParseApiError(status, body).StatusCode() ==
      Some(if status == 403 then 401 else if status >= 500 then 503 else status)
    ensures ParseApiError(status, body).Code().Some? && ParseApiError(status, body).Code().value != ""
  {
  }
}
