/** The SDK's exception hierarchy: AuthFrameworkError and its subclasses, the
    factory that turns an HTTP error status and an error dict into one of them,
    and the retryability predicate. */
module Exceptions {
  import opened Wrappers
  import opened Json

  /** Which class an AuthFrameworkError instance belongs to; `Base` is
      AuthFrameworkError itself. */
  datatype ErrorKind =
    | Base
    | Validation
    | Authentication
    | Authorization
    | NotFound
    | Conflict
    | RateLimit
    | Server
    | Network
    | Timeout

  /** An AuthFrameworkError instance. `details` is None as `Null`.
      `retryAfter` is `None` when the instance has no `retry_after` attribute,
      which is every class except RateLimitError. */
  datatype SdkError = SdkError(
    kind: ErrorKind,
    message: string,
    code: string,
    details: Value,
    statusCode: Option<int>,
    retryAfter: Option<Value>)

  /** Anything an `except Exception` clause can catch: an SDK error, or an
      exception of another library (httpx, json, pydantic, builtins) by name. */
  datatype Exc = Sdk(error: SdkError) | Foreign(name: string)

  const UnknownCode := "UNKNOWN_ERROR"
  const FallbackMessage := "An error occurred"

  // The constructors of the exception classes.

  function AuthFrameworkError(message: string, code: string, details: Value, statusCode: Option<int>): SdkError {
    SdkError(Base, message, code, details, statusCode, None)
  }

  function ValidationError(message: string, details: Value): SdkError {
    SdkError(Validation, message, "VALIDATION_ERROR", details, Some(400), None)
  }

  function AuthenticationError(message: string, details: Value): SdkError {
    SdkError(Authentication, message, "AUTHENTICATION_ERROR", details, Some(401), None)
  }

  function AuthorizationError(message: string, details: Value): SdkError {
    SdkError(Authorization, message, "AUTHORIZATION_ERROR", details, Some(403), None)
  }

  function NotFoundError(message: string, details: Value): SdkError {
    SdkError(NotFound, message, "NOT_FOUND_ERROR", details, Some(404), None)
  }

  function ConflictError(message: string, details: Value): SdkError {
    SdkError(Conflict, message, "CONFLICT_ERROR", details, Some(409), None)
  }

  function RateLimitError(message: string, retryAfter: Value, details: Value): SdkError {
    SdkError(RateLimit, message, "RATE_LIMIT_ERROR", details, Some(429), Some(retryAfter))
  }

  function ServerError(message: string, details: Value, statusCode: int): SdkError {
    SdkError(Server, message, "SERVER_ERROR", details, Some(statusCode), None)
  }

  function NetworkError(message: string): SdkError {
    SdkError(Network, message, "NETWORK_ERROR", Null, None, None)
  }

  function TimeoutError(message: string): SdkError {
    SdkError(Timeout, message, "TIMEOUT_ERROR", Null, None, None)
  }

  /** `error_response or {}`. */
  function ResponseFields(errorResponse: Option<map<string, Value>>): map<string, Value> {
    if errorResponse.Some? then errorResponse.value else map[]
  }

  /** The message of the error built from a response: the response's "message"
      when the key is there (a None there becomes the fallback, not the
      default), else a non-empty default message, else the fallback. */
  function ResponseMessage(errorResponse: Option<map<string, Value>>, defaultMessage: Option<string>): (m: string)
    ensures var d := ResponseFields(errorResponse);
      && ("message" in d && d["message"].Str? ==> m == d["message"].s)
      && ("message" in d && d["message"] != Null ==> m == PyStr(d["message"]))
      && ("message" in d && d["message"] == Null ==> m == FallbackMessage)
      && ("message" !in d && defaultMessage.Some? && defaultMessage.value != "" ==> m == defaultMessage.value)
      && ("message" !in d && (defaultMessage.None? || defaultMessage.value == "") ==> m == FallbackMessage)
  {
    var fallback := if defaultMessage.Some? && defaultMessage.value != "" then defaultMessage.value else FallbackMessage;
    var message := Get(ResponseFields(errorResponse), "message", Str(fallback));
    if message != Null then PyStr(message) else FallbackMessage
  }

  /** The code of the error built from a response: the response's "code",
      "UNKNOWN_ERROR" when it is absent or None. */
  function ResponseCode(errorResponse: Option<map<string, Value>>): (c: string)
    ensures var d := ResponseFields(errorResponse);
      && ("code" in d && d["code"].Str? ==> c == d["code"].s)
      && ("code" in d && d["code"] != Null ==> c == PyStr(d["code"]))
      && ("code" !in d || d["code"] == Null ==> c == UnknownCode)
  {
    var code := Get(ResponseFields(errorResponse), "code", Str(UnknownCode));
    if code != Null then PyStr(code) else UnknownCode
  }

  /** `create_error_from_response(status_code, error_response, default_message)`. */
  function CreateErrorFromResponse(
    statusCode: int,
    errorResponse: Option<map<string, Value>>,
    defaultMessage: Option<string>): (e: SdkError)
    ensures e.statusCode == Some(statusCode)
    ensures e.message == ResponseMessage(errorResponse, defaultMessage)
    ensures e.details == Get(ResponseFields(errorResponse), "details", Null)
    ensures statusCode == 400 ==> e.kind == Validation && e.code == "VALIDATION_ERROR"
    ensures statusCode == 401 ==> e.kind == Authentication && e.code == "AUTHENTICATION_ERROR"
    ensures statusCode == 403 ==> e.kind == Authorization && e.code == "AUTHORIZATION_ERROR"
    ensures statusCode == 404 ==> e.kind == NotFound && e.code == "NOT_FOUND_ERROR"
    ensures statusCode == 409 ==> e.kind == Conflict && e.code == "CONFLICT_ERROR"
    ensures statusCode == 429 ==> e.kind == RateLimit && e.code == "RATE_LIMIT_ERROR"
    ensures statusCode >= 500 ==> e.kind == Server && e.code == "SERVER_ERROR"
    ensures statusCode !in {400, 401, 403, 404, 409, 429} && statusCode < 500 ==>
      e.kind == Base && e.code == ResponseCode(errorResponse)
    ensures e.retryAfter.Some? <==> statusCode == 429
    ensures e.retryAfter.Some? ==> e.retryAfter.value == Get(ResponseFields(errorResponse), "retry_after", Null)
  {
    var d := ResponseFields(errorResponse);
    var message := ResponseMessage(errorResponse, defaultMessage);
    var details := Get(d, "details", Null);
    if statusCode == 400 then ValidationError(message, details)
    else if statusCode == 401 then AuthenticationError(message, details)
    else if statusCode == 403 then AuthorizationError(message, details)
    else if statusCode == 404 then NotFoundError(message, details)
    else if statusCode == 409 then ConflictError(message, details)
    else if statusCode == 429 then RateLimitError(message, Get(d, "retry_after", Null), details)
    else if statusCode >= 500 then ServerError(message, details, statusCode)
    else AuthFrameworkError(message, ResponseCode(errorResponse), details, Some(statusCode))
  }

  /** `create_error_from_response(status_code, info)` called with whatever the
      error payload of a response was: `info or {}` leaves a falsy payload as
      an empty dict and makes `.get` raise AttributeError on a truthy non-dict. */
  function CreateErrorFromValue(statusCode: int, info: Value): (x: Exc)
    ensures !Truthy(info) ==> x == Sdk(CreateErrorFromResponse(statusCode, None, None))
    ensures info.Object? ==> x == Sdk(CreateErrorFromResponse(statusCode, Some(info.fields), None))
    ensures x.Foreign? <==> Truthy(info) && !info.Object?
  {
    if !Truthy(info) then Sdk(CreateErrorFromResponse(statusCode, None, None))
    else if info.Object? then Sdk(CreateErrorFromResponse(statusCode, Some(info.fields), None))
    else Foreign("AttributeError")
  }

  /** `is_retryable_error(error)`: network errors, timeouts and SDK errors with
      a status of 500 or more; nothing else, and no exception from another
      library. */
  function IsRetryableError(x: Exc): (r: bool)
    ensures r <==> x.Sdk? && (x.error.kind in {Network, Timeout} ||
                              (x.error.statusCode.Some? && x.error.statusCode.value >= 500))
  {
    match x
    case Foreign(_) => false
    case Sdk(e) =>
      if e.kind == Network || e.kind == Timeout then true
      else if e.statusCode.Some? && e.statusCode.value != 0 then e.statusCode.value >= 500
      else false
  }

  /** An error built from a response is retryable exactly when its status is
      a server error. */
  lemma RetryableIffServerStatus(statusCode: int, errorResponse: Option<map<string, Value>>, defaultMessage: Option<string>)
    ensures IsRetryableError(Sdk(CreateErrorFromResponse(statusCode, errorResponse, defaultMessage))) <==> statusCode >= 500
  {
    var e := CreateErrorFromResponse(statusCode, errorResponse, defaultMessage);
    assert e.kind != Network && e.kind != Timeout;
  }
}
