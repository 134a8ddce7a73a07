/** BaseClient: the HTTP client shared by the SDK's services. It keeps the
    stored access token and runs `make_request`, a bounded retry loop over
    `_attempt_request`. */
module Base {
  import opened Wrappers
  import opened Json
  import opened Exceptions
  import opened Http

  const HttpSuccessThreshold := 400
  const UserAgent := "AuthFramework-Python-SDK/1.0.0"

  datatype RequestConfig = RequestConfig(
    jsonData: Option<map<string, Value>>,
    formData: Option<map<string, Value>>,
    params: Option<map<string, Value>>,
    timeout: Option<real>,
    retries: Option<int>)

  const DefaultConfig := RequestConfig(None, None, None, None, None)

  function JsonConfig(data: map<string, Value>): RequestConfig {
    RequestConfig(Some(data), None, None, None, None)
  }

  function FormConfig(data: map<string, Value>): RequestConfig {
    RequestConfig(None, Some(data), None, None, None)
  }

  /** `if config.form_data:` — a non-empty form is sent as a form. */
  predicate FormSent(config: RequestConfig) {
    config.formData.Some? && config.formData.value != map[]
  }

  /** What handling one attempt amounts to: a body is returned, nothing is
      returned (`None`, the attempt is retried), or an SDK error is raised. */
  datatype Step = Returned(body: Value) | NoResponse | Raised(error: SdkError)

  /** An attempt ends the loop when it raises or returns a truthy body. */
  predicate Decisive(s: Step) {
    s.Raised? || (s.Returned? && Truthy(s.body))
  }

  const RequestFailed := AuthFrameworkError("Request failed", UnknownCode, Null, None)
  const MaxRetriesExceeded := AuthFrameworkError("Max retries exceeded", UnknownCode, Null, None)

  /** `_parse_error_response`: the "error" member of a JSON object body, or a
      message/code dict built from the raw text when the body is not JSON. A
      JSON body that is not an object has no `.get` (AttributeError). */
  function ParseErrorResponse(body: ReplyBody, text: string): (r: Result<Value, Exc>)
    ensures body.Unparsable? ==> r == Ok(Object(map["message" := Str(text), "code" := Str(UnknownCode)]))
    ensures body.Parsed? && body.doc.Object? ==> r == Ok(Get(body.doc.fields, "error", Object(map[])))
    ensures r.Err? <==> body.Parsed? && !body.doc.Object?
  {
    match body
    case Unparsable => Ok(Object(map["message" := Str(text), "code" := Str(UnknownCode)]))
    case Parsed(doc) =>
      if doc.Object? then Ok(Get(doc.fields, "error", Object(map[]))) else Err(Foreign("AttributeError"))
  }

  /** The `except Exception` clause of `_attempt_request`. */
  function OtherFailure(x: Exc): Step {
    if !IsRetryableError(x) then Raised(RequestFailed) else NoResponse
  }

  /** `_attempt_request` for one attempt. */
  function AttemptStep(a: Attempt): (s: Step)
    ensures s != NoResponse
    ensures s.Returned? <==> a.Reply? && a.status < HttpSuccessThreshold && a.body.Parsed?
    ensures s.Returned? ==> s.body == a.body.doc
    ensures a.Reply? && a.status >= HttpSuccessThreshold ==> s.Raised?
    ensures a.Reply? && a.status >= HttpSuccessThreshold && a.body.Unparsable? ==>
      s == Raised(CreateErrorFromResponse(a.status, Some(map["message" := Str(a.text), "code" := Str(UnknownCode)]), None))
    ensures a.Reply? && a.status >= HttpSuccessThreshold && a.body.Parsed? && a.body.doc.Object?
            && "error" in a.body.doc.fields && a.body.doc.fields["error"].Object? ==>
      s == Raised(CreateErrorFromResponse(a.status, Some(a.body.doc.fields["error"].fields), None))
    ensures a.Reply? && a.status >= HttpSuccessThreshold && a.body.Parsed? && a.body.doc.Object?
            && !Truthy(Get(a.body.doc.fields, "error", Object(map[]))) ==>
      s == Raised(CreateErrorFromResponse(a.status, None, None))
    ensures a.Reply? && a.status >= HttpSuccessThreshold && a.body.Parsed? && a.body.doc.Object?
            && Truthy(Get(a.body.doc.fields, "error", Object(map[])))
            && !Get(a.body.doc.fields, "error", Object(map[])).Object? ==>
      s == Raised(RequestFailed)
    ensures a.Reply? && a.status >= HttpSuccessThreshold && a.body.Parsed? && !a.body.doc.Object? ==>
      s == Raised(RequestFailed)
    ensures a.Reply? && a.status < HttpSuccessThreshold && a.body.Unparsable? ==> s == Raised(RequestFailed)
    ensures a.TimedOut? ==> s == Raised(TimeoutError("Request timeout"))
    ensures a.NetworkDown? ==> s == Raised(NetworkError("Network error"))
    ensures a.Failed? ==> s == Raised(RequestFailed)
  {
    match a
    case Reply(status, body, text) =>
      if status < HttpSuccessThreshold then
        (if body.Parsed? then Returned(body.doc) else OtherFailure(Foreign("ValueError")))
      else
        (match ParseErrorResponse(body, text)
         case Err(x) => OtherFailure(x)
         case Ok(info) =>
           match CreateErrorFromValue(status, info)
           case Sdk(e) => Raised(e)
           case Foreign(n) => OtherFailure(Foreign(n)))
    case TimedOut => Raised(TimeoutError("Request timeout"))
    case NetworkDown => Raised(NetworkError("Network error"))
    case Failed(n) => OtherFailure(Foreign(n))
  }

  /** A single attempt never raises the error that ends an exhausted loop. */
  lemma AttemptNeverMaxRetries(a: Attempt)
    ensures AttemptStep(a) != Raised(MaxRetriesExceeded)
  {
    match a
    case Reply(status, body, text) =>
      if status >= HttpSuccessThreshold {
        var s := AttemptStep(a);
        assert s.error == RequestFailed || s.error.statusCode == Some(status);
      }
    case _ =>
  }

  /** How a request ended: its result (a body, or the error it raised), the
      pauses taken between attempts, and the number of attempts made. */
  datatype Run = Run(result: Result<Value, SdkError>, sleeps: seq<nat>, attempts: nat)

  /** A run in progress: `sleeps` already taken and `attempts` already made
      before the rest `r`. */
  function Resume(sleeps: seq<nat>, attempts: nat, r: Run): Run {
    Run(r.result, sleeps + r.sleeps, attempts + r.attempts)
  }

  /** Resuming after one more attempt and its pause is resuming once after
      both. */
  lemma ResumeAfter(sleeps: seq<nat>, attempts: nat, pause: seq<nat>, r: Run)
    ensures Resume(sleeps, attempts, Resume(pause, 1, r)) == Resume(sleeps + pause, attempts + 1, r)
  {
    assert sleeps + (pause + r.sleeps) == (sleeps + pause) + r.sleeps;
  }

  /** Attempts left when attempt number `from` is next: `range(retries + 1)`. */
  function AttemptsLeft(from: nat, retries: int): nat {
    if from <= retries then retries + 1 - from else 0
  }

  /** What `_attempt_request` amounts to for each attempt of a transport. */
  function AttemptSteps(transport: nat -> Attempt): nat -> Step {
    (i: nat) => AttemptStep(transport(i))
  }

  /** The loop of `make_request` from attempt `from` on, given what each
      attempt amounts to: it stops at an attempt that raises or returns a
      truthy body, and pauses before every further attempt. */
  function BaseRun(from: nat, retries: int, steps: nat -> Step): Run
    decreases AttemptsLeft(from, retries)
  {
    if from > retries then Run(Err(MaxRetriesExceeded), [], 0)
    else
      var step := steps(from);
      if step.Raised? then Run(Err(step.error), [], 1)
      else if step.Returned? && Truthy(step.body) then Run(Ok(step.body), [], 1)
      else
        var pause := if from < retries then [Backoff(from)] else [];
        Resume(pause, 1, BaseRun(from + 1, retries, steps))
  }

  /** The run from an attempt that does not end the loop: that attempt, its
      pause when another attempt follows, then the run from the next one. */
  lemma BaseRunContinues(from: nat, retries: int, steps: nat -> Step)
    requires from <= retries && !Decisive(steps(from))
    ensures var rest := BaseRun(from + 1, retries, steps);
      BaseRun(from, retries, steps) == Resume(if from < retries then [Backoff(from)] else [], 1, rest)
  {
  }

  /** The pauses `sleeps` are those `make_request` takes after attempts
      `from`, `from + 1`, ... in turn. */
  predicate PausesFrom(sleeps: seq<nat>, from: nat) {
    forall i :: 0 <= i < |sleeps| ==> sleeps[i] == Backoff(from + i)
  }

  /** At least one attempt is made when retries >= 0, at most retries + 1
      attempts are made, and a pause of `min(2**attempt, 10)` follows every
      attempt but the last. */
  lemma {:induction false} BaseRunBounds(from: nat, retries: int, steps: nat -> Step)
    ensures var r := BaseRun(from, retries, steps);
      && (from <= retries ==> r.attempts >= 1)
      && r.attempts <= AttemptsLeft(from, retries)
      && |r.sleeps| == (if r.attempts == 0 then 0 else r.attempts - 1)
      && PausesFrom(r.sleeps, from)
    decreases AttemptsLeft(from, retries)
  {
    if from <= retries && !Decisive(steps(from)) {
      BaseRunContinues(from, retries, steps);
      BaseRunBounds(from + 1, retries, steps);
      var rest := BaseRun(from + 1, retries, steps);
      if from == retries {
        assert rest == Run(Err(MaxRetriesExceeded), [], 0);
      } else {
        PausesBefore(from, rest.sleeps);
      }
    }
  }

  /** A pause after attempt `from` followed by the pauses after the later
      attempts. */
  lemma PausesBefore(from: nat, sleeps: seq<nat>)
    requires PausesFrom(sleeps, from + 1)
    ensures PausesFrom([Backoff(from)] + sleeps, from)
  {
    var all := [Backoff(from)] + sleeps;
    forall i | 0 < i < |all|
      ensures all[i] == Backoff(from + i)
    {
      assert all[i] == sleeps[i - 1];
    }
  }

  /** Every attempt before the last one made did not end the loop. */
  lemma {:induction false} BaseRunPrefix(from: nat, retries: int, steps: nat -> Step)
    ensures var r := BaseRun(from, retries, steps);
      forall i :: from <= i < from + r.attempts - 1 ==> !Decisive(steps(i))
    decreases AttemptsLeft(from, retries)
  {
    if from <= retries && !Decisive(steps(from)) {
      BaseRunContinues(from, retries, steps);
      BaseRunPrefix(from + 1, retries, steps);
    }
  }

  /** The result of a run is the last attempt's: its truthy body, or the
      error it raised, unless the loop ran out with "Max retries exceeded". */
  lemma {:induction false} BaseRunOutcome(from: nat, retries: int, steps: nat -> Step)
    ensures var r := BaseRun(from, retries, steps);
      && (r.result.Ok? ==> r.attempts >= 1 && Truthy(r.result.value)
                           && steps(from + r.attempts - 1) == Returned(r.result.value))
      && (r.result.Err? && r.result.error != MaxRetriesExceeded ==>
            r.attempts >= 1 && steps(from + r.attempts - 1) == Raised(r.result.error))
    decreases AttemptsLeft(from, retries)
  {
    if from <= retries && !Decisive(steps(from)) {
      BaseRunContinues(from, retries, steps);
      BaseRunOutcome(from + 1, retries, steps);
    }
  }

  /** When no attempt raises "Max retries exceeded" itself, the loop raises
      it exactly when every attempt was made and none ended the loop. */
  lemma {:induction false} BaseRunExhausted(from: nat, retries: int, steps: nat -> Step)
    requires forall i :: steps(i) != Raised(MaxRetriesExceeded)
    ensures var r := BaseRun(from, retries, steps);
      r.result == Err(MaxRetriesExceeded) <==>
        r.attempts == AttemptsLeft(from, retries) && forall i :: from <= i < from + r.attempts ==> !Decisive(steps(i))
    decreases AttemptsLeft(from, retries)
  {
    if from <= retries {
      if !Decisive(steps(from)) {
        BaseRunContinues(from, retries, steps);
        BaseRunExhausted(from + 1, retries, steps);
        var rest := BaseRun(from + 1, retries, steps);
        assert AttemptsLeft(from, retries) == AttemptsLeft(from + 1, retries) + 1;
        assert (forall i :: from <= i < from + 1 + rest.attempts ==> !Decisive(steps(i)))
           <==> (forall i :: from + 1 <= i < from + 1 + rest.attempts ==> !Decisive(steps(i)));
      } else {
        assert steps(from) != Raised(MaxRetriesExceeded);
      }
    }
  }

  /** Only a falsy body such as `{}` is retried: an error response, even one
      whose error `is_retryable_error` accepts, ends the loop at once. */
  lemma ServerErrorNotRetried(retries: int, transport: nat -> Attempt, errorDoc: map<string, Value>)
    requires retries >= 0
    requires transport(0).Reply? && transport(0).status >= 500
    requires transport(0).body == Parsed(Object(map["error" := Object(errorDoc)]))
    ensures var r := BaseRun(0, retries, AttemptSteps(transport));
      && r.attempts == 1 && r.sleeps == []
      && r.result == Err(CreateErrorFromResponse(transport(0).status, Some(errorDoc), None))
      && IsRetryableError(Sdk(r.result.error))
  {
    RetryableIffServerStatus(transport(0).status, Some(errorDoc), None);
  }

  /** No attempt of `make_request` raises "Max retries exceeded" itself, so
      the loop raises it exactly when it has used every attempt without a
      decisive one. */
  lemma BaseMaxRetriesOnlyWhenExhausted(retries: int, transport: nat -> Attempt)
    ensures var r := BaseRun(0, retries, AttemptSteps(transport));
      r.result == Err(MaxRetriesExceeded) <==>
        r.attempts == AttemptsLeft(0, retries)
        && forall i: nat :: i < r.attempts ==> !Decisive(AttemptStep(transport(i)))
  {
    var steps := AttemptSteps(transport);
    forall i: nat
      ensures steps(i) == AttemptStep(transport(i)) != Raised(MaxRetriesExceeded)
    {
      AttemptNeverMaxRetries(transport(i));
    }
    BaseRunExhausted(0, retries, steps);
  }

  /** One call of `make_request`: the request it sends on every attempt and
      how the run ended. */
  datatype Exchange = Exchange(request: Request, run: Run)

  class BaseClient {
    const baseUrl: string
    const timeout: real
    const retries: int
    const apiKey: Option<string>
    /** `_access_token`; `Null` is None. The services store whatever value the
        server sent under "access_token". */
    var accessToken: Value

    constructor (baseUrl: string, timeout: real, retries: int, apiKey: Option<string>)
      ensures this.baseUrl == StripTrailingSlashes(baseUrl)
      ensures this.baseUrl == [] || this.baseUrl[|this.baseUrl| - 1] != '/'
      ensures this.timeout == timeout && this.retries == retries && this.apiKey == apiKey
      ensures accessToken == Null
    {
      this.baseUrl := StripTrailingSlashes(baseUrl);
      this.timeout := timeout;
      this.retries := retries;
      this.apiKey := apiKey;
      accessToken := Null;
    }

    /** The headers the underlying HTTP client sends with every request. */
    function DefaultHeaders(): (h: map<string, string>)
      ensures "User-Agent" in h && h["User-Agent"] == UserAgent
      ensures "X-API-Key" in h <==> apiKey.Some? && apiKey.value != ""
      ensures "X-API-Key" in h ==> h["X-API-Key"] == apiKey.value
      ensures h.Keys <= {"User-Agent", "X-API-Key"}
    {
      var base := map["User-Agent" := UserAgent];
      if apiKey.Some? && apiKey.value != "" then base["X-API-Key" := apiKey.value] else base
    }

    method SetAccessToken(token: Value)
      modifies this
      ensures accessToken == token
    {
      accessToken := token;
    }

    method ClearAccessToken()
      modifies this
      ensures accessToken == Null
    {
      accessToken := Null;
    }

    function GetAccessToken(): Value
      reads this
    {
      accessToken
    }

    /** `config.timeout or self.timeout`: a missing or zero timeout falls back
        to the client's. */
    function EffectiveTimeout(config: RequestConfig): (t: real)
      ensures config.timeout.Some? && config.timeout.value != 0.0 ==> t == config.timeout.value
      ensures config.timeout.None? || config.timeout.value == 0.0 ==> t == timeout
    {
      if config.timeout.Some? && config.timeout.value != 0.0 then config.timeout.value else timeout
    }

    /** `config.retries` unless it is None. */
    function EffectiveRetries(config: RequestConfig): (n: int)
      ensures config.retries.Some? ==> n == config.retries.value
      ensures config.retries.None? ==> n == retries
    {
      if config.retries.Some? then config.retries.value else retries
    }

    /** The per-request headers: a bearer credential exactly when a truthy
        token is stored, and the form content type when a form is sent. */
    function RequestHeaders(formSent: bool): (h: map<string, string>)
      reads this
      ensures "Authorization" in h <==> Truthy(accessToken)
      ensures "Authorization" in h ==> h["Authorization"] == BearerPrefix + PyStr(accessToken)
      ensures accessToken.Str? && accessToken.s != "" ==> h["Authorization"] == BearerPrefix + accessToken.s
      ensures "Content-Type" in h <==> formSent
      ensures formSent ==> h["Content-Type"] == "application/x-www-form-urlencoded"
      ensures h.Keys <= {"Authorization", "Content-Type"}
    {
      var auth: map<string, string> :=
        if Truthy(accessToken) then map["Authorization" := BearerPrefix + PyStr(accessToken)] else map[];
      if formSent then auth["Content-Type" := "application/x-www-form-urlencoded"] else auth
    }

    /** The request `make_request` and `_execute_request` send. */
    function BuildRequest(verb: string, endpoint: string, config: RequestConfig): Request
      reads this
    {
      var form := FormSent(config);
      Request(
        verb,
        Url(baseUrl, StripLeadingSlashes(endpoint)),
        RequestHeaders(form),
        if form then Form(config.formData.value) else JsonPayload(config.jsonData),
        config.params,
        EffectiveTimeout(config))
    }

    /** `make_request`: attempt `transport(0)`, `transport(1)`, ... until one
        raises or returns a truthy body, pausing `min(2**attempt, 10)` between
        attempts, and raise "Max retries exceeded" once retries + 1 attempts
        have failed. */
    method MakeRequest(verb: string, endpoint: string, config: RequestConfig, transport: nat -> Attempt)
      returns (x: Exchange)
      ensures x.request == BuildRequest(verb, endpoint, config)
      ensures x.run == BaseRun(0, EffectiveRetries(config), AttemptSteps(transport))
    {
      var request := BuildRequest(verb, endpoint, config);
      var requestRetries := EffectiveRetries(config);
      var attempt: nat := 0;
      var sleeps: seq<nat> := [];
      while attempt <= requestRetries
        invariant BaseRun(0, requestRetries, AttemptSteps(transport))
               == Resume(sleeps, attempt, BaseRun(attempt, requestRetries, AttemptSteps(transport)))
        decreases requestRetries + 1 - attempt
      {
        var step := AttemptStep(transport(attempt));
        if step.Raised? {
          return Exchange(request, Run(Err(step.error), sleeps, attempt + 1));
        }
        if step.Returned? && Truthy(step.body) {
          return Exchange(request, Run(Ok(step.body), sleeps, attempt + 1));
        }
        // the pause `min(2**attempt, 10)`, taken only before another attempt
        var pause := if attempt < requestRetries then [Backoff(attempt)] else [];
        ResumeAfter(sleeps, attempt, pause, BaseRun(attempt + 1, requestRetries, AttemptSteps(transport)));
        sleeps := sleeps + pause;
        attempt := attempt + 1;
      }
      x := Exchange(request, Run(Err(MaxRetriesExceeded), sleeps, attempt));
    }
  }

  /** Python's `key in v` for a JSON value: a key of a dict, an item of a
      list, a substring of a string; None, a bool or a number is not a
      container, and the test raises TypeError. */
  function Contains(v: Value, key: string): (r: Result<bool, Exc>)
    ensures r.Err? <==> v.Null? || v.Bool? || v.Int?
    ensures r.Err? ==> r.error == Foreign(TypeErrorName)
    ensures v.Object? ==> r == Ok(key in v.fields)
    ensures v.List? ==> r == Ok(Str(key) in v.items)
    ensures v.Str? ==> r == Ok(exists i :: OccursAt(key, v.s, i))
  {
    match v
    case Object(fields) => Ok(key in fields)
    case List(items) => Ok(Str(key) in items)
    case Str(s) => Ok(Occurs(key, s))
    case _ => Err(Foreign(TypeErrorName))
  }

  const TypeErrorName := "TypeError"

  /** What `login`, `refresh_token` and `token` hand back once their request
      is over: the error it raised, or the response, unless
      `"access_token" in response` raises TypeError, or holds for a string or
      a list, whose `response["access_token"]` raises TypeError. */
  function TokenResponseOutcome(result: Result<Value, SdkError>): (r: Result<Value, Exc>)
    ensures result.Err? ==> r == Err(Sdk(result.error))
    ensures result.Ok? && result.value.Object? ==> r == Ok(result.value)
    ensures result.Ok? ==>
      (r.Err? <==> Contains(result.value, "access_token") != Ok(false) && !result.value.Object?)
    ensures result.Ok? && r.Err? ==> r == Err(Foreign(TypeErrorName))
    ensures r.Ok? ==> result == Ok(r.value)
  {
    match result
    case Err(e) => Err(Sdk(e))
    case Ok(body) =>
      match Contains(body, "access_token")
      case Err(x) => Err(x)
      case Ok(found) => if found && !body.Object? then Err(Foreign(TypeErrorName)) else Ok(body)
  }

  /** The stored token after a request whose response may carry a new one:
      `response["access_token"]` when the key is present, else unchanged. */
  function TokenAfter(result: Result<Value, SdkError>, previous: Value): Value {
    if result.Ok? && HasKey(result.value, "access_token") then result.value.fields["access_token"] else previous
  }

  /** A request that raised, or a response that makes `"access_token" in
      response` or `response["access_token"]` raise, leaves the stored token
      as it was. */
  lemma TokenKeptWhenRaised(result: Result<Value, SdkError>, previous: Value)
    ensures TokenResponseOutcome(result).Err? ==> TokenAfter(result, previous) == previous
    ensures TokenAfter(result, previous) != previous ==>
      TokenResponseOutcome(result).Ok? && HasKey(result.value, "access_token")
  {
  }
}
