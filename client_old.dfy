/** The older all-in-one AuthFrameworkClient. Its `_make_request` retries
    timeouts and network errors, raising them only on the final attempt, and
    returns any body of a successful response, even an empty one. */
module ClientOld {
  import opened Wrappers
  import opened Json
  import opened Exceptions
  import opened Http
  import opened Base
  import Users

  /** The error payload of an error response: the "error" member of a JSON
      object body, or a message/code dict built from the raw text when the
      body is not JSON or not an object (the inner `except Exception`). */
  function LegacyErrorInfo(body: ReplyBody, text: string): (info: Value)
    ensures body.Parsed? && body.doc.Object? ==> info == Get(body.doc.fields, "error", Object(map[]))
    ensures !(body.Parsed? && body.doc.Object?) ==>
      info == Object(map["message" := Str(text), "code" := Str(UnknownCode)])
  {
    if body.Parsed? && body.doc.Object? then Get(body.doc.fields, "error", Object(map[]))
    else Object(map["message" := Str(text), "code" := Str(UnknownCode)])
  }

  /** The `except Exception` clause: raise "Request failed" on the last
      attempt or when the exception is not retryable. */
  function LegacyOtherFailure(x: Exc, isLast: bool): Step {
    if isLast || !IsRetryableError(x) then Raised(RequestFailed) else NoResponse
  }

  /** One pass through the body of the `for attempt` loop. `NoResponse` means
      the exception was swallowed and the loop goes on. */
  function LegacyStep(a: Attempt, isLast: bool): (s: Step)
    ensures s.NoResponse? <==> !isLast && (a.TimedOut? || a.NetworkDown?)
    ensures s.Returned? <==> a.Reply? && a.status < HttpSuccessThreshold && a.body.Parsed?
    ensures s.Returned? ==> s.body == a.body.doc
    ensures isLast && a.TimedOut? ==> s == Raised(TimeoutError("Request timeout"))
    ensures isLast && a.NetworkDown? ==> s == Raised(NetworkError("Network error"))
    ensures a.Failed? ==> s == Raised(RequestFailed)
    ensures a.Reply? && a.status >= HttpSuccessThreshold ==> s.Raised?
    ensures a.Reply? && a.status >= HttpSuccessThreshold && a.body.Parsed? && a.body.doc.Object?
            && "error" in a.body.doc.fields && a.body.doc.fields["error"].Object? ==>
      s == Raised(CreateErrorFromResponse(a.status, Some(a.body.doc.fields["error"].fields), None))
    ensures a.Reply? && a.status >= HttpSuccessThreshold && a.body.Parsed? && a.body.doc.Object?
            && !Truthy(Get(a.body.doc.fields, "error", Object(map[]))) ==>
      s == Raised(CreateErrorFromResponse(a.status, None, None))
    ensures a.Reply? && a.status >= HttpSuccessThreshold && a.body.Parsed? && a.body.doc.Object?
            && Truthy(Get(a.body.doc.fields, "error", Object(map[])))
            && !Get(a.body.doc.fields, "error", Object(map[])).Object? ==>
      s == Raised(RequestFailed)
    ensures a.Reply? && a.status >= HttpSuccessThreshold && !(a.body.Parsed? && a.body.doc.Object?) ==>
      s == Raised(CreateErrorFromResponse(a.status, Some(map["message" := Str(a.text), "code" := Str(UnknownCode)]), None))
    ensures a.Reply? && a.status < HttpSuccessThreshold && a.body.Unparsable? ==> s == Raised(RequestFailed)
  {
    match a
    case Reply(status, body, text) =>
      if status < HttpSuccessThreshold then
        (if body.Parsed? then Returned(body.doc) else LegacyOtherFailure(Foreign("ValueError"), isLast))
      else
        (match CreateErrorFromValue(status, LegacyErrorInfo(body, text))
         case Sdk(e) => Raised(e)
         case Foreign(n) => LegacyOtherFailure(Foreign(n), isLast))
    case TimedOut => if isLast then Raised(TimeoutError("Request timeout")) else NoResponse
    case NetworkDown => if isLast then Raised(NetworkError("Network error")) else NoResponse
    case Failed(n) => LegacyOtherFailure(Foreign(n), isLast)
  }

  lemma LegacyStepNeverMaxRetries(a: Attempt, isLast: bool)
    ensures LegacyStep(a, isLast) != Raised(MaxRetriesExceeded)
  {
    match a
    case Reply(status, body, text) =>
      if status >= HttpSuccessThreshold {
        var s := LegacyStep(a, isLast);
        assert s.error == RequestFailed || s.error.statusCode == Some(status);
      }
    case _ =>
  }

  /** What each pass through the loop amounts to for a transport, the pass
      numbered `retries` being the final one. */
  function LegacySteps(transport: nat -> Attempt, retries: int): nat -> Step {
    (i: nat) => LegacyStep(transport(i), i == retries)
  }

  /** The loop of `_make_request` from attempt `from` on, given what each
      pass amounts to: it stops at the first pass that returns or raises. */
  function LegacyRun(from: nat, retries: int, steps: nat -> Step): Run
    decreases AttemptsLeft(from, retries)
  {
    if from > retries then Run(Err(MaxRetriesExceeded), [], 0)
    else
      match steps(from)
      case Returned(body) => Run(Ok(body), [], 1)
      case Raised(e) => Run(Err(e), [], 1)
      case NoResponse =>
        var pause := if from < retries then [Backoff(from)] else [];
        Resume(pause, 1, LegacyRun(from + 1, retries, steps))
  }

  /** The run from a pass that swallowed its exception: that attempt, its
      pause when another attempt follows, then the run from the next one. */
  lemma LegacyRunContinues(from: nat, retries: int, steps: nat -> Step)
    requires from <= retries && steps(from).NoResponse?
    ensures var rest := LegacyRun(from + 1, retries, steps);
      LegacyRun(from, retries, steps) == Resume(if from < retries then [Backoff(from)] else [], 1, rest)
  {
  }

  /** The run from a pass that returned or raised: that attempt alone. */
  lemma LegacyRunStops(from: nat, retries: int, steps: nat -> Step)
    requires from <= retries && !steps(from).NoResponse?
    ensures LegacyRun(from, retries, steps)
         == Run(if steps(from).Returned? then Ok(steps(from).body) else Err(steps(from).error), [], 1)
  {
  }

  /** At least one attempt is made when retries >= 0, at most retries + 1
      are made, with a pause of `min(2**attempt, 10)` after every attempt
      but the last one made. */
  lemma {:induction false} LegacyRunBounds(from: nat, retries: int, steps: nat -> Step)
    ensures var r := LegacyRun(from, retries, steps);
      && (from <= retries ==> r.attempts >= 1)
      && r.attempts <= AttemptsLeft(from, retries)
      && |r.sleeps| == (if r.attempts == 0 then 0 else r.attempts - 1)
      && PausesFrom(r.sleeps, from)
    decreases AttemptsLeft(from, retries)
  {
    if from <= retries && steps(from).NoResponse? {
      LegacyRunContinues(from, retries, steps);
      LegacyRunBounds(from + 1, retries, steps);
      var rest := LegacyRun(from + 1, retries, steps);
      if from == retries {
        assert rest == Run(Err(MaxRetriesExceeded), [], 0);
      } else {
        PausesBefore(from, rest.sleeps);
      }
    }
  }

  /** Every pass before the last one made swallowed its exception. */
  lemma {:induction false} LegacyRunPrefix(from: nat, retries: int, steps: nat -> Step)
    ensures var r := LegacyRun(from, retries, steps);
      forall i :: from <= i < from + r.attempts - 1 ==> steps(i).NoResponse?
    decreases AttemptsLeft(from, retries)
  {
    if from <= retries && steps(from).NoResponse? {
      LegacyRunContinues(from, retries, steps);
      LegacyRunPrefix(from + 1, retries, steps);
    }
  }

  /** The result is what the last pass returned (any body, an empty one
      included) or raised, unless no pass decided. */
  lemma {:induction false} LegacyRunOutcome(from: nat, retries: int, steps: nat -> Step)
    ensures var r := LegacyRun(from, retries, steps);
      && (r.result.Ok? ==> r.attempts >= 1 && steps(from + r.attempts - 1) == Returned(r.result.value))
      && (r.result.Err? && r.result.error != MaxRetriesExceeded ==>
            r.attempts >= 1 && steps(from + r.attempts - 1) == Raised(r.result.error))
    decreases AttemptsLeft(from, retries)
  {
    if from <= retries && steps(from).NoResponse? {
      LegacyRunContinues(from, retries, steps);
      LegacyRunOutcome(from + 1, retries, steps);
    }
  }

  /** Only timeouts and network errors are retried: every attempt before the
      last one made timed out or lost the network. */
  lemma LegacyRetriesOnlyTransient(retries: int, transport: nat -> Attempt)
    ensures var r := LegacyRun(0, retries, LegacySteps(transport, retries));
      forall i: nat :: i < r.attempts - 1 ==> transport(i).TimedOut? || transport(i).NetworkDown?
  {
    var steps := LegacySteps(transport, retries);
    var r := LegacyRun(0, retries, steps);
    LegacyRunPrefix(0, retries, steps);
    LegacyRunBounds(0, retries, steps);
    forall i: nat | i < r.attempts - 1
      ensures transport(i).TimedOut? || transport(i).NetworkDown?
    {
      assert steps(i) == LegacyStep(transport(i), false);
    }
  }

  /** The final attempt always decides, so "Max retries exceeded" is raised
      exactly when the loop makes no attempt at all (negative retries). */
  lemma {:induction false} LegacyMaxRetriesOnlyWithoutAttempts(from: nat, retries: int, transport: nat -> Attempt)
    ensures LegacyRun(from, retries, LegacySteps(transport, retries)).result == Err(MaxRetriesExceeded)
            <==> from > retries
    decreases AttemptsLeft(from, retries)
  {
    var steps := LegacySteps(transport, retries);
    if from <= retries {
      assert steps(from) == LegacyStep(transport(from), from == retries);
      LegacyStepNeverMaxRetries(transport(from), from == retries);
      if steps(from).NoResponse? {
        LegacyRunContinues(from, retries, steps);
        LegacyMaxRetriesOnlyWithoutAttempts(from + 1, retries, transport);
      }
    }
  }

  /** When every attempt times out or loses the network, all retries + 1
      attempts are made and the final attempt's failure is raised as
      TimeoutError or NetworkError. */
  lemma {:induction false} LegacyTransientFailuresRetried(from: nat, retries: int, transport: nat -> Attempt)
    requires from <= retries
    requires forall i :: from <= i <= retries ==> transport(i).TimedOut? || transport(i).NetworkDown?
    ensures var r := LegacyRun(from, retries, LegacySteps(transport, retries));
      && r.attempts == retries + 1 - from
      && (transport(retries).TimedOut? ==> r.result == Err(TimeoutError("Request timeout")))
      && (transport(retries).NetworkDown? ==> r.result == Err(NetworkError("Network error")))
    decreases retries - from
  {
    var steps := LegacySteps(transport, retries);
    assert steps(from) == LegacyStep(transport(from), from == retries);
    if from < retries {
      LegacyRunContinues(from, retries, steps);
      LegacyTransientFailuresRetried(from + 1, retries, transport);
    }
  }

  /** The `for attempt in range(retries + 1)` loop of `_make_request`: the
      attempts it makes, the pauses between them and how it ends. */
  method LegacyAttempts(retries: int, transport: nat -> Attempt) returns (run: Run)
    ensures run == LegacyRun(0, retries, LegacySteps(transport, retries))
  {
    var steps := LegacySteps(transport, retries);
    var attempt: nat := 0;
    var sleeps: seq<nat> := [];
    while attempt <= retries
      invariant LegacyRun(0, retries, steps) == Resume(sleeps, attempt, LegacyRun(attempt, retries, steps))
      decreases retries + 1 - attempt
    {
      // one pass: `LegacyStep` of this attempt, the final one when attempt == retries
      var step := steps(attempt);
      if !step.NoResponse? {
        LegacyRunStops(attempt, retries, steps);
        var result := if step.Returned? then Ok(step.body) else Err(step.error);
        return Run(result, sleeps, attempt + 1);
      }
      // the pause `min(2**attempt, 10)`, taken only before another attempt
      var pause := if attempt < retries then [Backoff(attempt)] else [];
      LegacyRunContinues(attempt, retries, steps);
      ResumeAfter(sleeps, attempt, pause, LegacyRun(attempt + 1, retries, steps));
      sleeps := sleeps + pause;
      attempt := attempt + 1;
    }
    run := Run(Err(MaxRetriesExceeded), sleeps, attempt);
  }

  /** The authorization URL: the query keeps exactly the parameters whose
      value is not None. Percent-encoding is not modelled. */
  datatype AuthorizeUrl = AuthorizeUrl(prefix: string, query: map<string, Value>)

  /** The form of `get_oauth_token`: every argument kept under its name, None
      as None and anything else as `str(value)`. */
  function OAuthTokenForm(kwargs: map<string, Value>): (form: map<string, Value>)
    ensures form.Keys == kwargs.Keys
    ensures forall k :: k in form && kwargs[k] == Null ==> form[k] == Null
    ensures forall k :: k in form && kwargs[k] != Null ==> form[k] == Str(PyStr(kwargs[k]))
    ensures forall k :: k in form && kwargs[k].Str? ==> form[k] == kwargs[k]
  {
    map k | k in kwargs :: if kwargs[k] == Null then Null else Str(PyStr(kwargs[k]))
  }

  const KeyErrorName := "KeyError"

  /** `TokenResponse`: the new access token, its type and its lifetime. */
  datatype TokenResponse = TokenResponse(accessToken: string, tokenType: string, expiresIn: int)

  /** `LoginResponse`: the tokens, their type and lifetime, and the user. */
  datatype LoginResponse = LoginResponse(
    accessToken: string, refreshToken: string, tokenType: string, expiresIn: int, user: Users.UserInfo)

  /** `OAuthTokenResponse`: the token, its type and lifetime, and the
      optional refresh token and scope. */
  datatype OAuthTokenResponse = OAuthTokenResponse(
    accessToken: string, tokenType: string, expiresIn: int, refreshToken: Option<string>, scope: Option<string>)

  /** A `str | None = None` field: absent, None or a string. */
  predicate OptionalStr(v: Value) {
    v.Null? || v.Str?
  }

  function OptionalStrValue(v: Value): Option<string> {
    if v.Str? then Some(v.s) else None
  }

  /** `Model(**v)` needs a dict: anything else raises TypeError. */
  function Unpacked(v: Value): (r: Result<map<string, Value>, Exc>)
    ensures r.Ok? <==> v.Object?
    ensures r.Ok? ==> r.value == v.fields
    ensures r.Err? ==> r.error == Foreign(TypeErrorName)
  {
    if v.Object? then Ok(v.fields) else Err(Foreign(TypeErrorName))
  }

  /** `response["data"]` unpacked with `**`: indexing anything but a dict
      raises TypeError, a dict without "data" KeyError, and a "data" that is
      not a dict TypeError. */
  function DataFields(body: Value): (r: Result<map<string, Value>, Exc>)
    ensures r.Ok? <==> HasKey(body, "data") && body.fields["data"].Object?
    ensures r.Ok? ==> r.value == body.fields["data"].fields
    ensures body.Object? && "data" !in body.fields ==> r == Err(Foreign(KeyErrorName))
    ensures r.Err? && !(body.Object? && "data" !in body.fields) ==> r == Err(Foreign(TypeErrorName))
  {
    if !body.Object? then Err(Foreign(TypeErrorName))
    else if "data" !in body.fields then Err(Foreign(KeyErrorName))
    else Unpacked(body.fields["data"])
  }

  /** pydantic's validation of `TokenResponse(**fields)`: every field is
      required with its declared type, and other keys are ignored. */
  function TokenResponseOf(fields: map<string, Value>): (r: Option<TokenResponse>)
    ensures r.Some? <==>
      && Get(fields, "access_token", Null).Str? && Get(fields, "token_type", Null).Str?
      && Get(fields, "expires_in", Null).Int?
    ensures r.Some? ==>
      && Str(r.value.accessToken) == fields["access_token"] && Str(r.value.tokenType) == fields["token_type"]
      && Int(r.value.expiresIn) == fields["expires_in"]
  {
    var token := Get(fields, "access_token", Null);
    var kind := Get(fields, "token_type", Null);
    var expires := Get(fields, "expires_in", Null);
    if token.Str? && kind.Str? && expires.Int? then Some(TokenResponse(token.s, kind.s, expires.i)) else None
  }

  /** The nested `user: UserInfo` field, validated from a dict: missing
      required fields fail, a missing `last_login` is None. */
  function UserInfoOf(v: Value): (r: Option<Users.UserInfo>)
    ensures r.Some? ==> v.Object? && "id" in v.fields && Str(r.value.id) == v.fields["id"]
    ensures r.Some? ==> "roles" in v.fields && Users.ListedRoles(v.fields["roles"], r.value.roles)
    ensures !v.Object? ==> r.None?
    ensures v.Object? ==> r == Users.MakeUserInfo(
      Get(v.fields, "id", Null), Get(v.fields, "username", Null), Get(v.fields, "email", Null),
      Get(v.fields, "roles", Null), Get(v.fields, "mfa_enabled", Null), Get(v.fields, "created_at", Null),
      Get(v.fields, "last_login", Null))
  {
    if !v.Object? then None
    else
      var u := v.fields;
      Users.MakeUserInfo(
        Get(u, "id", Null), Get(u, "username", Null), Get(u, "email", Null), Get(u, "roles", Null),
        Get(u, "mfa_enabled", Null), Get(u, "created_at", Null), Get(u, "last_login", Null))
  }

  /** pydantic's validation of `LoginResponse(**fields)`. */
  function LoginResponseOf(fields: map<string, Value>): (r: Option<LoginResponse>)
    ensures r.Some? <==>
      && Get(fields, "access_token", Null).Str? && Get(fields, "refresh_token", Null).Str?
      && Get(fields, "token_type", Null).Str? && Get(fields, "expires_in", Null).Int?
      && UserInfoOf(Get(fields, "user", Null)).Some?
    ensures r.Some? ==>
      && Str(r.value.accessToken) == fields["access_token"] && Str(r.value.refreshToken) == fields["refresh_token"]
      && Str(r.value.tokenType) == fields["token_type"] && Int(r.value.expiresIn) == fields["expires_in"]
      && Some(r.value.user) == UserInfoOf(fields["user"])
  {
    var token := Get(fields, "access_token", Null);
    var refresh := Get(fields, "refresh_token", Null);
    var kind := Get(fields, "token_type", Null);
    var expires := Get(fields, "expires_in", Null);
    var user := UserInfoOf(Get(fields, "user", Null));
    if token.Str? && refresh.Str? && kind.Str? && expires.Int? && user.Some?
    then Some(LoginResponse(token.s, refresh.s, kind.s, expires.i, user.value))
    else None
  }

  /** pydantic's validation of `OAuthTokenResponse(**fields)`. */
  function OAuthTokenResponseOf(fields: map<string, Value>): (r: Option<OAuthTokenResponse>)
    ensures r.Some? <==>
      && Get(fields, "access_token", Null).Str? && Get(fields, "token_type", Null).Str?
      && Get(fields, "expires_in", Null).Int?
      && OptionalStr(Get(fields, "refresh_token", Null)) && OptionalStr(Get(fields, "scope", Null))
    ensures r.Some? ==>
      && Str(r.value.accessToken) == fields["access_token"] && Str(r.value.tokenType) == fields["token_type"]
      && Int(r.value.expiresIn) == fields["expires_in"]
      && (r.value.refreshToken.Some? <==> "refresh_token" in fields && fields["refresh_token"].Str?)
      && (r.value.refreshToken.Some? ==> Str(r.value.refreshToken.value) == fields["refresh_token"])
      && (r.value.scope.Some? <==> "scope" in fields && fields["scope"].Str?)
      && (r.value.scope.Some? ==> Str(r.value.scope.value) == fields["scope"])
  {
    var token := Get(fields, "access_token", Null);
    var kind := Get(fields, "token_type", Null);
    var expires := Get(fields, "expires_in", Null);
    var refresh := Get(fields, "refresh_token", Null);
    var scope := Get(fields, "scope", Null);
    if token.Str? && kind.Str? && expires.Int? && OptionalStr(refresh) && OptionalStr(scope)
    then Some(OAuthTokenResponse(token.s, kind.s, expires.i, OptionalStrValue(refresh), OptionalStrValue(scope)))
    else None
  }

  /** The dict the server sends for a `TokenResponse`. */
  function TokenResponseJson(t: TokenResponse): Value {
    Object(map["access_token" := Str(t.accessToken), "token_type" := Str(t.tokenType), "expires_in" := Int(t.expiresIn)])
  }

  /** The dict the server sends for an `OAuthTokenResponse`: the optional
      fields only when present. */
  function OAuthTokenResponseJson(t: OAuthTokenResponse): Value {
    var base := map["access_token" := Str(t.accessToken), "token_type" := Str(t.tokenType), "expires_in" := Int(t.expiresIn)];
    var withRefresh := if t.refreshToken.Some? then base["refresh_token" := Str(t.refreshToken.value)] else base;
    Object(if t.scope.Some? then withRefresh["scope" := Str(t.scope.value)] else withRefresh)
  }

  /** Every `TokenResponse` validates back from its own dict, and an extra
      key does not change that. */
  lemma TokenResponseRoundTrip(t: TokenResponse, extra: string, v: Value)
    ensures TokenResponseOf(TokenResponseJson(t).fields) == Some(t)
    ensures extra !in TokenResponseJson(t).fields ==>
      TokenResponseOf(TokenResponseJson(t).fields[extra := v]) == Some(t)
  {
  }

  /** Every `OAuthTokenResponse` validates back from its own dict. */
  lemma OAuthTokenResponseRoundTrip(t: OAuthTokenResponse)
    ensures OAuthTokenResponseOf(OAuthTokenResponseJson(t).fields) == Some(t)
  {
  }

  /** `LoginResponse(**response["data"])`: the error of unpacking, or
      pydantic's ValidationError, or the validated record. */
  function LoginOutcome(body: Value): (r: Result<LoginResponse, Exc>)
    ensures DataFields(body).Err? ==> r == Err(DataFields(body).error)
    ensures DataFields(body).Ok? ==> r.Ok? == LoginResponseOf(DataFields(body).value).Some?
    ensures DataFields(body).Ok? && r.Err? ==> r == Err(Foreign(Users.ModelValidationName))
    ensures r.Ok? ==> Str(r.value.accessToken) == body.fields["data"].fields["access_token"]
  {
    match DataFields(body)
    case Err(e) => Err(e)
    case Ok(fields) =>
      match LoginResponseOf(fields)
      case None => Err(Foreign(Users.ModelValidationName))
      case Some(login) => Ok(login)
  }

  /** A "data" that carries only an access token is not a `LoginResponse`:
      pydantic rejects it, so `login` raises and stores nothing. */
  lemma LoginNeedsWholeResponse(t: string)
    ensures LoginOutcome(Object(map["data" := Object(map["access_token" := Str(t)])]))
         == Err(Foreign(Users.ModelValidationName))
  {
  }

  /** `TokenResponse(**response["data"])`. */
  function RefreshOutcome(body: Value): (r: Result<TokenResponse, Exc>)
    ensures DataFields(body).Err? ==> r == Err(DataFields(body).error)
    ensures DataFields(body).Ok? ==> r.Ok? == TokenResponseOf(DataFields(body).value).Some?
    ensures DataFields(body).Ok? && r.Err? ==> r == Err(Foreign(Users.ModelValidationName))
    ensures r.Ok? ==> Str(r.value.accessToken) == body.fields["data"].fields["access_token"]
  {
    match DataFields(body)
    case Err(e) => Err(e)
    case Ok(fields) =>
      match TokenResponseOf(fields)
      case None => Err(Foreign(Users.ModelValidationName))
      case Some(token) => Ok(token)
  }

  /** `OAuthTokenResponse(**response)`: TypeError for a body that is not a
      dict, pydantic's ValidationError for a dict that does not validate. */
  function OAuthTokenOutcome(body: Value): (r: Result<OAuthTokenResponse, Exc>)
    ensures !body.Object? ==> r == Err(Foreign(TypeErrorName))
    ensures body.Object? ==> r.Ok? == OAuthTokenResponseOf(body.fields).Some?
    ensures body.Object? && r.Err? ==> r == Err(Foreign(Users.ModelValidationName))
    ensures r.Ok? ==> Str(r.value.accessToken) == body.fields["access_token"]
  {
    match Unpacked(body)
    case Err(e) => Err(e)
    case Ok(fields) =>
      match OAuthTokenResponseOf(fields)
      case None => Err(Foreign(Users.ModelValidationName))
      case Some(token) => Ok(token)
  }

  class AuthFrameworkClient {
    const baseUrl: string
    const timeout: real
    const retries: int
    const apiKey: Option<string>
    var accessToken: Option<string>

    constructor (baseUrl: string, timeout: real, retries: int, apiKey: Option<string>)
      ensures this.baseUrl == StripTrailingSlashes(baseUrl)
      ensures this.baseUrl == [] || this.baseUrl[|this.baseUrl| - 1] != '/'
      ensures this.timeout == timeout && this.retries == retries && this.apiKey == apiKey
      ensures accessToken == None
    {
      this.baseUrl := StripTrailingSlashes(baseUrl);
      this.timeout := timeout;
      this.retries := retries;
      this.apiKey := apiKey;
      accessToken := None;
    }

    method SetAccessToken(token: string)
      modifies this
      ensures accessToken == Some(token)
    {
      accessToken := Some(token);
    }

    method ClearAccessToken()
      modifies this
      ensures accessToken == None
    {
      accessToken := None;
    }

    function GetAccessToken(): Option<string>
      reads this
    {
      accessToken
    }

    /** The request `_make_request` sends on every attempt. */
    function BuildRequest(
      verb: string, endpoint: string, jsonData: Option<map<string, Value>>,
      formData: Option<map<string, Value>>, params: Option<map<string, Value>>, timeoutArg: Option<real>): (r: Request)
      reads this
      ensures "Authorization" in r.headers <==> accessToken.Some? && accessToken.value != ""
      ensures "Authorization" in r.headers ==> r.headers["Authorization"] == BearerPrefix + accessToken.value
      ensures "Content-Type" in r.headers <==> formData.Some? && formData.value != map[]
      ensures r.timeout == if timeoutArg.Some? && timeoutArg.value != 0.0 then timeoutArg.value else timeout
      ensures "Content-Type" in r.headers ==> r.headers["Content-Type"] == "application/x-www-form-urlencoded"
      ensures r.headers.Keys <= {"Authorization", "Content-Type"}
      ensures r.verb == verb && r.url == Url(baseUrl, StripLeadingSlashes(endpoint)) && r.params == params
      ensures r.payload == if formData.Some? && formData.value != map[] then Form(formData.value) else JsonPayload(jsonData)
    {
      var form := formData.Some? && formData.value != map[];
      var auth: map<string, string> :=
        if accessToken.Some? && accessToken.value != "" then map["Authorization" := BearerPrefix + accessToken.value] else map[];
      var headers := if form then auth["Content-Type" := "application/x-www-form-urlencoded"] else auth;
      Request(
        verb,
        Url(baseUrl, StripLeadingSlashes(endpoint)),
        headers,
        if form then Form(formData.value) else JsonPayload(jsonData),
        params,
        if timeoutArg.Some? && timeoutArg.value != 0.0 then timeoutArg.value else timeout)
    }

    /** `_make_request`. */
    method MakeRequest(
      verb: string, endpoint: string, jsonData: Option<map<string, Value>>,
      formData: Option<map<string, Value>>, params: Option<map<string, Value>>,
      timeoutArg: Option<real>, retriesArg: Option<int>, transport: nat -> Attempt)
      returns (x: Exchange)
      ensures x.request == BuildRequest(verb, endpoint, jsonData, formData, params, timeoutArg)
      ensures var n := if retriesArg.Some? then retriesArg.value else retries;
        x.run == LegacyRun(0, n, LegacySteps(transport, n))
    {
      var request := BuildRequest(verb, endpoint, jsonData, formData, params, timeoutArg);
      var requestRetries := if retriesArg.Some? then retriesArg.value else retries;
      var run := LegacyAttempts(requestRetries, transport);
      x := Exchange(request, run);
    }

    /** `login`: the response's "data" is validated as a `LoginResponse`,
        whose access token is stored; on any failure the stored token is
        unchanged. */
    method Login(username: string, password: string, rememberMe: bool, transport: nat -> Attempt)
      returns (x: Exchange, outcome: Result<LoginResponse, Exc>)
      modifies this
      ensures x.request == old(BuildRequest("POST", "/auth/login",
        Some(map["username" := Str(username), "password" := Str(password), "remember_me" := Bool(rememberMe)]),
        None, None, None))
      ensures x.run == LegacyRun(0, retries, LegacySteps(transport, retries))
      ensures x.run.result.Err? ==> outcome == Err(Sdk(x.run.result.error))
      ensures x.run.result.Ok? ==> outcome == LoginOutcome(x.run.result.value)
      ensures accessToken == if outcome.Ok? then Some(outcome.value.accessToken) else old(accessToken)
    {
      var data := map["username" := Str(username), "password" := Str(password), "remember_me" := Bool(rememberMe)];
      x := MakeRequest("POST", "/auth/login", Some(data), None, None, None, None, transport);
      if x.run.result.Err? {
        return x, Err(Sdk(x.run.result.error));
      }
      outcome := LoginOutcome(x.run.result.value);
      if outcome.Ok? {
        SetAccessToken(outcome.value.accessToken);
      }
    }

    /** `refresh_token`: the response's "data" is validated as a
        `TokenResponse`, whose access token is stored; on any failure the
        stored token is unchanged. */
    method RefreshToken(refreshToken: string, transport: nat -> Attempt)
      returns (x: Exchange, outcome: Result<TokenResponse, Exc>)
      modifies this
      ensures x.request == old(BuildRequest("POST", "/auth/refresh",
        Some(map["refresh_token" := Str(refreshToken)]), None, None, None))
      ensures x.run == LegacyRun(0, retries, LegacySteps(transport, retries))
      ensures x.run.result.Err? ==> outcome == Err(Sdk(x.run.result.error))
      ensures x.run.result.Ok? ==> outcome == RefreshOutcome(x.run.result.value)
      ensures accessToken == if outcome.Ok? then Some(outcome.value.accessToken) else old(accessToken)
    {
      x := MakeRequest("POST", "/auth/refresh", Some(map["refresh_token" := Str(refreshToken)]), None, None, None, None, transport);
      if x.run.result.Err? {
        return x, Err(Sdk(x.run.result.error));
      }
      outcome := RefreshOutcome(x.run.result.value);
      if outcome.Ok? {
        SetAccessToken(outcome.value.accessToken);
      }
    }

    /** `logout`: the token is cleared only after the request succeeded. */
    method Logout(transport: nat -> Attempt) returns (x: Exchange)
      modifies this
      ensures x.request == old(BuildRequest("POST", "/auth/logout", None, None, None, None))
      ensures x.run == LegacyRun(0, retries, LegacySteps(transport, retries))
      ensures accessToken == if x.run.result.Ok? then None else old(accessToken)
    {
      x := MakeRequest("POST", "/auth/logout", None, None, None, None, None, transport);
      if x.run.result.Ok? {
        ClearAccessToken();
      }
    }

    /** `get_oauth_authorize_url`: the parameters whose value is None are
        dropped and all others are kept. */
    function GetOAuthAuthorizeUrl(params: map<string, Value>): (u: AuthorizeUrl)
      ensures u.prefix == baseUrl + "/oauth/authorize?"
      ensures forall k :: k in u.query <==> k in params && params[k] != Null
      ensures forall k :: k in u.query ==> u.query[k] == params[k]
    {
      AuthorizeUrl(baseUrl + "/oauth/authorize?", map k | k in params && params[k] != Null :: params[k])
    }

    /** `get_oauth_token`: posts the stringified arguments as a form and
        validates the response as an `OAuthTokenResponse`. Unlike the newer
        OAuth service it does not store the token it receives. */
    method GetOAuthToken(kwargs: map<string, Value>, transport: nat -> Attempt)
      returns (x: Exchange, outcome: Result<OAuthTokenResponse, Exc>)
      ensures x.request == BuildRequest("POST", "/oauth/token", None, Some(OAuthTokenForm(kwargs)), None, None)
      ensures x.run == LegacyRun(0, retries, LegacySteps(transport, retries))
      ensures x.run.result.Err? ==> outcome == Err(Sdk(x.run.result.error))
      ensures x.run.result.Ok? ==> outcome == OAuthTokenOutcome(x.run.result.value)
    {
      x := MakeRequest("POST", "/oauth/token", None, Some(OAuthTokenForm(kwargs)), None, None, None, transport);
      if x.run.result.Err? {
        return x, Err(Sdk(x.run.result.error));
      }
      outcome := OAuthTokenOutcome(x.run.result.value);
    }
  }
}
