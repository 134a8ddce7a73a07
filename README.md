# AuthFramework Python SDK — a Dafny model of its decision logic

This project models the deterministic core of the AuthFramework Python SDK (`sdks/python/src/authframework/`):

- **Error classification** (`exceptions.py`). An HTTP status plus an optional error dict becomes a typed SDK error with a kind, code, status, message and `retry_after`. The retryability predicate is defined over those errors.
- **The two request/retry policies**:
  - `BaseClient.make_request` (`_base.py`);
  - the older `AuthFrameworkClient._make_request` (`client_old.py`).

  Each is a `while` loop over an abstract sequence of per-attempt outcomes (`transport: nat -> Attempt`). It is proved equal to a recursive specification function (`Base.BaseRun`, `ClientOld.LegacyRun`). That function is written over what each attempt amounts to (`Base.AttemptSteps`, `ClientOld.LegacySteps`), so its lemmas hold for any sequence of attempts. Lemmas about those functions state the attempt bound, the capped exponential backoff, which outcomes end the loop and when "Max retries exceeded" is raised.
- **The stored access token**. It is a mutable field of the client classes (`Base.BaseClient`, `ClientOld.AuthFrameworkClient`). The service methods (`Auth.AuthService`, `OAuth.OAuthService`) state exactly how they set, clear, or save and restore it.
- **Request construction**:
  - the authorization query of `authorize` (section 4.1.1 of RFC 6749, with the PKCE parameters of section 4.3 of RFC 7636);
  - the token form (sections 4.1.3 and 4.3 of RFC 6749);
  - the revocation form (section 2.1 of RFC 7009) and the introspection form (section 2.1 of RFC 7662);
  - the registration body.
- **Authorization gates of the web integrations**:
  - Flask: bearer-credential extraction (section 2.1 of RFC 6750), token validation into a user, and the decorator wrapper, which replies 401 or 403 or runs the view and stores `g.current_user`.
  - FastAPI: the validation dependency and the role and permission dependencies.

Modules, one per file: `Wrappers`, `Json` (Python JSON values, truthiness, `str()`), `Exceptions`, `Http` (attempt outcomes, requests, backoff, slash stripping), `Base`, `ClientOld`, `Auth`, `OAuth`, `Users` (the `UserInfo` record and the authenticated user shared by both integrations), `Flask` and `FastApi`.

Inputs the model takes as parameters rather than computing:

- the outcome of each HTTP attempt (`transport`);
- the result of the token-validation call (`validate`);
- the Authorization header (Flask);
- the bearer credentials (FastAPI).

Some behaviour of the code, as written, is stated by the lemmas:

- `_base.py` retries only an attempt that returns a falsy body such as `{}`. An error response, including a 5xx that `is_retryable_error` accepts, ends the loop at once. So do a timeout and a network error (`Base.ServerErrorNotRetried`, `Base.BaseRunOutcome`).
- In `client_old.py` the final attempt always decides, so "Max retries exceeded" is raised only when `retries` is negative (`ClientOld.LegacyMaxRetriesOnlyWithoutAttempts`).
- `client_old.get_oauth_token` does not store the token it receives. The newer `OAuthService.token` does.
- With an empty role list, Flask's any-role refusal reads "One of the following roles required: ", while FastAPI's ends in `''` (`FastApi.AnyRoleWordingAgrees`).

## Model

| member | source | states |
|---|---|---|
| Exceptions.ResponseMessage | sdks/python/src/authframework/exceptions.py:119-127 | The message is `str()` of the response's "message" when the key is present and not None, so a string is kept as it is. A None there becomes "An error occurred", not the default. An absent key gives a non-empty default message, else "An error occurred". |
| Exceptions.ResponseCode | sdks/python/src/authframework/exceptions.py:122-127 | The code is `str()` of the response's "code", so a string is kept as it is. It is "UNKNOWN_ERROR" when the key is absent or None. |
| Exceptions.CreateErrorFromResponse | sdks/python/src/authframework/exceptions.py:113-145 | Statuses 400/401/403/404/409/429 give Validation/Authentication/Authorization/NotFound/Conflict/RateLimit errors with the matching codes. Any status of 500 or more gives SERVER_ERROR. Any other status gives a base error with the response code. The status is always the input status. Only 429 carries `retry_after`, taken from the response. |
| Exceptions.CreateErrorFromValue | sdks/python/src/authframework/exceptions.py:119-123 | A falsy payload classifies as no payload. A dict payload is classified. A truthy non-dict payload raises AttributeError (not an SDK error). |
| Exceptions.IsRetryableError | sdks/python/src/authframework/exceptions.py:148-156 | True exactly for network errors, timeouts and SDK errors with a status of 500 or more. False for exceptions from other libraries. |
| Exceptions.RetryableIffServerStatus | sdks/python/src/authframework/exceptions.py:129-156 | An error built from a response is retryable if and only if its status is 500 or more. |
| Http.Pow2 | sdks/python/src/authframework/_base.py:170 | `2**n` is at least 1, so no pause is shorter than one second. |
| Http.Pow2AtLeast16 | sdks/python/src/authframework/_base.py:170 | `2**n` is at least 16 from n = 4 on, so the cap of 10 applies from then on. |
| Http.Backoff | sdks/python/src/authframework/_base.py:168-170 | The pause `min(2**attempt, 10)` is between 1 and 10 seconds. It is `2**attempt` for attempts 0 to 3 and 10 afterwards. |
| Http.BackoffDoubles | sdks/python/src/authframework/_base.py:168-170 | Each pause is twice the previous one until doubling would pass 10, and 10 from then on. |
| Http.StripTrailingSlashes | sdks/python/src/authframework/_base.py:61 | `rstrip("/")`: the result is a prefix of the input, does not end in "/", and only slashes were removed. |
| Http.StripLeadingSlashes | sdks/python/src/authframework/_base.py:149 | `lstrip("/")`: the result is a suffix of the input, does not start with "/", and only slashes were removed. |
| Base.ParseErrorResponse | sdks/python/src/authframework/_base.py:260-272 | A JSON object body gives its "error" member (default `{}`). A non-JSON body gives a message/code dict built from the raw text. A JSON non-object body fails. |
| Base.AttemptStep | sdks/python/src/authframework/_base.py:175-223 | One attempt never yields "retry". A status below 400 with a JSON body returns that body, and with a non-JSON body raises "Request failed". A status of 400 or more whose body is a JSON object raises the error `create_error_from_response` builds from its "error" member, or the default error of that status when that member is falsy. A truthy non-object "error" member, or a JSON body that is not an object, makes `.get` fail with AttributeError, which surfaces as "Request failed". A non-JSON body raises the error built from the raw text. A timeout raises "Request timeout", a network failure "Network error", and any other exception "Request failed". |
| Base.Contains | sdks/python/src/authframework/_auth.py:52 | Python's `in`: key membership for a dict, item membership for a list, substring for a string, and TypeError for None, booleans and numbers. |
| Base.TokenResponseOutcome | sdks/python/src/authframework/_auth.py:52-55 | A request error passes through. An object body is returned. Any other body raises TypeError if and only if `in` raises or finds "access_token", and is returned otherwise. A returned body is the request's body. |
| Base.TokenKeptWhenRaised | sdks/python/src/authframework/_auth.py:52-53 | When the outcome is an error the stored token is unchanged, and a changed token means the body was returned and has "access_token". |
| Base.AttemptNeverMaxRetries | sdks/python/src/authframework/_base.py:175-223 | A single attempt never raises the "Max retries exceeded" error. |
| Base.BaseRunBounds | sdks/python/src/authframework/_base.py:157-170 | At least one attempt is made when retries ≥ 0, and at most retries + 1. A pause follows every attempt but the last one made, and the pause after attempt i is `min(2**i, 10)`. |
| Base.BaseRunPrefix | sdks/python/src/authframework/_base.py:157-166 | Every attempt before the last one made neither raised nor returned a truthy body. |
| Base.BaseRunOutcome | sdks/python/src/authframework/_base.py:157-166 | A returned body is truthy and is the last attempt's body. A raised error other than "Max retries exceeded" is the last attempt's error. |
| Base.BaseRunExhausted | sdks/python/src/authframework/_base.py:157-173 | When no attempt raises "Max retries exceeded" itself, the loop raises it if and only if all retries + 1 attempts were made and none was decisive. |
| Base.BaseMaxRetriesOnlyWhenExhausted | sdks/python/src/authframework/_base.py:157-173 | For the requests of `make_request`: "Max retries exceeded" is raised if and only if all retries + 1 attempts were made and none raised or returned a truthy body. |
| Base.ServerErrorNotRetried | sdks/python/src/authframework/_base.py:157-216 | A 5xx error response ends the run after one attempt with no pause, even though its error is retryable. |
| Base.BaseClient.constructor | sdks/python/src/authframework/_base.py:45-75 | The stored base URL is the argument without trailing slashes. No token is stored. |
| Base.BaseClient.DefaultHeaders | sdks/python/src/authframework/_base.py:67-70 | The User-Agent header is always present. X-API-Key is present exactly when a non-empty API key was given. There are no other headers. |
| Base.BaseClient.SetAccessToken | sdks/python/src/authframework/_base.py:106-108 | Afterwards the stored token is the given one. |
| Base.BaseClient.ClearAccessToken | sdks/python/src/authframework/_base.py:110-112 | Afterwards no token is stored. |
| Base.BaseClient.EffectiveTimeout | sdks/python/src/authframework/_base.py:150 | A missing or zero request timeout falls back to the client's; any other is used as given. |
| Base.BaseClient.EffectiveRetries | sdks/python/src/authframework/_base.py:151 | The request's retries when given, else the client's. |
| Base.BaseClient.RequestHeaders | sdks/python/src/authframework/_base.py:153-240 | "Authorization: Bearer <token>" is sent exactly when a truthy token is stored. The form content type is sent exactly when a non-empty form is sent. |
| Base.BaseClient.MakeRequest | sdks/python/src/authframework/_base.py:123-173 | The loop sends the built request and ends as `BaseRun` says, with the effective retries. Through `BaseRunBounds`, `BaseRunOutcome` and `BaseMaxRetriesOnlyWhenExhausted` this gives the attempt bound, the backoff and the terminal error. |
| ClientOld.LegacyErrorInfo | sdks/python/src/authframework/client_old.py:154-159 | The error payload is the "error" member of a JSON object body. Otherwise it is a message/code dict built from the raw text. |
| ClientOld.LegacyStep | sdks/python/src/authframework/client_old.py:131-177 | A timeout or network failure is swallowed (retried) exactly when it is not the final attempt. On the final attempt it is raised as TimeoutError/NetworkError. A status of 400 or more with a JSON object body raises the error classified from its "error" member, or the default error of that status when the member is falsy; a truthy non-object member gives "Request failed". Any other body at 400 or more raises the error classified from a message/code dict of the raw text and UNKNOWN_ERROR; the error's own code is that of its status. A status below 400 with a non-JSON body, and any other exception, raise "Request failed". |
| ClientOld.LegacyStepNeverMaxRetries | sdks/python/src/authframework/client_old.py:131-177 | A single attempt never raises the "Max retries exceeded" error. |
| ClientOld.LegacyRunBounds | sdks/python/src/authframework/client_old.py:129-181 | At least one attempt is made when retries ≥ 0, and at most retries + 1. A pause `min(2**i, 10)` follows every attempt but the last one made. |
| ClientOld.LegacyRunPrefix | sdks/python/src/authframework/client_old.py:163-177 | Every pass before the last one made swallowed its exception. |
| ClientOld.LegacyRunOutcome | sdks/python/src/authframework/client_old.py:129-177 | The result is what the last pass returned (any body, even an empty one) or raised. |
| ClientOld.LegacyRetriesOnlyTransient | sdks/python/src/authframework/client_old.py:163-177 | Every attempt before the last one made was a timeout or a network error. |
| ClientOld.LegacyMaxRetriesOnlyWithoutAttempts | sdks/python/src/authframework/client_old.py:129-184 | "Max retries exceeded" is raised if and only if no attempt is made at all. |
| ClientOld.LegacyTransientFailuresRetried | sdks/python/src/authframework/client_old.py:163-170 | When every attempt times out or loses the network, all retries + 1 attempts are made. The final failure is raised as TimeoutError or NetworkError. |
| ClientOld.OAuthTokenForm | sdks/python/src/authframework/client_old.py:287-289 | Every argument keeps its name. None stays None, every other value becomes its `str()`, and strings are unchanged. |
| ClientOld.Unpacked | sdks/python/src/authframework/client_old.py:291 | `Model(**v)` unpacks exactly a dict, with its fields; anything else raises TypeError. |
| ClientOld.DataFields | sdks/python/src/authframework/client_old.py:202 | `**response["data"]` succeeds exactly for a dict body whose "data" is a dict. A dict without "data" raises KeyError, and every other case TypeError. |
| ClientOld.TokenResponseOf | sdks/python/src/authframework/models/token_models.py:57-62 | `TokenResponse` validates exactly when access_token and token_type are strings and expires_in is an integer, and keeps those values. |
| ClientOld.UserInfoOf | sdks/python/src/authframework/models/user_models.py:10-19 | The nested `user` validates only from a dict. For a dict it is `MakeUserInfo` of its fields, with a missing field read as None. So a dict validates exactly when id, username, email, roles, mfa_enabled and created_at are present with their declared types and last_login is absent, None or a date. The user's id is its "id", and its roles are its "roles" list item by item. |
| ClientOld.LoginResponseOf | sdks/python/src/authframework/models/user_models.py:68-75 | `LoginResponse` validates exactly when the two tokens and token_type are strings, expires_in is an integer and `user` validates as a `UserInfo`, and keeps those values. |
| ClientOld.OAuthTokenResponseOf | sdks/python/src/authframework/models/oauth_models.py:22-29 | `OAuthTokenResponse` validates exactly when access_token and token_type are strings, expires_in is an integer, and refresh_token and scope are absent, None or strings. It keeps those values, with refresh_token and scope present exactly when they are strings. |
| ClientOld.TokenResponseRoundTrip | sdks/python/src/authframework/models/token_models.py:57-62 | A `TokenResponse` validates back from its own dict, also with one extra key. |
| ClientOld.OAuthTokenResponseRoundTrip | sdks/python/src/authframework/models/oauth_models.py:22-29 | An `OAuthTokenResponse` validates back from its own dict. |
| ClientOld.LoginOutcome | sdks/python/src/authframework/client_old.py:202 | The error of `response["data"]` passes through. Otherwise the outcome is a record exactly when `LoginResponse` validates, and ValidationError when it does not. The record's access token is `data.access_token`. |
| ClientOld.LoginNeedsWholeResponse | sdks/python/src/authframework/client_old.py:202 | A "data" that holds only an access token raises ValidationError. |
| ClientOld.RefreshOutcome | sdks/python/src/authframework/client_old.py:215 | The same as for login, with `TokenResponse`. |
| ClientOld.OAuthTokenOutcome | sdks/python/src/authframework/client_old.py:291 | A body that is not a dict raises TypeError. A dict gives a record exactly when `OAuthTokenResponse` validates, and ValidationError otherwise. The record's access token is the body's "access_token". |
| ClientOld.AuthFrameworkClient.constructor | sdks/python/src/authframework/client_old.py:39-69 | The base URL has no trailing slash. No token is stored. |
| ClientOld.AuthFrameworkClient.SetAccessToken | sdks/python/src/authframework/client_old.py:98-100 | Afterwards the stored token is the given one. |
| ClientOld.AuthFrameworkClient.ClearAccessToken | sdks/python/src/authframework/client_old.py:102-104 | Afterwards no token is stored. |
| ClientOld.AuthFrameworkClient.BuildRequest | sdks/python/src/authframework/client_old.py:120-150 | The verb and params are the given ones, and the URL is the base URL with the endpoint's leading slashes stripped. A non-empty form is sent as the form, and otherwise the JSON data is sent. The bearer header is sent exactly when a non-empty token is stored. The form content type is sent exactly when a non-empty form is sent, and no other header is sent. A missing or zero timeout falls back to the client's. |
| ClientOld.LegacyAttempts | sdks/python/src/authframework/client_old.py:129-184 | The loop ends as `LegacyRun` says: its result, its pauses and its number of attempts. |
| ClientOld.AuthFrameworkClient.MakeRequest | sdks/python/src/authframework/client_old.py:110-184 | Sends the built request and ends as `LegacyRun` says, with `retries` when given and the client's otherwise. |
| ClientOld.AuthFrameworkClient.Login | sdks/python/src/authframework/client_old.py:187-204 | Posts the credentials to /auth/login. The outcome is the request's error or `LoginOutcome` of its body. The access token of a validated `LoginResponse` is stored. On any failure the stored token is unchanged. |
| ClientOld.AuthFrameworkClient.RefreshToken | sdks/python/src/authframework/client_old.py:206-218 | Posts the refresh token to /auth/refresh. The outcome is the request's error or `RefreshOutcome` of its body. The access token of a validated `TokenResponse` is stored. On any failure the stored token is unchanged. |
| ClientOld.AuthFrameworkClient.Logout | sdks/python/src/authframework/client_old.py:220-223 | The token is cleared exactly when the request returned. |
| ClientOld.AuthFrameworkClient.GetOAuthAuthorizeUrl | sdks/python/src/authframework/client_old.py:280-283 | The query keeps exactly the parameters whose value is not None, with their values. |
| ClientOld.AuthFrameworkClient.GetOAuthToken | sdks/python/src/authframework/client_old.py:285-292 | Posts the stringified arguments as a form to /oauth/token and leaves the stored token alone. The outcome is the request's error or `OAuthTokenOutcome` of its body. |
| Auth.RegisterData | sdks/python/src/authframework/_auth.py:109-116 | The body holds username, email and password, each overridden key by key by `user_data`, plus every other `user_data` entry, and nothing else. |
| Auth.AuthService.constructor | sdks/python/src/authframework/_auth.py:16-23 | The service uses the given client. |
| Auth.AuthService.Login | sdks/python/src/authframework/_auth.py:25-55 | Posts the credentials. The outcome is `TokenResponseOutcome` of the request's result, so the body is returned unless `in` or indexing raises TypeError. The stored token becomes `response["access_token"]` exactly when the response has that key; otherwise, and when the request raises, it is unchanged. |
| Auth.AuthService.Logout | sdks/python/src/authframework/_auth.py:57-66 | The stored token is cleared exactly when the request returned without raising. |
| Auth.AuthService.RefreshToken | sdks/python/src/authframework/_auth.py:68-88 | The outcome is `TokenResponseOutcome` of the request's result. The stored token is replaced exactly when the response has "access_token". |
| Auth.AuthService.Register | sdks/python/src/authframework/_auth.py:90-119 | Posts the merged registration body to auth/register. |
| Auth.AuthService.ValidateToken | sdks/python/src/authframework/_auth.py:201-225 | With a non-empty token, the request is the default GET of auth/validate whose only header is the token as the bearer credential. Afterwards, whether or not the request raised, the previous token is back, or none is stored if the previous one was falsy. Without a token the stored one is used and left unchanged. |
| OAuth.AuthorizeParams | sdks/python/src/authframework/_oauth.py:48-60 | The query always has client_id, redirect_uri, scope and response_type=code. It has state, code_challenge and code_challenge_method exactly when given non-empty, and nothing else. |
| OAuth.PutIfGiven | sdks/python/src/authframework/_oauth.py:100-116 | One conditional insert: the field is present exactly when its argument is non-empty. Other keys are kept and no others are added. |
| OAuth.PutFourIfGiven | sdks/python/src/authframework/_oauth.py:100-107 | Four conditional inserts under distinct names: each field is present exactly when given. The original keys are kept and no others are added. |
| OAuth.KeepsOptionalField | sdks/python/src/authframework/_oauth.py:100-116 | A later insert under a different name leaves an earlier optional field as it was. |
| OAuth.PutEightIfGiven | sdks/python/src/authframework/_oauth.py:100-116 | Eight conditional inserts: each optional field is present exactly when given, with no other keys added. |
| OAuth.TokenData | sdks/python/src/authframework/_oauth.py:96-116 | The token form always has grant_type and client_id. Each of the eight optional fields is present exactly when its argument is non-empty, and there are no other keys. |
| OAuth.TokenForm | sdks/python/src/authframework/_oauth.py:146-156 | The form of `revoke`, which `introspect` builds the same way (lines 186-196): it always has token and client_id. client_secret and token_type_hint are present exactly when non-empty, and there are no other keys. |
| OAuth.OAuthService.constructor | sdks/python/src/authframework/_oauth.py:16-23 | The service uses the given client. |
| OAuth.OAuthService.Authorize | sdks/python/src/authframework/_oauth.py:25-63 | GET oauth/authorize with the authorization query as params and no body. |
| OAuth.OAuthService.Token | sdks/python/src/authframework/_oauth.py:65-127 | POST oauth/token with the token form sent as a form. The outcome is `TokenResponseOutcome` of the request's result. The stored token becomes `response["access_token"]` exactly when the response has that key. |
| OAuth.OAuthService.Revoke | sdks/python/src/authframework/_oauth.py:129-167 | POST oauth/revoke with the revocation form. The stored token is cleared exactly when the request returned and the revoked token is the stored one; otherwise it is unchanged. |
| OAuth.OAuthService.Introspect | sdks/python/src/authframework/_oauth.py:169-201 | POST oauth/introspect with the introspection form. It does not modify the client, so the stored token is unchanged. |
| OAuth.OAuthService.GetUserinfo | sdks/python/src/authframework/_oauth.py:203-210 | GET /oauth/userinfo with the default configuration. |
| Users.StringItems | sdks/python/src/authframework/models/user_models.py:16 | A `list[str]` validates exactly when every item is a string, and keeps the items in order. |
| Users.MakeUserInfo | sdks/python/src/authframework/models/user_models.py:10-19 | A `UserInfo` is built exactly when every field has its declared type. Each field of the record is the value it was built from. |
| Users.HeldIffListed | sdks/python/src/authframework/integrations/flask.py:76 | For roles read item by item from a JSON list, a role is held if and only if its string is in that list. |
| Users.AnyHeld | sdks/python/src/authframework/integrations/flask.py:35-37 | `any(role in held for role in wanted)` holds exactly when some wanted role is held. |
| Users.AuthUser.HasAnyRole | sdks/python/src/authframework/integrations/fastapi.py:32-34 | `has_any_role(roles)` holds exactly when some listed role satisfies `has_role`. It never holds for an empty list. |
| Users.Quoted | sdks/python/src/authframework/integrations/flask.py:149 | Each role is wrapped in single quotes, in order. |
| Users.JoinQuoted | sdks/python/src/authframework/integrations/flask.py:149 | For a non-empty list, joining the quoted roles with ", " equals quoting the roles joined with "', '". |
| Flask.TokenFromRequest | sdks/python/src/authframework/integrations/flask.py:49-54 | A token is found exactly when the header starts, case-sensitively, with "Bearer ". The token is the rest of the header. |
| Flask.BearerRoundTrip | sdks/python/src/authframework/integrations/flask.py:49-54 | The header "Bearer " + t yields exactly t. |
| Flask.ValidateToken | sdks/python/src/authframework/integrations/flask.py:56-85 | Errors of the validation call pass through. A falsy or missing "valid" fails first, then a falsy or missing "user_id", each with its SDK error. A user is returned if and only if "valid" and "user_id" are truthy and the `UserInfo` fields validate; a failed model validation escapes. The user's id is "user_id", its roles are the "scopes" list item by item, and the token is kept. |
| Flask.RoleRequiredMeansScope | sdks/python/src/authframework/integrations/flask.py:56-85 | `role_required(role)` runs the view if and only if a non-empty bearer token validates and `role` is one of the strings in the response's "scopes". |
| Flask.RequestGlobals.constructor | sdks/python/src/authframework/integrations/flask.py:92-94 | No current user is stored at first. |
| Flask.Wrapper | sdks/python/src/authframework/integrations/flask.py:106-125 | The reply is the one the ordered checks decide. `g.current_user` is set to the validated user exactly when validation succeeded, and is otherwise left alone. |
| Flask.MissingTokenRejected | sdks/python/src/authframework/integrations/flask.py:109-111 | Without a non-empty bearer token the reply is 401 "Authorization header missing", whatever validation would have answered. |
| Flask.ValidationFailureIs401 | sdks/python/src/authframework/integrations/flask.py:113-117 | A validation failure that is an SDK error gives 401 "Authentication failed: " + its message. |
| Flask.AuthRequiredRunsIffValid | sdks/python/src/authframework/integrations/flask.py:130-132 | `auth_required` runs the view if and only if a non-empty bearer token validates. |
| Flask.RoleRequiredGate | sdks/python/src/authframework/integrations/flask.py:135-141 | `role_required` runs the view if and only if the token validates and the user has the role. It replies 403 "Role '<role>' required" if and only if the token validates and the user lacks the role. |
| Flask.AnyRoleRequiredGate | sdks/python/src/authframework/integrations/flask.py:144-150 | `any_role_required` runs the view if and only if the token validates and the user holds a listed role. With no roles it never runs the view. |
| Flask.PermissionRequiredNeverRuns | sdks/python/src/authframework/integrations/flask.py:153-162 | `permission_required` always raises NotImplementedError, whatever the request. |
| FastApi.ValidateToken | sdks/python/src/authframework/integrations/fastapi.py:44-90 | It gives 401 for a falsy "success", then for missing "data", then for missing "data.id", in that order. An answer that is not a dict, or a truthy "data" that is not a dict, makes `.get` escape with AttributeError. An SDK error becomes 401 "Authentication failed: " + message, and other exceptions escape. A user is returned if and only if "success", "data" and "data.id" are truthy and the `UserInfo` fields validate. The user's id is "data.id", its roles are "data.roles" item by item, and the credentials are kept. Every HTTP error is a 401. |
| FastApi.RequireRoleMeansListed | sdks/python/src/authframework/integrations/fastapi.py:44-115 | `require_role(role)` yields a user if and only if validation yields one and `role` is one of the strings in "data.roles". |
| FastApi.RequireRole | sdks/python/src/authframework/integrations/fastapi.py:104-115 | An authentication failure comes first. Otherwise it gives 403 "Role '<role>' required" if and only if the user lacks the role, and returns the same user if it has it. |
| FastApi.RequireAnyRole | sdks/python/src/authframework/integrations/fastapi.py:117-129 | An authentication failure comes first. Otherwise it gives 403 if and only if no listed role is held, and always for an empty list. |
| FastApi.RequirePermission | sdks/python/src/authframework/integrations/fastapi.py:131-140 | It never yields a user. An authentication failure comes first; otherwise it raises NotImplementedError. |
| FastApi.AnyRoleWordingAgrees | sdks/python/src/authframework/integrations/fastapi.py:125-128 | With at least one role, FastAPI's any-role detail equals Flask's message. With none, it is Flask's message followed by `''`. |

## Left out

- The Rust token engine, OAuth 2.0 server and storage (`TokenManager`, `AuthFramework`, `OAuth2Server`) are not part of this model. Their source is not among the files modelled: `tests/rfc_compliance_final.rs` only calls them.
- The httpx transport and JSON parsing are inputs. Each attempt's outcome is a value of `Http.Attempt`, and a response body is either parsed JSON or unparsable text.
- `asyncio.sleep` is not modelled. Each pause is recorded as a delay in seconds in `Run.sleeps`.
- Async execution and concurrency are not modelled.
- Timeouts are opaque `real` values passed through; the model does not interpret them.
- `urljoin` and `urlencode` are not modelled:
  - A request URL is the pair `Url(base, path)` of the stripped base URL and the stripped endpoint.
  - `get_oauth_authorize_url` yields its prefix and its query map, without percent-encoding.
- Python dicts are Dafny maps, so the insertion order of headers, params and form fields is not modelled.
- JSON floats are not modelled: `Json.Value` has integers only.
- `str()` of a list or dict (`Json.PyStr`) is a placeholder. It is exact for None, booleans, integers and strings.
- Users.MakeUserInfo: pydantic's lax coercions are not modelled, and neither is the parsing of datetime strings. A field validates when it has the declared JSON type, and `created_at`/`last_login` accept any string or integer.
- ClientOld.UserInfoOf, ClientOld.LoginResponseOf, ClientOld.TokenResponseOf and ClientOld.OAuthTokenResponseOf: pydantic's lax coercions are not modelled (a numeric string or a boolean for `expires_in`, say), as for Users.MakeUserInfo. Each field validates when it has its declared JSON type.
- Flask.ValidateToken: an answer that passes both checks but whose fields do not validate raises pydantic's ValidationError. That exception is not an SDK error, so it escapes the wrapper. In particular this happens whenever "created_at" is missing, since `UserInfo` requires it.
- The validation call `client.tokens.validate(token)` (`_tokens.py`) is the parameter `validate`. It returns a document or raises.
- The FastAPI `HTTPBearer`/`Depends` machinery is not modelled; the credentials string is given.
- The Flask `request`/`jsonify` globals are not modelled; the Authorization header is given. The view's own result is `Reply.Ran`, and an error reply is the `(message, status)` pair `_handle_auth_error` builds.
- Exception chaining (`raise ... from e`) and the `details` of errors built for timeouts and network failures are not modelled.
- Endpoints that only forward to `make_request` with a fixed path and no token bookkeeping are not modelled:
  - `_auth.py`: `verify_email`, `reset_password_request`, `reset_password_confirm`, `change_password`;
  - `client_old.py`: `validate_token`, `get_profile`, `update_profile`, `change_password`, the MFA, health and admin calls.
- `_mfa.py`, `_user.py`, `_admin.py`, `_health.py`, `_tokens.py` and `client_new.py` are not part of this model. They are thin endpoint wrappers.
- The async context managers (`__aenter__`, `__aexit__`, `close`) are not modelled; they only open and close the httpx client.
- Base.BaseClient.GetAccessToken and ClientOld.AuthFrameworkClient.GetAccessToken have no contract of their own. They read the field that `SetAccessToken` and `ClearAccessToken` specify.
