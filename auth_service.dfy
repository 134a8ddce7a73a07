/** AuthService: login, logout, token refresh, registration and token
    validation on top of a BaseClient, and what each does to the client's
    stored access token. */
module Auth {
  import opened Wrappers
  import opened Json
  import opened Exceptions
  import opened Http
  import opened Base

  /** What the body of `register` holds: username, email and password, each
      unless `user_data` has an entry of that name, and every entry of
      `user_data`. */
  ghost predicate IsRegisterBody(
    data: map<string, Value>, username: string, email: string, password: string,
    userData: Option<map<string, Value>>)
  {
    var extra := if userData.Some? then userData.value else map[];
    && data.Keys == {"username", "email", "password"} + extra.Keys
    && (forall k :: k in extra ==> data[k] == extra[k])
    && ("username" !in extra ==> data["username"] == Str(username))
    && ("email" !in extra ==> data["email"] == Str(email))
    && ("password" !in extra ==> data["password"] == Str(password))
  }

  /** The JSON body of `register`: the three fields, then a non-empty
      `user_data` written over them (`data.update`). */
  method RegisterData(username: string, email: string, password: string, userData: Option<map<string, Value>>)
    returns (data: map<string, Value>)
    ensures IsRegisterBody(data, username, email, password, userData)
  {
    data := map["username" := Str(username), "email" := Str(email), "password" := Str(password)];
    if userData.Some? && userData.value != map[] {
      data := data + userData.value;
    }
  }

  class AuthService {
    const client: BaseClient

    constructor (client: BaseClient)
      ensures this.client == client
    {
      this.client := client;
    }

    /** `login`: stores `response["access_token"]` when the response has
        that key; otherwise, and when the request raises, the stored token is
        unchanged. A body that is `null`, a boolean or a number raises the
        `TypeError` of `in`, and a string or list containing "access_token"
        raises it on indexing. */
    method Login(username: string, password: string, rememberMe: bool, transport: nat -> Attempt)
      returns (x: Exchange, outcome: Result<Value, Exc>)
      modifies client
      ensures x.request == old(client.BuildRequest("POST", "/auth/login", JsonConfig(
        map["username" := Str(username), "password" := Str(password), "remember_me" := Bool(rememberMe)])))
      ensures x.run == BaseRun(0, client.retries, AttemptSteps(transport))
      ensures outcome == TokenResponseOutcome(x.run.result)
      ensures client.accessToken == TokenAfter(x.run.result, old(client.accessToken))
    {
      var data := map["username" := Str(username), "password" := Str(password), "remember_me" := Bool(rememberMe)];
      x := client.MakeRequest("POST", "/auth/login", JsonConfig(data), transport);
      if x.run.result.Err? {
        return x, Err(Sdk(x.run.result.error));
      }
      var response := x.run.result.value;
      var found := Contains(response, "access_token");
      if found.Err? {
        return x, Err(found.error);
      }
      if found.value {
        if !response.Object? {
          // `response["access_token"]` on a string or a list
          return x, Err(Foreign(TypeErrorName));
        }
        client.SetAccessToken(response.fields["access_token"]);
      }
      outcome := Ok(response);
    }

    /** `logout`: the stored token is cleared only once the request has
        returned without raising. */
    method Logout(transport: nat -> Attempt) returns (x: Exchange)
      modifies client
      ensures x.request == old(client.BuildRequest("POST", "/auth/logout", DefaultConfig))
      ensures x.run == BaseRun(0, client.retries, AttemptSteps(transport))
      ensures client.accessToken == if x.run.result.Ok? then Null else old(client.accessToken)
    {
      x := client.MakeRequest("POST", "/auth/logout", DefaultConfig, transport);
      if x.run.result.Ok? {
        client.ClearAccessToken();
      }
    }

    /** `refresh_token`: the stored token is replaced exactly when the
        response carries "access_token"; the `TypeError` cases are those of
        `login`. */
    method RefreshToken(refreshToken: string, transport: nat -> Attempt)
      returns (x: Exchange, outcome: Result<Value, Exc>)
      modifies client
      ensures x.request == old(client.BuildRequest("POST", "/auth/refresh", JsonConfig(
        map["refresh_token" := Str(refreshToken)])))
      ensures x.run == BaseRun(0, client.retries, AttemptSteps(transport))
      ensures outcome == TokenResponseOutcome(x.run.result)
      ensures client.accessToken == TokenAfter(x.run.result, old(client.accessToken))
    {
      x := client.MakeRequest("POST", "/auth/refresh", JsonConfig(map["refresh_token" := Str(refreshToken)]), transport);
      if x.run.result.Err? {
        return x, Err(Sdk(x.run.result.error));
      }
      var response := x.run.result.value;
      var found := Contains(response, "access_token");
      if found.Err? {
        return x, Err(found.error);
      }
      if found.value {
        if !response.Object? {
          // `response["access_token"]` on a string or a list
          return x, Err(Foreign(TypeErrorName));
        }
        client.SetAccessToken(response.fields["access_token"]);
      }
      outcome := Ok(response);
    }

    /** `register`: posts the merged registration data; the stored token is
        not touched. */
    method Register(
      username: string, email: string, password: string,
      userData: Option<map<string, Value>>, transport: nat -> Attempt)
      returns (x: Exchange)
      ensures x.request.verb == "POST" && x.request.url == Url(client.baseUrl, StripLeadingSlashes("/auth/register"))
      ensures x.request.payload.JsonPayload? && x.request.payload.doc.Some?
      ensures IsRegisterBody(x.request.payload.doc.value, username, email, password, userData)
      ensures x.run == BaseRun(0, client.retries, AttemptSteps(transport))
    {
      var data := RegisterData(username, email, password, userData);
      x := client.MakeRequest("POST", "/auth/register", JsonConfig(data), transport);
    }

    /** `validate_token(token)`: with a non-empty token, the request carries
        that token as its bearer credential, and afterwards, whether or not
        the request raised, the previous token is back, or None when the
        previous token was falsy. Without a token the stored one is used and
        left as it is. */
    method ValidateToken(token: Option<string>, transport: nat -> Attempt) returns (x: Exchange)
      modifies client
      ensures x.run == BaseRun(0, client.retries, AttemptSteps(transport))
      ensures x.request.verb == "GET" && x.request.url == Url(client.baseUrl, StripLeadingSlashes("/auth/validate"))
      ensures token.Some? && token.value != "" ==>
        x.request == old(client.BuildRequest("GET", "/auth/validate", DefaultConfig))
          .(headers := map["Authorization" := BearerPrefix + token.value])
      ensures token.Some? && token.value != "" ==>
        && "Authorization" in x.request.headers
        && x.request.headers["Authorization"] == BearerPrefix + token.value
        && client.accessToken == (if Truthy(old(client.accessToken)) then old(client.accessToken) else Null)
      ensures token.None? || token.value == "" ==>
        && x.request == old(client.BuildRequest("GET", "/auth/validate", DefaultConfig))
        && client.accessToken == old(client.accessToken)
    {
      if token.Some? && token.value != "" {
        var original := client.GetAccessToken();
        ghost var before := client.BuildRequest("GET", "/auth/validate", DefaultConfig);
        client.SetAccessToken(Str(token.value));
        x := client.MakeRequest("GET", "/auth/validate", DefaultConfig, transport);
        assert x.request == before.(headers := map["Authorization" := BearerPrefix + token.value]);
        // the `finally` clause: runs whether the request returned or raised
        if Truthy(original) {
          client.SetAccessToken(original);
        } else {
          client.ClearAccessToken();
        }
        return;
      }
      x := client.MakeRequest("GET", "/auth/validate", DefaultConfig, transport);
    }
  }
}
