/** OAuthService: the OAuth 2.0 client calls. `authorize` sends the
    authorization request of section 4.1.1 of RFC 6749 with the PKCE
    parameters of section 4.3 of RFC 7636; `token` the token requests of
    sections 4.1.3 and 4.3 of RFC 6749; `revoke` the request of section 2.1 of
    RFC 7009; `introspect` the request of section 2.1 of RFC 7662. */
module OAuth {
  import opened Wrappers
  import opened Json
  import opened Exceptions
  import opened Http
  import opened Base

  /** An optional string argument tested with `if arg:`. */
  predicate Given(arg: Option<string>) {
    arg.Some? && arg.value != ""
  }

  /** `params[name]` / `data[name]` is set from an optional argument exactly
      when the argument is truthy. */
  ghost predicate OptionalField(fields: map<string, Value>, name: string, arg: Option<string>) {
    (name in fields <==> Given(arg)) && (Given(arg) ==> fields[name] == Str(arg.value))
  }

  /** The query of `authorize`: client_id, redirect_uri, scope and
      response_type "code" always; state, code_challenge and
      code_challenge_method exactly when given; nothing else. */
  ghost predicate IsAuthorizeQuery(
    p: map<string, Value>, clientId: string, redirectUri: string, scope: string,
    state: Option<string>, codeChallenge: Option<string>, codeChallengeMethod: Option<string>)
  {
    && "client_id" in p && p["client_id"] == Str(clientId)
    && "redirect_uri" in p && p["redirect_uri"] == Str(redirectUri)
    && "scope" in p && p["scope"] == Str(scope)
    && "response_type" in p && p["response_type"] == Str("code")
    && OptionalField(p, "state", state)
    && OptionalField(p, "code_challenge", codeChallenge)
    && OptionalField(p, "code_challenge_method", codeChallengeMethod)
    && p.Keys <= {"client_id", "redirect_uri", "scope", "response_type",
                  "state", "code_challenge", "code_challenge_method"}
  }

  method AuthorizeParams(
    clientId: string, redirectUri: string, scope: string, state: Option<string>,
    codeChallenge: Option<string>, codeChallengeMethod: Option<string>)
    returns (params: map<string, Value>)
    ensures IsAuthorizeQuery(params, clientId, redirectUri, scope, state, codeChallenge, codeChallengeMethod)
  {
    params := map[
      "client_id" := Str(clientId),
      "redirect_uri" := Str(redirectUri),
      "scope" := Str(scope),
      "response_type" := Str("code")];
    if Given(state) {
      params := params["state" := Str(state.value)];
    }
    if Given(codeChallenge) {
      params := params["code_challenge" := Str(codeChallenge.value)];
    }
    if Given(codeChallengeMethod) {
      params := params["code_challenge_method" := Str(codeChallengeMethod.value)];
    }
  }

  /** The form of `token`: grant_type and client_id always, each optional
      field exactly when given, nothing else. */
  ghost predicate IsTokenForm(
    d: map<string, Value>, grantType: string, clientId: string, clientSecret: Option<string>,
    code: Option<string>, redirectUri: Option<string>, refreshToken: Option<string>,
    username: Option<string>, password: Option<string>, scope: Option<string>,
    codeVerifier: Option<string>)
  {
    && "grant_type" in d && d["grant_type"] == Str(grantType)
    && "client_id" in d && d["client_id"] == Str(clientId)
    && OptionalField(d, "client_secret", clientSecret)
    && OptionalField(d, "code", code)
    && OptionalField(d, "redirect_uri", redirectUri)
    && OptionalField(d, "refresh_token", refreshToken)
    && OptionalField(d, "username", username)
    && OptionalField(d, "password", password)
    && OptionalField(d, "scope", scope)
    && OptionalField(d, "code_verifier", codeVerifier)
    && d.Keys <= {"grant_type", "client_id", "client_secret", "code", "redirect_uri",
                  "refresh_token", "username", "password", "scope", "code_verifier"}
  }

  /** `if arg: data[name] = arg`. */
  method PutIfGiven(data: map<string, Value>, name: string, arg: Option<string>)
    returns (r: map<string, Value>)
    ensures name !in data ==> OptionalField(r, name, arg)
    ensures forall k :: k in data && k != name ==> k in r && r[k] == data[k]
    ensures forall k :: k in r ==> k in data || k == name
  {
    r := data;
    if Given(arg) {
      r := r[name := Str(arg.value)];
    }
  }

  /** Four `if arg: data[name] = arg` in a row, on four distinct names that
      are not yet in `data`. */
  method PutFourIfGiven(
    data: map<string, Value>, n1: string, a1: Option<string>, n2: string, a2: Option<string>,
    n3: string, a3: Option<string>, n4: string, a4: Option<string>)
    returns (r: map<string, Value>)
    requires n1 !in data && n2 !in data && n3 !in data && n4 !in data
    requires n1 != n2 && n1 != n3 && n1 != n4 && n2 != n3 && n2 != n4 && n3 != n4
    ensures OptionalField(r, n1, a1) && OptionalField(r, n2, a2)
    ensures OptionalField(r, n3, a3) && OptionalField(r, n4, a4)
    ensures forall k :: k in r ==> k in data || k == n1 || k == n2 || k == n3 || k == n4
    ensures forall k :: k in data ==> k in r && r[k] == data[k]
  {
    r := PutIfGiven(data, n1, a1);
    r := PutIfGiven(r, n2, a2);
    r := PutIfGiven(r, n3, a3);
    r := PutIfGiven(r, n4, a4);
  }

  /** A field already set from its argument stays so when only other
      fields are added. */
  lemma KeepsOptionalField(
    before: map<string, Value>, after: map<string, Value>, added: set<string>, name: string, arg: Option<string>)
    requires OptionalField(before, name, arg)
    requires name !in added
    requires forall k :: k in after ==> k in before || k in added
    requires forall k :: k in before ==> k in after && after[k] == before[k]
    ensures OptionalField(after, name, arg)
  {
  }

  /** Eight `if arg: data[name] = arg` in a row, on eight distinct names
      that are not yet in `data`. */
  method PutEightIfGiven(
    data: map<string, Value>, n1: string, a1: Option<string>, n2: string, a2: Option<string>,
    n3: string, a3: Option<string>, n4: string, a4: Option<string>, n5: string, a5: Option<string>,
    n6: string, a6: Option<string>, n7: string, a7: Option<string>, n8: string, a8: Option<string>)
    returns (r: map<string, Value>)
    requires n1 !in data && n2 !in data && n3 !in data && n4 !in data
    requires n5 !in data && n6 !in data && n7 !in data && n8 !in data
    requires n1 != n2 && n1 != n3 && n1 != n4 && n2 != n3 && n2 != n4 && n3 != n4
    requires n5 != n6 && n5 != n7 && n5 != n8 && n6 != n7 && n6 != n8 && n7 != n8
    requires n1 != n5 && n1 != n6 && n1 != n7 && n1 != n8 && n2 != n5 && n2 != n6 && n2 != n7 && n2 != n8
    requires n3 != n5 && n3 != n6 && n3 != n7 && n3 != n8 && n4 != n5 && n4 != n6 && n4 != n7 && n4 != n8
    ensures OptionalField(r, n1, a1) && OptionalField(r, n2, a2)
    ensures OptionalField(r, n3, a3) && OptionalField(r, n4, a4)
    ensures OptionalField(r, n5, a5) && OptionalField(r, n6, a6)
    ensures OptionalField(r, n7, a7) && OptionalField(r, n8, a8)
    ensures forall k :: k in r ==> k in data || k in {n1, n2, n3, n4, n5, n6, n7, n8}
    ensures forall k :: k in data ==> k in r && r[k] == data[k]
  {
    var first := PutFourIfGiven(data, n1, a1, n2, a2, n3, a3, n4, a4);
    r := PutFourIfGiven(first, n5, a5, n6, a6, n7, a7, n8, a8);
    var added := {n5, n6, n7, n8};
    KeepsOptionalField(first, r, added, n1, a1);
    KeepsOptionalField(first, r, added, n2, a2);
    KeepsOptionalField(first, r, added, n3, a3);
    KeepsOptionalField(first, r, added, n4, a4);
  }

  method TokenData(
    grantType: string, clientId: string, clientSecret: Option<string>, code: Option<string>,
    redirectUri: Option<string>, refreshToken: Option<string>, username: Option<string>,
    password: Option<string>, scope: Option<string>, codeVerifier: Option<string>)
    returns (data: map<string, Value>)
    ensures IsTokenForm(data, grantType, clientId, clientSecret, code, redirectUri, refreshToken,
                        username, password, scope, codeVerifier)
  {
    data := map["grant_type" := Str(grantType), "client_id" := Str(clientId)];
    data := PutEightIfGiven(data, "client_secret", clientSecret, "code", code,
                            "redirect_uri", redirectUri, "refresh_token", refreshToken,
                            "username", username, "password", password,
                            "scope", scope, "code_verifier", codeVerifier);
  }

  /** The form of `revoke` and `introspect`: the token and the client id,
      plus the client secret and the token type hint when they are given, and
      nothing else. */
  ghost predicate IsTokenRequestForm(
    d: map<string, Value>, token: string, clientId: string, clientSecret: Option<string>,
    tokenTypeHint: Option<string>)
  {
    && "token" in d && d["token"] == Str(token)
    && "client_id" in d && d["client_id"] == Str(clientId)
    && OptionalField(d, "client_secret", clientSecret)
    && OptionalField(d, "token_type_hint", tokenTypeHint)
    && d.Keys <= {"token", "client_id", "client_secret", "token_type_hint"}
  }

  method TokenForm(token: string, clientId: string, clientSecret: Option<string>, tokenTypeHint: Option<string>)
    returns (data: map<string, Value>)
    ensures IsTokenRequestForm(data, token, clientId, clientSecret, tokenTypeHint)
  {
    data := map["token" := Str(token), "client_id" := Str(clientId)];
    if Given(clientSecret) {
      data := data["client_secret" := Str(clientSecret.value)];
    }
    if Given(tokenTypeHint) {
      data := data["token_type_hint" := Str(tokenTypeHint.value)];
    }
  }

  class OAuthService {
    const client: BaseClient

    constructor (client: BaseClient)
      ensures this.client == client
    {
      this.client := client;
    }

    /** `authorize`: client_id, redirect_uri, scope and response_type "code"
        always; state, code_challenge and code_challenge_method exactly when
        given; nothing else. */
    method Authorize(
      clientId: string, redirectUri: string, scope: string, state: Option<string>,
      codeChallenge: Option<string>, codeChallengeMethod: Option<string>, transport: nat -> Attempt)
      returns (x: Exchange)
      ensures x.request.verb == "GET" && x.request.url == Url(client.baseUrl, StripLeadingSlashes("/oauth/authorize"))
      ensures x.request.payload == JsonPayload(None)
      ensures x.request.params.Some?
      ensures IsAuthorizeQuery(x.request.params.value, clientId, redirectUri, scope,
                               state, codeChallenge, codeChallengeMethod)
      ensures x.run == BaseRun(0, client.retries, AttemptSteps(transport))
    {
      var params := AuthorizeParams(clientId, redirectUri, scope, state, codeChallenge, codeChallengeMethod);
      x := client.MakeRequest("GET", "/oauth/authorize", RequestConfig(None, None, Some(params), None, None), transport);
    }

    /** `token`: grant_type and client_id always, each optional field exactly
        when given and nothing else, sent as a form; the access token of the
        response is stored when there is one; the `TypeError` cases are
        those of `login`. */
    method Token(
      grantType: string, clientId: string, clientSecret: Option<string>, code: Option<string>,
      redirectUri: Option<string>, refreshToken: Option<string>, username: Option<string>,
      password: Option<string>, scope: Option<string>, codeVerifier: Option<string>,
      transport: nat -> Attempt)
      returns (x: Exchange, outcome: Result<Value, Exc>)
      modifies client
      ensures x.request.verb == "POST" && x.request.url == Url(client.baseUrl, StripLeadingSlashes("/oauth/token"))
      ensures x.request.payload.Form?
      ensures IsTokenForm(x.request.payload.fields, grantType, clientId, clientSecret, code,
                          redirectUri, refreshToken, username, password, scope, codeVerifier)
      ensures x.run == BaseRun(0, client.retries, AttemptSteps(transport))
      ensures outcome == TokenResponseOutcome(x.run.result)
      ensures client.accessToken == TokenAfter(x.run.result, old(client.accessToken))
    {
      var data := TokenData(grantType, clientId, clientSecret, code, redirectUri, refreshToken,
                            username, password, scope, codeVerifier);
      assert "grant_type" in data;
      x := client.MakeRequest("POST", "/oauth/token", FormConfig(data), transport);
      if x.run.result.Err? {
        return x, Err(Sdk(x.run.result.error));
      }
      var response := x.run.result.value;
      var found := Contains(response, "access_token");
      if found.Err? {
        return x, Err(found.error);
      }
      if found.value {
        if !response.Object? {
          // `response["access_token"]` on a string or a list
          return x, Err(Foreign(TypeErrorName));
        }
        client.SetAccessToken(response.fields["access_token"]);
      }
      outcome := Ok(response);
    }

    /** `revoke`: once the request has returned, the stored token is cleared
        if it is the revoked token and left alone otherwise; a request that
        raises leaves it alone too. */
    method Revoke(
      token: string, clientId: string, clientSecret: Option<string>, tokenTypeHint: Option<string>,
      transport: nat -> Attempt)
      returns (x: Exchange)
      modifies client
      ensures x.request.verb == "POST" && x.request.url == Url(client.baseUrl, StripLeadingSlashes("/oauth/revoke"))
      ensures x.request.payload.Form?
      ensures IsTokenRequestForm(x.request.payload.fields, token, clientId, clientSecret, tokenTypeHint)
      ensures x.run == BaseRun(0, client.retries, AttemptSteps(transport))
      ensures x.run.result.Ok? && old(client.accessToken) == Str(token) ==> client.accessToken == Null
      ensures !(x.run.result.Ok? && old(client.accessToken) == Str(token)) ==>
        client.accessToken == old(client.accessToken)
    {
      var data := TokenForm(token, clientId, clientSecret, tokenTypeHint);
      assert "token" in data;
      x := client.MakeRequest("POST", "/oauth/revoke", FormConfig(data), transport);
      if x.run.result.Ok? && client.GetAccessToken() == Str(token) {
        client.ClearAccessToken();
      }
    }

    /** `introspect`: the same form as `revoke`; the stored token is never
        modified. */
    method Introspect(
      token: string, clientId: string, clientSecret: Option<string>, tokenTypeHint: Option<string>,
      transport: nat -> Attempt)
      returns (x: Exchange)
      ensures x.request.verb == "POST" && x.request.url == Url(client.baseUrl, StripLeadingSlashes("/oauth/introspect"))
      ensures x.request.payload.Form?
      ensures IsTokenRequestForm(x.request.payload.fields, token, clientId, clientSecret, tokenTypeHint)
      ensures x.run == BaseRun(0, client.retries, AttemptSteps(transport))
    {
      var data := TokenForm(token, clientId, clientSecret, tokenTypeHint);
      assert "token" in data;
      x := client.MakeRequest("POST", "/oauth/introspect", FormConfig(data), transport);
    }

    /** `get_userinfo`: a plain GET with the stored token. */
    method GetUserinfo(transport: nat -> Attempt) returns (x: Exchange)
      ensures x.request == client.BuildRequest("GET", "/oauth/userinfo", DefaultConfig)
      ensures x.run == BaseRun(0, client.retries, AttemptSteps(transport))
    {
      x := client.MakeRequest("GET", "/oauth/userinfo", DefaultConfig, transport);
    }
  }
}
