/** The Flask integration: the bearer credential of the request, the
    validation of that token into a user, and the decorator wrapper that turns
    both into a 401 or 403 JSON reply or lets the view run. */
module Flask {
  import opened Wrappers
  import opened Json
  import opened Exceptions
  import opened Http
  import opened Users

  const HeaderMissingMessage := "Authorization header missing"
  const ForbiddenMessage := "Forbidden"
  const Unauthorized := 401
  const DefaultErrorStatus := 403

  /** `_get_token_from_request`: the Authorization header without its
      "Bearer " prefix, when it has one (case-sensitively); None otherwise.
      This is the credential syntax of section 2.1 of RFC 6750, with the
      scheme matched case-sensitively. */
  function TokenFromRequest(header: Option<string>): (t: Option<string>)
    ensures t.Some? <==>
      header.Some? && |BearerPrefix| <= |header.value| && header.value[..|BearerPrefix|] == BearerPrefix
    ensures t.Some? ==> header.value == BearerPrefix + t.value
  {
    if header.Some? && header.value != ""
       && |BearerPrefix| <= |header.value| && header.value[..|BearerPrefix|] == BearerPrefix
    then
      assert header.value == BearerPrefix + header.value[|BearerPrefix|..];
      Some(header.value[|BearerPrefix|..])
    else None
  }

  /** The header a client sends for token t gives back exactly t. */
  lemma BearerRoundTrip(t: string)
    ensures TokenFromRequest(Some(BearerPrefix + t)) == Some(t)
  {
    assert (BearerPrefix + t)[..|BearerPrefix|] == BearerPrefix;
    assert (BearerPrefix + t)[|BearerPrefix|..] == t;
  }

  /** The `UserInfo` that `_validate_token` builds from a validation
      document: roles come from "scopes". */
  function UserInfoFromValidation(doc: map<string, Value>): Option<UserInfo> {
    MakeUserInfo(
      Get(doc, "user_id", Null),
      Get(doc, "username", Str("")),
      Get(doc, "email", Str("")),
      Get(doc, "scopes", List([])),
      Get(doc, "mfa_enabled", Bool(false)),
      Get(doc, "created_at", Null),
      Get(doc, "last_login", Null))
  }

  function AuthError(message: string): Exc {
    Sdk(AuthFrameworkError(message, UnknownCode, Null, None))
  }

  /** `_validate_token(token)`: a falsy or missing "valid" fails first, then a
      falsy or missing "user_id"; both fail with an SDK error. Errors of the
      validation call pass through unchanged. */
  function ValidateToken(token: string, validate: string -> Validation): (r: Result<AuthUser, Exc>)
    ensures validate(token).Raised? ==> r == Err(validate(token).error)
    ensures validate(token).Answered? && !validate(token).result.Object? ==>
      r == Err(Foreign(AttributeErrorName))
    ensures validate(token).Answered? && validate(token).result.Object? ==>
      var doc := validate(token).result.fields;
      && (!Truthy(Get(doc, "valid", Bool(false))) ==> r == Err(AuthError(InvalidTokenMessage)))
      && (Truthy(Get(doc, "valid", Bool(false))) && !Truthy(Get(doc, "user_id", Null)) ==>
            r == Err(AuthError(NoUserInfoMessage)))
    ensures r.Ok? <==>
      && validate(token).Answered? && validate(token).result.Object?
      && Truthy(Get(validate(token).result.fields, "valid", Bool(false)))
      && Truthy(Get(validate(token).result.fields, "user_id", Null))
      && UserInfoFromValidation(validate(token).result.fields).Some?
    ensures r.Ok? ==>
      && r.value == AuthUser(UserInfoFromValidation(validate(token).result.fields).value, token)
      && Str(r.value.info.id) == Get(validate(token).result.fields, "user_id", Null)
      && ListedRoles(Get(validate(token).result.fields, "scopes", List([])), r.value.info.roles)
    ensures
      && validate(token).Answered? && validate(token).result.Object?
      && Truthy(Get(validate(token).result.fields, "valid", Bool(false)))
      && Truthy(Get(validate(token).result.fields, "user_id", Null))
      && UserInfoFromValidation(validate(token).result.fields).None?
      ==> r == Err(Foreign(ModelValidationName))
    ensures r.Err? && r.error.Sdk? ==>
      validate(token).Raised? || r.error.error.message in {InvalidTokenMessage, NoUserInfoMessage}
  {
    match validate(token)
    case Raised(e) => Err(e)
    case Answered(v) =>
      if !v.Object? then Err(Foreign(AttributeErrorName))
      else if !Truthy(Get(v.fields, "valid", Bool(false))) then Err(AuthError(InvalidTokenMessage))
      else if !Truthy(Get(v.fields, "user_id", Null)) then Err(AuthError(NoUserInfoMessage))
      else match UserInfoFromValidation(v.fields)
        case None => Err(Foreign(ModelValidationName))
        case Some(info) => Ok(AuthUser(info, token))
  }

  /** What the wrapper hands back: the view's own result, a JSON error reply
      with its status, or an exception that escapes the wrapper. */
  datatype Reply = Ran | ErrorJson(message: string, status: int) | Unhandled(error: Exc)

  /** The options of `_make_auth_decorator`. */
  datatype AuthDecorator = AuthDecorator(
    postCheck: Option<AuthUser -> bool>,
    errorBuilder: Option<AuthUser -> string>,
    errorStatus: int)

  /** `auth_required`. */
  function AuthRequired(): AuthDecorator {
    AuthDecorator(None, None, DefaultErrorStatus)
  }

  /** `role_required(role)`. */
  function RoleRequired(role: string): AuthDecorator {
    AuthDecorator(Some((u: AuthUser) => u.HasRole(role)), Some((u: AuthUser) => RoleMessage(role)), DefaultErrorStatus)
  }

  /** The message of `any_role_required`: each role quoted, joined by ", ". */
  function AnyRoleMessage(roles: seq<string>): string {
    "One of the following roles required: " + Join(", ", Quoted(roles))
  }

  /** `any_role_required(roles)`. */
  function AnyRoleRequired(roles: seq<string>): AuthDecorator {
    AuthDecorator(Some((u: AuthUser) => u.HasAnyRole(roles)), Some((u: AuthUser) => AnyRoleMessage(roles)), DefaultErrorStatus)
  }

  /** The outcome of one request through the wrapper: the reply and the user
      stored in `g.current_user`, if the wrapper stored one. */
  datatype Outcome = Outcome(reply: Reply, stored: Option<AuthUser>)

  /** The wrapper's ordered checks, as a function of the Authorization header
      and of the validation call. */
  function Decide(d: AuthDecorator, header: Option<string>, validate: string -> Validation): Outcome {
    var token := TokenFromRequest(header);
    if token.None? || token.value == "" then Outcome(ErrorJson(HeaderMissingMessage, Unauthorized), None)
    else match ValidateToken(token.value, validate)
      case Err(Sdk(e)) => Outcome(ErrorJson(AuthFailedPrefix + e.message, Unauthorized), None)
      case Err(Foreign(name)) => Outcome(Unhandled(Foreign(name)), None)
      case Ok(user) =>
        if d.postCheck.Some? && !d.postCheck.value(user) then
          var message := if d.errorBuilder.Some? then d.errorBuilder.value(user) else ForbiddenMessage;
          Outcome(ErrorJson(message, d.errorStatus), Some(user))
        else Outcome(Ran, Some(user))
  }

  /** Flask's request-global `g`. */
  class RequestGlobals {
    var currentUser: Option<AuthUser>

    constructor ()
      ensures currentUser == None
    {
      currentUser := None;
    }

    /** `get_current_user()`: `g.current_user`, or None when it was never set. */
    function CurrentUser(): Option<AuthUser>
      reads this
    {
      currentUser
    }
  }

  /** The `wrapper` of `_make_auth_decorator`: returns the reply of `Decide`
      and stores the validated user in `g` before the post-check runs; `g` is
      left alone on every path that has no validated user. */
  method Wrapper(d: AuthDecorator, header: Option<string>, validate: string -> Validation, g: RequestGlobals)
    returns (reply: Reply)
    modifies g
    ensures reply == Decide(d, header, validate).reply
    ensures g.currentUser == if Decide(d, header, validate).stored.Some? then Decide(d, header, validate).stored
                             else old(g.currentUser)
  {
    var token := TokenFromRequest(header);
    if token.None? || token.value == "" {
      return ErrorJson(HeaderMissingMessage, Unauthorized);
    }
    var validated := ValidateToken(token.value, validate);
    if validated.Err? {
      match validated.error
      case Sdk(e) => return ErrorJson(AuthFailedPrefix + e.message, Unauthorized);
      case Foreign(name) => return Unhandled(Foreign(name));
    }
    var user := validated.value;
    g.currentUser := Some(user);
    if d.postCheck.Some? && !d.postCheck.value(user) {
      var message := if d.errorBuilder.Some? then d.errorBuilder.value(user) else ForbiddenMessage;
      return ErrorJson(message, d.errorStatus);
    }
    return Ran;
  }

  /** Without a non-empty bearer token every decorator replies 401 "Authorization
      header missing", whatever the validation call would have said: it is
      never made. */
  lemma MissingTokenRejected(d: AuthDecorator, header: Option<string>, validate: string -> Validation,
                             other: string -> Validation)
    requires TokenFromRequest(header).None? || TokenFromRequest(header).value == ""
    ensures Decide(d, header, validate) == Decide(d, header, other)
    ensures Decide(d, header, validate) == Outcome(ErrorJson(HeaderMissingMessage, 401), None)
  {
  }

  /** A validation failure that is an SDK error is a 401 carrying its message. */
  lemma ValidationFailureIs401(d: AuthDecorator, header: Option<string>, validate: string -> Validation)
    requires TokenFromRequest(header).Some? && TokenFromRequest(header).value != ""
    requires ValidateToken(TokenFromRequest(header).value, validate).Err?
    requires ValidateToken(TokenFromRequest(header).value, validate).error.Sdk?
    ensures Decide(d, header, validate).reply.ErrorJson?
    ensures Decide(d, header, validate).reply.status == 401
    ensures Decide(d, header, validate).reply.message ==
      AuthFailedPrefix + ValidateToken(TokenFromRequest(header).value, validate).error.error.message
  {
  }

  /** `auth_required` runs the view exactly when a non-empty bearer token
      validates. */
  lemma AuthRequiredRunsIffValid(header: Option<string>, validate: string -> Validation)
    ensures Decide(AuthRequired(), header, validate).reply == Ran <==>
      && TokenFromRequest(header).Some? && TokenFromRequest(header).value != ""
      && ValidateToken(TokenFromRequest(header).value, validate).Ok?
  {
  }

  /** `role_required(role)` runs the view exactly when the token validates
      and the user has the role, and replies 403 "Role '<role>' required"
      exactly when the token validates and the user lacks it. */
  lemma RoleRequiredGate(role: string, header: Option<string>, validate: string -> Validation)
    ensures var t := TokenFromRequest(header);
      && (Decide(RoleRequired(role), header, validate).reply == Ran <==>
            t.Some? && t.value != "" && ValidateToken(t.value, validate).Ok?
            && role in ValidateToken(t.value, validate).value.info.roles)
      && (Decide(RoleRequired(role), header, validate).reply == ErrorJson(RoleMessage(role), 403) <==>
            t.Some? && t.value != "" && ValidateToken(t.value, validate).Ok?
            && role !in ValidateToken(t.value, validate).value.info.roles)
  {
    var t := TokenFromRequest(header);
    if t.Some? && t.value != "" && ValidateToken(t.value, validate).Err? {
      assert ValidateToken(t.value, validate).error.Sdk? ==>
        AuthFailedPrefix <= Decide(RoleRequired(role), header, validate).reply.message;
      if ValidateToken(t.value, validate).error.Sdk? {
        var m := Decide(RoleRequired(role), header, validate).reply.message;
        assert m[..1] == "A" && RoleMessage(role)[..1] == "R";
      }
    }
  }

  /** With the roles taken from "scopes": `role_required(role)` runs the
      view exactly when the token validates and `role` is one of the scopes
      of the validation answer. */
  lemma RoleRequiredMeansScope(role: string, header: Option<string>, validate: string -> Validation)
    ensures var t := TokenFromRequest(header);
      Decide(RoleRequired(role), header, validate).reply == Ran <==>
        && t.Some? && t.value != "" && ValidateToken(t.value, validate).Ok?
        && Str(role) in Get(validate(t.value).result.fields, "scopes", List([])).items
  {
    RoleRequiredGate(role, header, validate);
    var t := TokenFromRequest(header);
    if t.Some? && t.value != "" && ValidateToken(t.value, validate).Ok? {
      HeldIffListed(Get(validate(t.value).result.fields, "scopes", List([])), ValidateToken(t.value, validate).value.info.roles, role);
    }
  }

  /** `any_role_required(roles)` runs the view exactly when the token
      validates and the user holds one of the roles, and replies 403 with
      `AnyRoleMessage(roles)` exactly when the token validates and the user
      holds none of them; with no roles listed it never runs the view. */
  lemma AnyRoleRequiredGate(roles: seq<string>, header: Option<string>, validate: string -> Validation)
    ensures var t := TokenFromRequest(header);
      Decide(AnyRoleRequired(roles), header, validate).reply == Ran <==>
        t.Some? && t.value != "" && ValidateToken(t.value, validate).Ok?
        && exists i :: 0 <= i < |roles| && roles[i] in ValidateToken(t.value, validate).value.info.roles
    ensures var t := TokenFromRequest(header);
      Decide(AnyRoleRequired(roles), header, validate).reply == ErrorJson(AnyRoleMessage(roles), 403) <==>
        t.Some? && t.value != "" && ValidateToken(t.value, validate).Ok?
        && !(exists i :: 0 <= i < |roles| && roles[i] in ValidateToken(t.value, validate).value.info.roles)
    ensures roles == [] ==> Decide(AnyRoleRequired(roles), header, validate).reply != Ran
  {
  }

  /** `permission_required`: the wrapper raises NotImplementedError before
      looking at the request. */
  function PermissionRequired(resource: string, action: string, header: Option<string>,
                              validate: string -> Validation): Reply {
    Unhandled(Foreign(NotImplementedName))
  }

  /** Whatever the request carries, `permission_required` never runs the
      view and never builds a reply. */
  lemma PermissionRequiredNeverRuns(
    resource: string, action: string, header: Option<string>, validate: string -> Validation,
    otherHeader: Option<string>, otherValidate: string -> Validation)
    ensures PermissionRequired(resource, action, header, validate)
         == PermissionRequired(resource, action, otherHeader, otherValidate)
    ensures PermissionRequired(resource, action, header, validate).Unhandled?
    ensures PermissionRequired(resource, action, header, validate).error == Foreign("NotImplementedError")
  {
  }
}
