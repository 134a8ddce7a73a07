/** The FastAPI integration: the dependency that validates the bearer
    credential into a user, and the role and permission dependencies layered
    on it. Each dependency either yields the user or raises: an
    HTTPException with a status and a detail, or another exception. */
module FastApi {
  import opened Wrappers
  import opened Json
  import opened Exceptions
  import opened Users
  import Flask

  const MissingUserDataMessage := "Token validation response missing user data"
  const Unauthorized := 401
  const Forbidden := 403

  /** How a dependency fails. */
  datatype Failure = HttpError(status: int, detail: string) | Escaped(error: Exc)

  /** The `UserInfo` that `_validate_token` builds from the "data" object of
      the validation response. */
  function UserInfoFromData(data: map<string, Value>): Option<UserInfo> {
    MakeUserInfo(
      Get(data, "id", Null),
      Get(data, "username", Str("")),
      Get(data, "email", Str("")),
      Get(data, "roles", List([])),
      Get(data, "mfa_enabled", Bool(false)),
      Get(data, "created_at", Null),
      Get(data, "last_login", Null))
  }

  /** `_validate_token(credentials)`, the `get_current_user` and
      `require_auth` dependency. The checks run in order: "success", then
      "data", then "data.id", each failing with 401; an SDK error from the
      validation call becomes 401 "Authentication failed: <message>". */
  function ValidateToken(credentials: string, validate: string -> Validation): (r: Result<AuthUser, Failure>)
    ensures validate(credentials).Raised? && validate(credentials).error.Sdk? ==>
      r == Err(HttpError(401, AuthFailedPrefix + validate(credentials).error.error.message))
    ensures validate(credentials).Raised? && validate(credentials).error.Foreign? ==>
      r == Err(Escaped(validate(credentials).error))
    ensures validate(credentials).Answered? && validate(credentials).result.Object? ==>
      var doc := validate(credentials).result.fields;
      var data := Get(doc, "data", Null);
      && (!Truthy(Get(doc, "success", Bool(false))) ==> r == Err(HttpError(401, InvalidTokenMessage)))
      && (Truthy(Get(doc, "success", Bool(false))) && !Truthy(data) ==>
            r == Err(HttpError(401, MissingUserDataMessage)))
      && (Truthy(Get(doc, "success", Bool(false))) && data.Object? && data.fields != map[]
          && !Truthy(Get(data.fields, "id", Null)) ==>
            r == Err(HttpError(401, NoUserInfoMessage)))
    ensures r.Ok? <==>
      && validate(credentials).Answered? && validate(credentials).result.Object?
      && Truthy(Get(validate(credentials).result.fields, "success", Bool(false)))
      && var data := Get(validate(credentials).result.fields, "data", Null);
      && data.Object? && data.fields != map[]
      && Truthy(Get(data.fields, "id", Null))
      && UserInfoFromData(data.fields).Some?
    ensures r.Ok? ==>
      var data := Get(validate(credentials).result.fields, "data", Null);
      && r.value == AuthUser(UserInfoFromData(data.fields).value, credentials)
      && Str(r.value.info.id) == Get(data.fields, "id", Null)
      && ListedRoles(Get(data.fields, "roles", List([])), r.value.info.roles)
    ensures
      (&& validate(credentials).Answered? && validate(credentials).result.Object?
       && Truthy(Get(validate(credentials).result.fields, "success", Bool(false)))
       && Get(validate(credentials).result.fields, "data", Null).Object?
       && Truthy(Get(Get(validate(credentials).result.fields, "data", Null).fields, "id", Null))
       && UserInfoFromData(Get(validate(credentials).result.fields, "data", Null).fields).None?)
      ==> r == Err(Escaped(Foreign(ModelValidationName)))
    ensures validate(credentials).Answered? && !validate(credentials).result.Object? ==>
      r == Err(Escaped(Foreign(AttributeErrorName)))
    ensures
      (&& validate(credentials).Answered? && validate(credentials).result.Object?
       && Truthy(Get(validate(credentials).result.fields, "success", Bool(false)))
       && Truthy(Get(validate(credentials).result.fields, "data", Null))
       && !Get(validate(credentials).result.fields, "data", Null).Object?)
      ==> r == Err(Escaped(Foreign(AttributeErrorName)))
    ensures r.Err? && r.error.HttpError? ==> r.error.status == 401
  {
    match validate(credentials)
    case Raised(Sdk(e)) => Err(HttpError(Unauthorized, AuthFailedPrefix + e.message))
    case Raised(Foreign(name)) => Err(Escaped(Foreign(name)))
    case Answered(v) =>
      if !v.Object? then Err(Escaped(Foreign(AttributeErrorName)))
      else if !Truthy(Get(v.fields, "success", Bool(false))) then Err(HttpError(Unauthorized, InvalidTokenMessage))
      else
        var data := Get(v.fields, "data", Null);
        if !Truthy(data) then Err(HttpError(Unauthorized, MissingUserDataMessage))
        else if !data.Object? then Err(Escaped(Foreign(AttributeErrorName)))
        else if !Truthy(Get(data.fields, "id", Null)) then Err(HttpError(Unauthorized, NoUserInfoMessage))
        else match UserInfoFromData(data.fields)
          case None => Err(Escaped(Foreign(ModelValidationName)))
          case Some(info) => Ok(AuthUser(info, credentials))
  }

  /** The detail of `require_any_role`: the roles joined by "', '" inside one
      pair of quotes. */
  function AnyRoleDetail(roles: seq<string>): string {
    "One of the following roles required: '" + Join("', '", roles) + "'"
  }

  /** `require_role(role)`: the user of the authentication dependency when it
      has the role, 403 "Role '<role>' required" when it does not; an
      authentication failure comes first. */
  function RequireRole(role: string, credentials: string, validate: string -> Validation): (r: Result<AuthUser, Failure>)
    ensures ValidateToken(credentials, validate).Err? ==> r == ValidateToken(credentials, validate)
    ensures r.Ok? <==> ValidateToken(credentials, validate).Ok? && ValidateToken(credentials, validate).value.HasRole(role)
    ensures r.Ok? ==> r == ValidateToken(credentials, validate)
    ensures ValidateToken(credentials, validate).Ok? && !ValidateToken(credentials, validate).value.HasRole(role) ==>
      r == Err(HttpError(403, RoleMessage(role)))
  {
    match ValidateToken(credentials, validate)
    case Err(f) => Err(f)
    case Ok(user) => if !user.HasRole(role) then Err(HttpError(Forbidden, RoleMessage(role))) else Ok(user)
  }

  /** With the roles taken from the "roles" of the response's "data":
      `require_role(role)` yields the user exactly when the token validates
      and `role` is one of them. */
  lemma RequireRoleMeansListed(role: string, credentials: string, validate: string -> Validation)
    ensures RequireRole(role, credentials, validate).Ok? <==>
      && ValidateToken(credentials, validate).Ok?
      && Str(role) in Get(Get(validate(credentials).result.fields, "data", Null).fields, "roles", List([])).items
  {
    if ValidateToken(credentials, validate).Ok? {
      var data := Get(validate(credentials).result.fields, "data", Null);
      HeldIffListed(Get(data.fields, "roles", List([])), ValidateToken(credentials, validate).value.info.roles, role);
    }
  }

  /** `require_any_role(roles)`: the user when it holds one of the roles, 403
      otherwise (always, for an empty list); an authentication failure comes
      first. */
  function RequireAnyRole(roles: seq<string>, credentials: string, validate: string -> Validation)
    : (r: Result<AuthUser, Failure>)
    ensures ValidateToken(credentials, validate).Err? ==> r == ValidateToken(credentials, validate)
    ensures r.Ok? <==>
      && ValidateToken(credentials, validate).Ok?
      && exists i :: 0 <= i < |roles| && roles[i] in ValidateToken(credentials, validate).value.info.roles
    ensures r.Ok? ==> r == ValidateToken(credentials, validate)
    ensures ValidateToken(credentials, validate).Ok? && !r.Ok? ==> r == Err(HttpError(403, AnyRoleDetail(roles)))
    ensures roles == [] ==> r.Err?
  {
    match ValidateToken(credentials, validate)
    case Err(f) => Err(f)
    case Ok(user) => if !user.HasAnyRole(roles) then Err(HttpError(Forbidden, AnyRoleDetail(roles))) else Ok(user)
  }

  /** `require_permission`: an authentication failure comes first; a user
      that authenticates gets NotImplementedError. It never yields a user. */
  function RequirePermission(resource: string, action: string, credentials: string, validate: string -> Validation)
    : (r: Result<AuthUser, Failure>)
    ensures r.Err?
    ensures ValidateToken(credentials, validate).Err? ==> r == ValidateToken(credentials, validate)
    ensures ValidateToken(credentials, validate).Ok? ==> r == Err(Escaped(Foreign(NotImplementedName)))
  {
    match ValidateToken(credentials, validate)
    case Err(f) => Err(f)
    case Ok(_) => Err(Escaped(Foreign(NotImplementedName)))
  }

  /** With at least one role the two integrations word the any-role refusal
      identically; with none, FastAPI's detail ends in a pair of empty quotes
      and Flask's message does not. */
  lemma AnyRoleWordingAgrees(roles: seq<string>)
    ensures roles != [] ==> Flask.AnyRoleMessage(roles) == AnyRoleDetail(roles)
    ensures roles == [] ==> Flask.AnyRoleMessage(roles) + "''" == AnyRoleDetail(roles)
  {
    if roles != [] {
      JoinQuoted(roles);
    }
  }
}
