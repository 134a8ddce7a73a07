/** What the Flask and FastAPI integrations share: the `UserInfo` record they
    build from a token-validation response, the authenticated user with its
    role checks, the outcome of the validation call, and the messages they
    report. */
module Users {
  import opened Wrappers
  import opened Json
  import opened Exceptions

  /** The `UserInfo` model: id, username, email, roles, MFA flag and two
      timestamps (kept as the JSON values they were built from). */
  datatype UserInfo = UserInfo(
    id: string,
    username: string,
    email: string,
    roles: seq<string>,
    mfaEnabled: bool,
    createdAt: Value,
    lastLogin: Value)

  /** A JSON value accepted for a `datetime` field: a string or a number. */
  predicate DateLike(v: Value) {
    v.Str? || v.Int?
  }

  /** The items of a `list[str]` field: all of them must be strings. */
  function StringItems(items: seq<Value>): (r: Option<seq<string>>)
    ensures r.Some? <==> forall i :: 0 <= i < |items| ==> items[i].Str?
    ensures r.Some? ==> |r.value| == |items| && forall i :: 0 <= i < |items| ==> Str(r.value[i]) == items[i]
  {
    if items == [] then Some([])
    else if !items[0].Str? then None
    else match StringItems(items[1..])
      case None => None
      case Some(rest) => Some([items[0].s] + rest)
  }

  /** `UserInfo(id=..., ...)`: the record is built exactly when every field
      has the type the model declares (`created_at` is required, `last_login`
      may be None); otherwise pydantic raises its own ValidationError. */
  function MakeUserInfo(
    id: Value, username: Value, email: Value, roles: Value, mfaEnabled: Value,
    createdAt: Value, lastLogin: Value): (r: Option<UserInfo>)
    ensures r.Some? <==>
      && id.Str? && username.Str? && email.Str? && mfaEnabled.Bool?
      && roles.List? && (forall i :: 0 <= i < |roles.items| ==> roles.items[i].Str?)
      && DateLike(createdAt) && (lastLogin.Null? || DateLike(lastLogin))
    ensures r.Some? ==>
      && Str(r.value.id) == id && Str(r.value.username) == username && Str(r.value.email) == email
      && Bool(r.value.mfaEnabled) == mfaEnabled
      && |r.value.roles| == |roles.items|
      && (forall i :: 0 <= i < |roles.items| ==> Str(r.value.roles[i]) == roles.items[i])
      && r.value.createdAt == createdAt && r.value.lastLogin == lastLogin
  {
    if id.Str? && username.Str? && email.Str? && mfaEnabled.Bool? && roles.List?
       && DateLike(createdAt) && (lastLogin.Null? || DateLike(lastLogin))
    then
      match StringItems(roles.items)
      case None => None
      case Some(names) => Some(UserInfo(id.s, username.s, email.s, names, mfaEnabled.b, createdAt, lastLogin))
    else None
  }

  /** `roles` are the items of the JSON list `v`, one for one and in order. */
  ghost predicate ListedRoles(v: Value, roles: seq<string>) {
    && v.List? && |roles| == |v.items|
    && forall i :: 0 <= i < |roles| ==> Str(roles[i]) == v.items[i]
  }

  /** A role is held exactly when it is an item of the list the roles came
      from. */
  lemma {:induction false} HeldIffListed(v: Value, roles: seq<string>, role: string)
    requires ListedRoles(v, roles)
    ensures role in roles <==> Str(role) in v.items
  {
    if role in roles {
      var i :| 0 <= i < |roles| && roles[i] == role;
      assert v.items[i] == Str(role);
    }
    if Str(role) in v.items {
      var i :| 0 <= i < |v.items| && v.items[i] == Str(role);
      assert Str(roles[i]) == Str(role);
    }
  }

  /** `any(role in held for role in wanted)`: scans `wanted` in order. */
  function AnyHeld(held: seq<string>, wanted: seq<string>): (r: bool)
    ensures r <==> exists i :: 0 <= i < |wanted| && wanted[i] in held
  {
    if wanted == [] then false
    else if wanted[0] in held then true
    else AnyHeld(held, wanted[1..])
  }

  /** The authenticated user of both integrations (`FlaskAuthUser` and the
      FastAPI `AuthUser`): the user record and the token it came from. */
  datatype AuthUser = AuthUser(info: UserInfo, token: string) {
    /** `has_role(role)`: `role in self.roles`. */
    predicate HasRole(role: string) {
      role in info.roles
    }

    /** `has_any_role(roles)`: some listed role is held; never for an empty list. */
    predicate HasAnyRole(roles: seq<string>)
      ensures HasAnyRole(roles) <==> exists i :: 0 <= i < |roles| && HasRole(roles[i])
      ensures roles == [] ==> !HasAnyRole(roles)
    {
      AnyHeld(info.roles, roles)
    }
  }

  /** What `client.tokens.validate(token)` did: it returned a document, or it
      raised. */
  datatype Validation = Answered(result: Value) | Raised(error: Exc)

  const InvalidTokenMessage := "Invalid or expired token"
  const NoUserInfoMessage := "Token does not contain user information"
  const AuthFailedPrefix := "Authentication failed: "
  const NotImplementedName := "NotImplementedError"
  /** pydantic's own ValidationError, which is not an SDK exception. */
  const ModelValidationName := "ValidationError"
  /** Raised by `.get` on a document that is not a dict. */
  const AttributeErrorName := "AttributeError"

  /** `"Role '<role>' required"`. */
  function RoleMessage(role: string): string {
    "Role '" + role + "' required"
  }

  /** `sep.join(parts)`. */
  function Join(sep: string, parts: seq<string>): string {
    if parts == [] then ""
    else if |parts| == 1 then parts[0]
    else parts[0] + sep + Join(sep, parts[1..])
  }

  /** Each part wrapped in single quotes: `f"'{r}'" for r in parts`. */
  function Quoted(parts: seq<string>): (r: seq<string>)
    ensures |r| == |parts|
    ensures forall i :: 0 <= i < |parts| ==> r[i] == "'" + parts[i] + "'"
  {
    if parts == [] then [] else ["'" + parts[0] + "'"] + Quoted(parts[1..])
  }

  /** Quoting each part and joining with ", " gives the same text as joining
      with "', '" and quoting the whole, as long as there is a part. */
  lemma {:induction false} JoinQuoted(parts: seq<string>)
    requires parts != []
    ensures Join(", ", Quoted(parts)) == "'" + Join("', '", parts) + "'"
  {
    if |parts| > 1 {
      var q := Quoted(parts);
      assert q[1..] == Quoted(parts[1..]);
      JoinQuoted(parts[1..]);
      var rest := Join("', '", parts[1..]);
      calc {
        Join(", ", q);
        q[0] + ", " + Join(", ", q[1..]);
        ("'" + parts[0] + "'") + ", " + ("'" + rest + "'");
        { assert ("'" + parts[0] + "'") + ", " + ("'" + rest + "'")
              == "'" + (parts[0] + "', '" + rest) + "'"; }
        "'" + (parts[0] + "', '" + rest) + "'";
        "'" + Join("', '", parts) + "'";
      }
    }
  }
}
