/**
 * Token issuing and the request dependencies that resolve the caller: the current user from a
 * bearer token, the active-user check and the premium-role check. Signing and verifying the
 * token are outside the model: a token is decoded by a function parameter that yields the
 * signed claims, or nothing when the signature, format or expiry check fails.
 */
module Security {
  import opened Wrappers
  import opened Store

  /** Minutes a token lives when no lifetime is given. */
  const AccessTokenExpireMinutes: int := 30

  /** The claims a token signs: the caller's string entries plus the expiry time in seconds. */
  datatype Claims = Claims(fields: map<string, string>, exp: int)

  /**
   * `create_access_token`: a copy of `data` with an `exp` claim. A lifetime of zero seconds is
   * falsy in Python, so it falls back to the default like a missing one.
   */
  function CreateAccessToken(data: map<string, string>, expiresDelta: Option<int>, now: int): (c: Claims)
    ensures forall k :: k in data && k != "exp" ==> k in c.fields && c.fields[k] == data[k]
    ensures "exp" !in c.fields && c.fields.Keys <= data.Keys
    ensures expiresDelta.Some? && expiresDelta.value != 0 ==> c.exp == now + expiresDelta.value
    ensures expiresDelta.None? || expiresDelta.value == 0 ==> c.exp == now + AccessTokenExpireMinutes * 60
  {
    var expire := if expiresDelta.Some? && expiresDelta.value != 0 then now + expiresDelta.value
                  else now + AccessTokenExpireMinutes * 60;
    Claims(data - {"exp"}, expire)
  }

  /** The 401 every failed credential check raises. */
  const CredentialsError: HttpError := HttpError(401, "Could not validate credentials")

  /** The first user whose email is `email`. */
  function UserByEmail(users: Table<UserRow>, email: string): (r: Option<Row<UserRow>>)
    ensures r.Some? ==> r.value in users.rows && r.value.value.email == email
    ensures r.None? <==> forall i :: 0 <= i < |users.rows| ==> users.rows[i].value.email != email
  {
    users.First((r: Row<UserRow>) => r.value.email == email)
  }

  /**
   * `get_current_user`: the user named by the token's `sub` claim. A token that does not decode,
   * a missing `sub` and an unknown email all end in the same 401. The `role` claim is read but
   * never used.
   */
  function GetCurrentUser(token: string, decode: string -> Option<Claims>, users: Table<UserRow>): (r: Result<Row<UserRow>, HttpError>)
    ensures r.Err? ==> r.error == CredentialsError
    ensures r.Ok? <==> decode(token).Some? && "sub" in decode(token).value.fields
                       && exists i :: 0 <= i < |users.rows| && users.rows[i].value.email == decode(token).value.fields["sub"]
    ensures r.Ok? ==> r.value in users.rows && r.value.value.email == decode(token).value.fields["sub"]
  {
    match decode(token)
    case None => Err(CredentialsError)
    case Some(payload) =>
      if "sub" !in payload.fields then Err(CredentialsError)
      else
        match UserByEmail(users, payload.fields["sub"])
        case None => Err(CredentialsError)
        case Some(user) => Ok(user)
  }

  /** `get_current_active_user`: the current user, unless the account is inactive (400). */
  function GetCurrentActiveUser(current: Result<Row<UserRow>, HttpError>): (r: Result<Row<UserRow>, HttpError>)
    ensures current.Err? ==> r == current
    ensures current.Ok? && current.value.value.isActive ==> r == current
    ensures current.Ok? && !current.value.value.isActive ==> r == Err(HttpError(400, "Inactive user"))
  {
    match current
    case Err(e) => Err(e)
    case Ok(user) => if !user.value.isActive then Err(HttpError(400, "Inactive user")) else Ok(user)
  }

  /**
   * `get_premium_user`: the current user if the role is exactly "premium", else 403. It builds on
   * `get_current_user`, not on the active check.
   */
  function GetPremiumUser(current: Result<Row<UserRow>, HttpError>): (r: Result<Row<UserRow>, HttpError>)
    ensures current.Err? ==> r == current
    ensures current.Ok? ==> (r.Ok? <==> current.value.value.role == "premium")
    ensures r.Ok? ==> r == current
    ensures current.Ok? && r.Err? ==> r.error == HttpError(403, "Premium subscription required for this feature")
  {
    match current
    case Err(e) => Err(e)
    case Ok(user) =>
      if user.value.role != "premium" then Err(HttpError(403, "Premium subscription required for this feature"))
      else Ok(user)
  }

  /**
   * A token issued for an email resolves to the first user with that email, as long as it still
   * decodes to the claims it was issued with.
   */
  lemma IssuedTokenResolves(email: string, role: string, expiresDelta: Option<int>, now: int,
                            token: string, decode: string -> Option<Claims>, users: Table<UserRow>)
    requires decode(token) == Some(CreateAccessToken(map["sub" := email, "role" := role], expiresDelta, now))
    ensures GetCurrentUser(token, decode, users) == match UserByEmail(users, email)
                                                   case None => Err(CredentialsError)
                                                   case Some(u) => Ok(u)
  {
    var c := CreateAccessToken(map["sub" := email, "role" := role], expiresDelta, now);
    assert "sub" in c.fields && c.fields["sub"] == email;
  }

  /** An inactive premium user passes the premium check, though the active check rejects them. */
  lemma InactivePremiumPasses(user: Row<UserRow>)
    requires user.value.role == "premium" && !user.value.isActive
    ensures GetPremiumUser(Ok(user)) == Ok(user)
    ensures GetCurrentActiveUser(Ok(user)).Err?
  {
  }

  /** The seeded "admin" role is not "premium", so the admin fails every premium check. */
  lemma AdminIsNotPremium(user: Row<UserRow>)
    requires user.value.role == "admin"
    ensures GetPremiumUser(Ok(user)) == Err(HttpError(403, "Premium subscription required for this feature"))
  {
  }
}
