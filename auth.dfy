/**
 * The authentication and authorization middleware of
 * backend/middleware/auth.js. `Protect` finds the request's bearer token
 * (Authorization header first, cookie second), verifies it and loads the
 * user; `Authorize` lets only administrators through. Token verification
 * (`jwt.verify`) and the user lookup (`User.findById`) are not part of this
 * model: they are passed in as a function and a map.
 */
module AuthMiddleware {
  import opened Wrappers
  import opened Strings
  import opened ErrorMiddleware
  import opened Ids

  /** The fields of a user record the middleware and the routes read. */
  datatype User = User(id: UserId, name: string, role: string, isActive: bool)

  predicate IsAdmin(u: User) {
    u.role == "admin"
  }

  /** `authorization.split(" ")[1]`: the second space-separated piece of the header, if there is one. */
  function BearerToken(header: string): (r: Option<string>)
    ensures r.None? <==> ' ' !in header
  {
    var parts := Split(header, ' ');
    if |parts| > 1 then Some(parts[1]) else None
  }

  /** The token is the text after the header's first space, up to the next space or the end. */
  lemma BearerTokenIsSecondWord(header: string)
    requires ' ' in header
    ensures var rest := header[IndexOf(header, ' ') + 1..];
      BearerToken(header) == Some(if ' ' in rest then rest[..IndexOf(rest, ' ')] else rest)
  {
    SplitAtFirst(header, ' ');
    var rest := header[IndexOf(header, ' ') + 1..];
    if ' ' in rest {
      SplitAtFirst(rest, ' ');
    }
  }

  /** The header is used when present and it starts with "Bearer". */
  predicate UsesHeader(authorization: Option<string>) {
    authorization.Some? && authorization.value != [] && StartsWith(authorization.value, "Bearer")
  }

  const NotAuthorized := Fail(401, "Not authorized to access this route")

  /**
   * The `try` block of `protect`, given the chosen token: a missing or empty
   * token, a token that does not verify, an unknown user and a deactivated
   * user are each answered with 401; otherwise the user is attached to the
   * request and the next handler runs.
   */
  function Authenticate(token: Option<string>, verifyToken: string -> Option<UserId>, users: map<UserId, User>): (r: Result<User, ErrorResponse>)
    ensures r.Ok? <==>
      && token.Some? && token.value != []
      && verifyToken(token.value).Some?
      && verifyToken(token.value).value in users
      && users[verifyToken(token.value).value].isActive
    ensures r.Ok? ==> r.value == users[verifyToken(token.value).value] && r.value.isActive
    ensures r.Err? ==> r.error.status == 401 && !r.error.success
  {
    if token.None? || token.value == [] then Err(NotAuthorized)
    else match verifyToken(token.value)
      case None => Err(NotAuthorized)
      case Some(uid) =>
        if uid !in users then Err(Fail(401, "User not found"))
        else if !users[uid].isActive then Err(Fail(401, "User account is deactivated"))
        else Ok(users[uid])
  }

  /**
   * `protect`: the token is taken from the header when the header starts with
   * "Bearer" (even when the header has no second word, in which case the
   * cookie is not consulted and the request fails with 401), else from the
   * cookie when the cookie is non-empty. `Ok(user)` stands for `req.user =
   * user; next()`.
   */
  method Protect(authorization: Option<string>, cookieToken: Option<string>,
                 verifyToken: string -> Option<UserId>, users: map<UserId, User>)
    returns (r: Result<User, ErrorResponse>)
    ensures UsesHeader(authorization) ==> r == Authenticate(BearerToken(authorization.value), verifyToken, users)
    ensures !UsesHeader(authorization) ==> r == Authenticate(cookieToken, verifyToken, users)
    ensures r.Ok? ==> r.value.isActive && r.value in users.Values
    ensures r.Err? ==> r.error.status == 401
  {
    var token: Option<string> := None;
    if authorization.Some? && authorization.value != [] && StartsWith(authorization.value, "Bearer") {
      token := BearerToken(authorization.value);
    } else if cookieToken.Some? && cookieToken.value != [] {
      token := cookieToken;
    }
    r := Authenticate(token, verifyToken, users);
  }

  /** `authorize`: `None` stands for `next()`; otherwise the 403 response. */
  function Authorize(user: Option<User>): (r: Option<ErrorResponse>)
    ensures r.None? <==> user.Some? && user.value.role == "admin"
    ensures r.Some? ==> r.value == Fail(403, "Not authorized as an admin")
  {
    if user.Some? && IsAdmin(user.value) then None else Some(Fail(403, "Not authorized as an admin"))
  }
}
