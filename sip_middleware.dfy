/**
 * Request authentication and role gating of the SIP authentication service
 * (services/sip-auth/src/middleware/auth.ts).
 */
module SipMiddleware {
  import opened Wrappers
  import opened Strings
  import opened SipUsers

  const AccessTokenRequired: string := "Access token required"
  const InvalidToken: string := "Invalid token"
  const InvalidOrInactiveUser: string := "Invalid or inactive user"
  const AuthenticationRequired: string := "Authentication required"
  const InsufficientPermissions: string := "Insufficient permissions"

  /** What the middleware attaches as `req.user`: the selected columns of the record. */
  datatype AuthUser = AuthUser(id: string, email: string, role: string, isActive: bool)

  function View(u: SipUser): AuthUser {
    AuthUser(u.id, u.email, u.role, u.isActive)
  }

  /**
   * `authHeader && authHeader.split(' ')[1]`: the second space-separated
   * field, whatever the first one (the scheme) says.
   */
  function HeaderToken(header: Option<string>): Option<string> {
    if !Truthy(header) then None else SecondField(header.value, ' ')
  }

  /** `Authorization: Bearer <token>` (section 2.1 of RFC 6750) yields `<token>`. */
  lemma BearerHeaderToken(token: string)
    requires ' ' !in token
    ensures HeaderToken(Some("Bearer " + token)) == Some(token)
  {
    assert "Bearer " + token == "Bearer" + [' '] + token;
    SecondFieldOfPair("Bearer", ' ', token);
  }

  /** The scheme is not checked: any one-word scheme in front of the token is accepted. */
  lemma AnySchemeAccepted(scheme: string, token: string)
    requires ' ' !in scheme && ' ' !in token
    ensures HeaderToken(Some(scheme + [' '] + token)) == Some(token)
  {
    SecondFieldOfPair(scheme, ' ', token);
  }

  /** A header without a space carries no token. */
  lemma NoSpaceNoToken(header: string)
    requires ' ' !in header
    ensures HeaderToken(Some(header)) == None
  {
  }

  /**
   * The decision of `authenticateToken`. `verify` stands for `jwt.verify`
   * and yields the token's `userId`; `None` is a `JsonWebTokenError`, which
   * includes the expired and not-yet-valid tokens.
   */
  function Authorize(header: Option<string>, verify: string -> Option<string>, users: map<string, SipUser>)
    : (r: Result<AuthUser, HttpError>)
    ensures r == Failure(HttpError(401, AccessTokenRequired)) <==> !Truthy(HeaderToken(header))
    ensures r == Failure(HttpError(401, InvalidToken))
        <==> Truthy(HeaderToken(header)) && verify(HeaderToken(header).value).None?
    ensures r == Failure(HttpError(401, InvalidOrInactiveUser))
        <==> Truthy(HeaderToken(header)) && verify(HeaderToken(header).value).Some?
             && var id := verify(HeaderToken(header).value).value;
                id !in users || !users[id].isActive
    ensures r.Success? <==>
      Truthy(HeaderToken(header)) && verify(HeaderToken(header).value).Some?
      && var id := verify(HeaderToken(header).value).value;
         id in users && users[id].isActive
    ensures r.Success? ==>
      var id := verify(HeaderToken(header).value).value;
      r.value == View(users[id])
  {
    var token := HeaderToken(header);
    if !Truthy(token) then Failure(HttpError(401, AccessTokenRequired))
    else match verify(token.value)
      case None => Failure(HttpError(401, InvalidToken))
      case Some(id) =>
        if id !in users || !users[id].isActive then Failure(HttpError(401, InvalidOrInactiveUser))
        else Success(View(users[id]))
  }

  /** An incoming request; the middleware sets `user`. */
  class Request {
    var user: Option<AuthUser>

    constructor ()
      ensures user == None
    {
      user := None;
    }
  }

  /**
   * `authenticateToken`: on success sets `req.user` and calls `next()`
   * (returned as `None`); otherwise calls `next` with the error and leaves
   * `req.user` as it was.
   */
  method AuthenticateToken(req: Request, header: Option<string>, verify: string -> Option<string>,
                           users: map<string, SipUser>)
    returns (err: Option<HttpError>)
    modifies req
    ensures err.None? <==> Authorize(header, verify, users).Success?
    ensures err.Some? ==> err.value == Authorize(header, verify, users).error && req.user == old(req.user)
    ensures err.None? ==> req.user == Some(Authorize(header, verify, users).value)
  {
    match Authorize(header, verify, users)
    case Failure(e) =>
      err := Some(e);
    case Success(u) =>
      req.user := Some(u);
      err := None;
  }

  /** `requireRole(roles)`: 401 without a user, 403 for a role outside `roles`, otherwise pass. */
  function RequireRole(roles: seq<string>, user: Option<AuthUser>): (r: Option<HttpError>)
    ensures r == Some(HttpError(401, AuthenticationRequired)) <==> user.None?
    ensures r == Some(HttpError(403, InsufficientPermissions)) <==> user.Some? && user.value.role !in roles
    ensures r.None? <==> user.Some? && user.value.role in roles
  {
    if user.None? then Some(HttpError(401, AuthenticationRequired))
    else if user.value.role !in roles then Some(HttpError(403, InsufficientPermissions))
    else None
  }

  /** A user admitted by `authenticateToken` passes `requireRole` exactly when its stored role is listed. */
  lemma AuthenticatedThenRole(header: Option<string>, verify: string -> Option<string>,
                              users: map<string, SipUser>, roles: seq<string>)
    requires Authorize(header, verify, users).Success?
    ensures var id := verify(HeaderToken(header).value).value;
      RequireRole(roles, Some(Authorize(header, verify, users).value)).None? <==> users[id].role in roles
  {
  }
}
