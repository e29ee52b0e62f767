/**
 * The signaling server's connection-time authentication
 * (services/signaling/src/middleware/auth.ts): pick the presented token,
 * verify it, and on success attach the claims to the socket.
 */
module SocketAuth {
  import opened Wrappers
  import opened Strings

  /** The claims a verified token carries. */
  datatype Claims = Claims(userId: string, email: string)

  /** What the handshake presents: `auth.token` and the `Authorization` header. */
  datatype Handshake = Handshake(authToken: Option<string>, authorization: Option<string>)

  const BearerPrefix: string := "Bearer "
  const TokenRequired: string := "Authentication token required"
  const InvalidToken: string := "Invalid authentication token"

  /**
   * A connection: its transport-assigned id and the `data` fields the
   * middleware fills in.
   */
  class Socket {
    const id: string
    var userId: Option<string>
    var email: Option<string>

    constructor (id: string)
      ensures this.id == id && userId == None && email == None
    {
      this.id := id;
      userId := None;
      email := None;
    }

    predicate Authenticated()
      reads this
    {
      userId.Some?
    }
  }

  /**
   * `handshake.auth.token || authorization?.replace('Bearer ', '')`: a truthy
   * `auth.token` wins; otherwise the header with its first "Bearer "
   * removed, wherever that occurrence is.
   */
  function SelectToken(hs: Handshake): Option<string> {
    if Truthy(hs.authToken) then hs.authToken
    else match hs.authorization
      case None => None
      case Some(h) => Some(RemoveFirst(h, BearerPrefix))
  }

  /** A token given in `auth.token` is used as it is, whatever the header says. */
  lemma AuthTokenPreferred(token: string, header: Option<string>)
    requires token != ""
    ensures SelectToken(Handshake(Some(token), header)) == Some(token)
  {
  }

  /** Section 2.1 of RFC 6750: `Authorization: Bearer <token>` presents `<token>`. */
  lemma BearerHeaderPresentsToken(authToken: Option<string>, token: string)
    requires !Truthy(authToken)
    ensures SelectToken(Handshake(authToken, Some(BearerPrefix + token))) == Some(token)
  {
    RemoveFirstOfPrefix(BearerPrefix, token);
  }

  /**
   * The decision of the middleware: the claims of a verified token, or the
   * error message passed to `next`. `verify` stands for `jwt.verify` with
   * the server's secret; `None` is any error it throws.
   */
  function Authenticate(hs: Handshake, verify: string -> Option<Claims>): (r: Result<Claims, string>)
    ensures r == Failure(TokenRequired) <==> !Truthy(SelectToken(hs))
    ensures r == Failure(InvalidToken)
        <==> Truthy(SelectToken(hs)) && verify(SelectToken(hs).value).None?
    ensures r.Success? <==> Truthy(SelectToken(hs)) && verify(SelectToken(hs).value).Some?
    ensures r.Success? ==> r.value == verify(SelectToken(hs).value).value
  {
    var token := SelectToken(hs);
    if !Truthy(token) then Failure(TokenRequired)
    else match verify(token.value)
      case None => Failure(InvalidToken)
      case Some(claims) => Success(claims)
  }

  /**
   * `authenticateSocket`: calls `next` with an error (returned here) and
   * leaves `socket.data` alone, or attaches `userId` and `email` and calls
   * `next()` (returned here as `None`).
   */
  method AuthenticateSocket(socket: Socket, hs: Handshake, verify: string -> Option<Claims>)
    returns (err: Option<string>)
    modifies socket
    ensures Authenticate(hs, verify).Failure? ==> err == Some(Authenticate(hs, verify).error)
    ensures err.Some? ==> socket.userId == old(socket.userId) && socket.email == old(socket.email)
    ensures err.None? <==> Authenticate(hs, verify).Success?
    ensures err.None? ==>
      var claims := Authenticate(hs, verify).value;
      socket.userId == Some(claims.userId) && socket.email == Some(claims.email)
  {
    match Authenticate(hs, verify)
    case Failure(message) =>
      err := Some(message);
    case Success(claims) =>
      socket.userId := Some(claims.userId);
      socket.email := Some(claims.email);
      err := None;
  }
}
