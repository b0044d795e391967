/** The `protect` middleware: it reads a bearer token from the Authorization
    header, verifies it, loads the user, and either lets the request through or
    answers 401. Token verification and the user lookup are outside the model
    and arrive as functions. */
module Auth {
  import opened Optional
  import opened Http
  import Text

  /** The user record as loaded without its password. */
  datatype User = User(id: Id, username: string, email: string)

  /** The outcome of `jwt.verify`: the decoded user id, or a throw with the
      error's `name` ("TokenExpiredError", "JsonWebTokenError", ...). */
  datatype TokenCheck = Decoded(id: Id) | VerifyThrew(name: string)

  /** The outcome of `User.findById`. */
  datatype UserLookup = Found(user: User) | NoSuchUser | LookupThrew(name: string)

  /** Either `next()` with `req.user` set, or a response that ends the request. */
  datatype Decision = CallNext(user: User) | Deny(response: ErrorReply)

  const NoToken := "Not authorized, no token"
  const TokenFailed := "Not authorized, token failed"
  const TokenExpired := "Token expired"
  const UserNotFound := "User not found"

  /** A 401 response with the given message. */
  function Unauthorized(message: string): ErrorReply {
    ErrorReply(401, ErrorBody(false, message, 401, None))
  }

  /** The header is present and starts with "Bearer" (case-sensitive, no space
      required). */
  predicate HasBearer(header: Option<string>) {
    header.Some? && Text.StartsWith(header.value, "Bearer")
  }

  /** `authorization.split(" ")[1]`: the second space-separated field, or
      `undefined`. */
  function Token(header: string): Option<string> {
    Text.Field(Text.Split(header, ' '), 1)
  }

  /** The catch block: a thrown error named "TokenExpiredError" is reported as
      such, every other throw as a failed token. */
  function Caught(name: string): (r: ErrorReply)
    ensures r.status == 401
    ensures r.body.error == (if name == "TokenExpiredError" then TokenExpired else TokenFailed)
  {
    Unauthorized(if name == "TokenExpiredError" then TokenExpired else TokenFailed)
  }

  /** The middleware's decision. `next` is called exactly when the header
      carries a bearer token that verifies and names an existing user; every
      other path answers 401 with one of four messages, each naming its cause. */
  function Protect(header: Option<string>, verify: Option<string> -> TokenCheck,
                   findUser: Id -> UserLookup): (d: Decision)
    ensures d.CallNext? <==>
              && HasBearer(header)
              && verify(Token(header.value)).Decoded?
              && findUser(verify(Token(header.value)).id).Found?
    ensures d.CallNext? ==> d.user == findUser(verify(Token(header.value)).id).user
    ensures d.Deny? ==> d.response.status == 401 && d.response.body.statusCode == 401 && !d.response.body.success
    ensures d.Deny? ==> d.response.body.error in {NoToken, TokenFailed, TokenExpired, UserNotFound}
    ensures !HasBearer(header) ==> d == Deny(Unauthorized(NoToken))
    // The expired-token case spelled out; it follows from the next clause and `Caught`.
    ensures (HasBearer(header) && verify(Token(header.value)) == VerifyThrew("TokenExpiredError"))
              ==> d == Deny(Unauthorized(TokenExpired))
    ensures (HasBearer(header) && verify(Token(header.value)).VerifyThrew?)
              ==> d == Deny(Caught(verify(Token(header.value)).name))
    ensures (HasBearer(header) && verify(Token(header.value)).Decoded?
              && findUser(verify(Token(header.value)).id) == NoSuchUser)
              ==> d == Deny(Unauthorized(UserNotFound))
    ensures (HasBearer(header) && verify(Token(header.value)).Decoded?
              && findUser(verify(Token(header.value)).id).LookupThrew?)
              ==> d == Deny(Caught(findUser(verify(Token(header.value)).id).name))
  {
    if !HasBearer(header) then Deny(Unauthorized(NoToken))
    else
      match verify(Token(header.value))
      case VerifyThrew(name) => Deny(Caught(name))
      case Decoded(id) =>
        match findUser(id)
        case Found(u) => CallNext(u)
        case NoSuchUser => Deny(Unauthorized(UserNotFound))
        case LookupThrew(name) => Deny(Caught(name))
  }

  /** The header a client builds, "Bearer " followed by a token without
      spaces, passes the prefix test and yields exactly that token. */
  lemma BearerHeaderYieldsToken(t: string)
    requires ' ' !in t
    ensures HasBearer(Some("Bearer " + t))
    ensures Token("Bearer " + t) == Some(t)
  {
    var h := "Bearer " + t;
    assert h[..6] == "Bearer";
    assert Text.Join(["Bearer", t], [' ']) == h by {
      Text.JoinCons("Bearer", [t], [' ']);
    }
    assert ' ' !in "Bearer";
    Text.SplitJoin(["Bearer", t], ' ');
  }

  /** A header that starts with "Bearer" but has no space carries no token
      field, so verification receives `undefined`. */
  lemma BearerWithoutSpaceHasNoToken(h: string)
    requires Text.StartsWith(h, "Bearer") && ' ' !in h
    ensures HasBearer(Some(h))
    ensures Token(h) == None
  {
    Text.SplitWithoutSeparator(h, ' ');
  }
}
