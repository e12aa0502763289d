/** The request guards of middleware/authMiddleware.js: bearer-token authentication, its optional
    variant, and the role check. Token verification and the user lookup belong to other
    services and are parameters here. */
module AuthMiddleware {
  import opened Common

  /** A user as the lookup returns it (without its password). */
  datatype User = User(oid: string, role: string)

  /** What `verifyToken` reports: the decoded user id, or a failure with its message. */
  datatype Verification = Verified(userId: string) | NotVerified(message: string)

  /** What `User.findById` does: finds the user, finds nothing, or throws. */
  datatype UserLookup = Found(user: User) | NotFound | LookupThrew(message: string)

  /** A 401 or 403 response body. */
  datatype Reply = Reply(status: int, message: string, error: Option<string>)

  /** A guard's decision: let the request through with this user, or answer it. */
  datatype Gate = Pass(user: User) | Refuse(reply: Reply)

  const NoHeaderMessage := "No token provided. Authorization header required."
  const NoTokenMessage := "No token provided"
  const InvalidTokenMessage := "Invalid or expired token"
  const UserNotFoundMessage := "User not found"
  const AuthFailedMessage := "Authentication failed"
  const AuthRequiredMessage := "Authentication required"
  const AccessDeniedMessage := "Access denied. Insufficient permissions."

  const BearerPrefix := "Bearer "

  /** The token of an Authorization header: what follows "Bearer ", or the whole header. */
  function Token(header: string): (t: string)
    ensures BearerPrefix <= header ==> header == BearerPrefix + t
    ensures !(BearerPrefix <= header) ==> t == header
    ensures |t| <= |header|
  {
    if BearerPrefix <= header then header[|BearerPrefix|..] else header
  }

  /** A bearer header carries exactly the token it was built from. */
  lemma BearerRoundTrip(t: string)
    ensures Token(BearerPrefix + t) == t
  {
    assert BearerPrefix <= BearerPrefix + t;
  }

  /** A non-empty header yields an empty token only when it is exactly "Bearer ". */
  lemma EmptyTokenOnlyForBareBearer(header: string)
    requires header != []
    ensures Token(header) == [] <==> header == BearerPrefix
  {
    if header == BearerPrefix {
      assert header == BearerPrefix + [];
    }
  }

  /** `authenticate`'s decision. A missing or empty header, an empty token, a failed
      verification and a missing user are all refused with 401, as is a lookup that throws. */
  function Authenticate(header: Option<string>, verify: string -> Verification, findUser: string -> UserLookup)
    : (g: Gate)
    ensures header.None? || header.value == [] ==> g == Refuse(Reply(401, NoHeaderMessage, None))
    ensures header.Some? && header.value != [] && Token(header.value) == [] ==> g == Refuse(Reply(401, NoTokenMessage, None))
    ensures g.Refuse? ==> g.reply.status == 401 && g.reply.message != []
    ensures g.Pass? <==> header.Some? && Token(header.value) != [] && verify(Token(header.value)).Verified?
                         && findUser(verify(Token(header.value)).userId).Found?
    ensures g.Pass? ==> g.user == findUser(verify(Token(header.value)).userId).user
  {
    if header.None? || header.value == [] then Refuse(Reply(401, NoHeaderMessage, None))
    else
      var token := Token(header.value);
      if token == [] then Refuse(Reply(401, NoTokenMessage, None))
      else
        match verify(token)
        case NotVerified(message) => Refuse(Reply(401, OrString(message, InvalidTokenMessage), None))
        case Verified(userId) =>
          match findUser(userId)
          case Found(user) => Pass(user)
          case NotFound => Refuse(Reply(401, UserNotFoundMessage, None))
          case LookupThrew(message) => Refuse(Reply(401, AuthFailedMessage, Some(message)))
  }

  /** A failed verification is answered with its own message, or the default when it has none. */
  lemma VerificationMessageKept(header: string, verify: string -> Verification, findUser: string -> UserLookup)
    requires header != [] && Token(header) != [] && verify(Token(header)).NotVerified?
    ensures Authenticate(Some(header), verify, findUser).reply.message
            == (if verify(Token(header)).message == [] then InvalidTokenMessage else verify(Token(header)).message)
  {
  }

  /** `optionalAuthenticate`'s user: the one `authenticate` would let through, and nobody when
      it would refuse (a thrown lookup is swallowed). */
  function OptionalUser(header: Option<string>, verify: string -> Verification, findUser: string -> UserLookup)
    : (u: Option<User>)
    ensures u.Some? <==> header.Some? && header.value != [] && Token(header.value) != []
                         && verify(Token(header.value)).Verified? && findUser(verify(Token(header.value)).userId).Found?
  {
    if header.Some? && header.value != [] then
      var token := Token(header.value);
      if token != [] && verify(token).Verified? then
        match findUser(verify(token).userId)
        case Found(user) => Some(user)
        case _ => None
      else None
    else None
  }

  /** The optional guard attaches a user exactly when the strict one would let the request through,
      and then the same user. */
  lemma OptionalAgreesWithStrict(header: Option<string>, verify: string -> Verification, findUser: string -> UserLookup)
    ensures var g := Authenticate(header, verify, findUser);
            OptionalUser(header, verify, findUser) == (if g.Pass? then Some(g.user) else None)
  {
  }

  /** The check of `authorize(...roles)` on the request's user. */
  function Authorize(user: Option<User>, roles: seq<string>): (g: Gate)
    ensures user.None? ==> g == Refuse(Reply(401, AuthRequiredMessage, None))
    ensures user.Some? && user.value.role !in roles ==> g == Refuse(Reply(403, AccessDeniedMessage, None))
    ensures g.Pass? <==> user.Some? && user.value.role in roles
    ensures g.Pass? ==> g.user == user.value
  {
    if user.None? then Refuse(Reply(401, AuthRequiredMessage, None))
    else if user.value.role !in roles then Refuse(Reply(403, AccessDeniedMessage, None))
    else Pass(user.value)
  }

  /** Allowing more roles never turns a pass into a refusal. */
  lemma AuthorizeMonotone(user: Option<User>, roles: seq<string>, more: seq<string>)
    requires Authorize(user, roles).Pass?
    ensures Authorize(user, roles + more).Pass?
  {
  }

  /** A request as the guards see and change it: the Authorization header, the attached user
      and user id, the response sent (if any), and how often `next` was called. */
  class Exchange {
    const authorization: Option<string>
    var user: Option<User>
    var userId: Option<string>
    var response: Option<Reply>
    var nextCalls: nat

    constructor (authorization: Option<string>)
      ensures this.authorization == authorization && user.None? && userId.None? && response.None? && nextCalls == 0
    {
      this.authorization := authorization;
      user, userId, response, nextCalls := None, None, None, 0;
    }

    /** `authenticate`: on a pass the user and its id are attached and `next` is called once;
        otherwise the refusal is sent and `next` is not called. */
    method RunAuthenticate(verify: string -> Verification, findUser: string -> UserLookup)
      modifies this
      ensures var g := Authenticate(authorization, verify, findUser);
              if g.Pass?
              then user == Some(g.user) && userId == Some(g.user.oid) && nextCalls == old(nextCalls) + 1
                   && response == old(response)
              else response == Some(g.reply) && nextCalls == old(nextCalls) && user == old(user) && userId == old(userId)
    {
      var g := Authenticate(authorization, verify, findUser);
      if g.Pass? {
        user := Some(g.user);
        userId := Some(g.user.oid);
        nextCalls := nextCalls + 1;
      } else {
        response := Some(g.reply);
      }
    }

    /** `optionalAuthenticate`: `next` is always called once; the user is attached only when
        one was found. */
    method RunOptionalAuthenticate(verify: string -> Verification, findUser: string -> UserLookup)
      modifies this
      ensures var u := OptionalUser(authorization, verify, findUser);
              (u.Some? ==> user == u && userId == Some(u.value.oid))
              && (u.None? ==> user == old(user) && userId == old(userId))
      ensures nextCalls == old(nextCalls) + 1 && response == old(response)
    {
      var u := OptionalUser(authorization, verify, findUser);
      if u.Some? {
        user := u;
        userId := Some(u.value.oid);
      }
      nextCalls := nextCalls + 1;
    }

    /** The function returned by `authorize(...roles)`, run on this request. */
    method RunAuthorize(roles: seq<string>)
      modifies this
      ensures user == old(user) && userId == old(userId)
      ensures var g := Authorize(old(user), roles);
              if g.Pass? then nextCalls == old(nextCalls) + 1 && response == old(response)
              else response == Some(g.reply) && nextCalls == old(nextCalls)
    {
      var g := Authorize(user, roles);
      if g.Pass? {
        nextCalls := nextCalls + 1;
      } else {
        response := Some(g.reply);
      }
    }
  }
}
