/** The session middleware `auth` and the role gate `requireRole`.
    `jwt.verify` is a parameter (`verify`), the current time `Date.now()` is
    `nowMs`, and an exception thrown by the user lookup is `storeFault`. */
module Middleware {
  import opened Base
  import opened Text
  import opened Users

  /** The claims `jwt.verify` decodes from a token. */
  datatype Payload = Payload(userId: Id, exp: Option<int>)

  /** `jwt.verify(token, secret)`: the decoded payload, or the `name` of the
      error it throws. */
  datatype VerifyResult = Verified(payload: Payload) | VerifyError(name: string)

  /** Where a token may be carried: the `Authorization` header, the `token`
      cookie and the `token` query parameter. */
  datatype TokenSources = TokenSources(authorization: Option<string>, cookie: Option<string>, query: Option<string>)

  /** A middleware's decision: call `next()`, or respond and stop. */
  datatype Gate = Pass | Deny(status: nat, message: string)

  /** The outcome of `auth`: the request is admitted with a user (password
      excluded) and the raw token, or rejected with a response. */
  datatype AuthResult = Admitted(user: PublicUser, token: string) | Rejected(status: nat, message: string)

  const NoToken: string := "Access denied. No token provided."
  const InvalidToken: string := "Invalid token"
  const TokenExpired: string := "Token has expired"
  const UnknownSession: string := "User not found or token invalidated"
  const AuthInternalError: string := "Internal server error during authentication"
  const AuthenticationRequired: string := "Authentication required"
  const InsufficientPermissions: string := "Access denied. Insufficient permissions."

  /** An Express request: its token sources are fixed, `user` and `token`
      are set by `auth`. */
  class Request {
    const authorization: Option<string>
    const cookieToken: Option<string>
    const queryToken: Option<string>
    var user: Option<PublicUser>
    var token: Option<string>

    constructor (authorization: Option<string>, cookieToken: Option<string>, queryToken: Option<string>)
      ensures this.authorization == authorization
      ensures this.cookieToken == cookieToken
      ensures this.queryToken == queryToken
      ensures user == None && token == None
    {
      this.authorization := authorization;
      this.cookieToken := cookieToken;
      this.queryToken := queryToken;
      user := None;
      token := None;
    }

    function Sources(): TokenSources {
      TokenSources(authorization, cookieToken, queryToken)
    }
  }

  /** `req.header('Authorization')?.replace('Bearer ', '')`. */
  function HeaderToken(authorization: Option<string>): Option<string> {
    match authorization
    case None => None
    case Some(h) => Some(ReplaceFirst(h, "Bearer ", ""))
  }

  lemma BearerPrefixStripped(t: string)
    ensures HeaderToken(Some("Bearer " + t)) == Some(t)
  {
    ReplaceFirstAtStart("Bearer ", t);
  }

  /** A header without `Bearer ` anywhere in it is taken whole as the token. */
  lemma HeaderWithoutBearerKept(h: string)
    requires forall j: nat :: !OccursAt(h, "Bearer ", j)
    ensures HeaderToken(Some(h)) == Some(h)
  {
    ReplaceFirstAbsent(h, "Bearer ");
  }

  /** `header || cookie || query`: the first truthy source wins; `None` when
      every source is missing or empty. */
  function ExtractToken(src: TokenSources): (t: Option<string>)
    ensures t.Some? ==> t.value != ""
    ensures Truthy(HeaderToken(src.authorization)) ==> t == HeaderToken(src.authorization)
    ensures !Truthy(HeaderToken(src.authorization)) && Truthy(src.cookie) ==> t == src.cookie
    ensures !Truthy(HeaderToken(src.authorization)) && !Truthy(src.cookie) ==>
              t == (if Truthy(src.query) then src.query else None)
  {
    var h := HeaderToken(src.authorization);
    if Truthy(h) then h
    else if Truthy(src.cookie) then src.cookie
    else if Truthy(src.query) then src.query
    else None
  }

  /** `decoded.exp < Date.now() / 1000` with `exp` in seconds and the clock
      in milliseconds; an absent `exp` compares false. */
  predicate Expired(exp: Option<int>, nowMs: int) {
    exp.Some? && exp.value * 1000 < nowMs
  }

  /** `User.findOne({ _id: userId, 'tokens.token': token })`. */
  function SessionUser(users: seq<User>, userId: Id, token: string): (r: Option<User>)
    ensures r.Some? ==> r.value in users && r.value.id == userId && token in r.value.tokens
    ensures r.None? <==> forall i :: 0 <= i < |users| ==> !(users[i].id == userId && token in users[i].tokens)
  {
    FindFirst(users, (u: User) => u.id == userId && token in u.tokens)
  }

  /** What `auth` decides for a request, in the order the code checks. */
  function AuthOutcome(src: TokenSources, verify: string -> VerifyResult, nowMs: int,
                       users: seq<User>, storeFault: bool): (r: AuthResult)
    ensures ExtractToken(src).None? ==> r == Rejected(401, NoToken)
    ensures ExtractToken(src).Some? && verify(ExtractToken(src).value).VerifyError? ==>
              r == if verify(ExtractToken(src).value).name == "JsonWebTokenError"
                   then Rejected(401, InvalidToken) else Rejected(500, AuthInternalError)
    ensures ExtractToken(src).Some? && verify(ExtractToken(src).value).Verified?
            && !Expired(verify(ExtractToken(src).value).payload.exp, nowMs) ==>
              && (storeFault ==> r == Rejected(500, AuthInternalError))
              && (!storeFault && !r.Admitted? ==> r == Rejected(401, UnknownSession))
    ensures r == Rejected(401, TokenExpired) <==>
              && ExtractToken(src).Some?
              && verify(ExtractToken(src).value).Verified?
              && Expired(verify(ExtractToken(src).value).payload.exp, nowMs)
    ensures r.Admitted? <==>
              && ExtractToken(src).Some?
              && verify(ExtractToken(src).value).Verified?
              && !Expired(verify(ExtractToken(src).value).payload.exp, nowMs)
              && !storeFault
              && exists i :: 0 <= i < |users| && users[i].id == verify(ExtractToken(src).value).payload.userId
                                              && ExtractToken(src).value in users[i].tokens
    ensures r.Admitted? ==>
              && r.token == ExtractToken(src).value
              && exists u :: u in users && r.user == Public(u)
                             && u.id == verify(r.token).payload.userId && r.token in u.tokens
  {
    match ExtractToken(src)
    case None => Rejected(401, NoToken)
    case Some(t) =>
      match verify(t)
      case VerifyError(name) =>
        if name == "JsonWebTokenError" then Rejected(401, InvalidToken) else Rejected(500, AuthInternalError)
      case Verified(decoded) =>
        if Expired(decoded.exp, nowMs) then Rejected(401, TokenExpired)
        else if storeFault then Rejected(500, AuthInternalError)
        else match SessionUser(users, decoded.userId, t)
          case None => Rejected(401, UnknownSession)
          case Some(u) => Admitted(Public(u), t)
  }

  /** A payload without `exp` is never rejected as expired, whatever the
      clock says. */
  lemma NoExpiryNeverExpires(src: TokenSources, verify: string -> VerifyResult, nowMs: int,
                             users: seq<User>, storeFault: bool)
    requires ExtractToken(src).Some?
    requires verify(ExtractToken(src).value).Verified?
    requires verify(ExtractToken(src).value).payload.exp.None?
    ensures AuthOutcome(src, verify, nowMs, users, storeFault) != Rejected(401, TokenExpired)
  {
  }

  /** `auth` as the early-return chain the handler runs: on success it sets
      `req.user` and `req.token` and passes; otherwise the request object is
      left as it was. */
  method Auth(req: Request, verify: string -> VerifyResult, nowMs: int, users: seq<User>, storeFault: bool)
    returns (g: Gate)
    modifies req
    ensures match AuthOutcome(req.Sources(), verify, nowMs, users, storeFault)
      case Admitted(u, t) => g == Pass && req.user == Some(u) && req.token == Some(t)
      case Rejected(s, m) => g == Deny(s, m) && req.user == old(req.user) && req.token == old(req.token)
  {
    var token := ExtractToken(req.Sources());
    if token.None? {
      return Deny(401, NoToken);
    }
    var t := token.value;
    var verified := verify(t);
    if verified.VerifyError? {
      if verified.name == "JsonWebTokenError" {
        return Deny(401, InvalidToken);
      }
      return Deny(500, AuthInternalError);
    }
    var decoded := verified.payload;
    if Expired(decoded.exp, nowMs) {
      return Deny(401, TokenExpired);
    }
    if storeFault {
      return Deny(500, AuthInternalError);
    }
    var user := SessionUser(users, decoded.userId, t);
    if user.None? {
      return Deny(401, UnknownSession);
    }
    req.user := Some(Public(user.value));
    req.token := Some(t);
    g := Pass;
  }

  /** `requireRole(roles)`: 401 without a user, 403 for a role outside the
      list, otherwise `next()`. It reads the request and changes nothing. */
  function RequireRole(roles: seq<Role>, user: Option<PublicUser>): (g: Gate)
    ensures g == Pass <==> user.Some? && user.value.role in roles
    ensures user.None? ==> g == Deny(401, AuthenticationRequired)
    ensures user.Some? && user.value.role !in roles ==> g == Deny(403, InsufficientPermissions)
  {
    if user.None? then Deny(401, AuthenticationRequired)
    else if user.value.role !in roles then Deny(403, InsufficientPermissions)
    else Pass
  }

  /** The decision of `auth` followed by `requireRole(roles)`, as every
      protected route mounts them. */
  function Gatekeep(src: TokenSources, verify: string -> VerifyResult, nowMs: int,
                    users: seq<User>, storeFault: bool, roles: seq<Role>): (g: Gate)
    ensures g == Pass <==>
      AuthOutcome(src, verify, nowMs, users, storeFault).Admitted? &&
      AuthOutcome(src, verify, nowMs, users, storeFault).user.role in roles
    ensures AuthOutcome(src, verify, nowMs, users, storeFault).Rejected? ==>
      g == Deny(AuthOutcome(src, verify, nowMs, users, storeFault).status,
                AuthOutcome(src, verify, nowMs, users, storeFault).message)
    ensures AuthOutcome(src, verify, nowMs, users, storeFault).Admitted? && g != Pass ==>
      g == Deny(403, InsufficientPermissions)
  {
    match AuthOutcome(src, verify, nowMs, users, storeFault)
    case Rejected(s, m) => Deny(s, m)
    case Admitted(u, _) => RequireRole(roles, Some(u))
  }

  /** `auth` then `requireRole(roles)` on a request. */
  method Guard(req: Request, roles: seq<Role>, verify: string -> VerifyResult, nowMs: int,
               users: seq<User>, storeFault: bool)
    returns (g: Gate)
    modifies req
    ensures g == Gatekeep(req.Sources(), verify, nowMs, users, storeFault, roles)
    ensures AuthOutcome(req.Sources(), verify, nowMs, users, storeFault).Admitted? ==>
              && req.user == Some(AuthOutcome(req.Sources(), verify, nowMs, users, storeFault).user)
              && req.token == Some(AuthOutcome(req.Sources(), verify, nowMs, users, storeFault).token)
    ensures AuthOutcome(req.Sources(), verify, nowMs, users, storeFault).Rejected? ==>
              req.user == old(req.user) && req.token == old(req.token)
  {
    g := Auth(req, verify, nowMs, users, storeFault);
    if g == Pass {
      g := RequireRole(roles, req.user);
    }
  }
}
