/**
 * The Express middleware guarding the backend: bearer-token extraction,
 * session validation through the Descope client, the optional variant
 * that never blocks, and the admin-role gate.
 */
module DescopeAuth {
  import opened Wrappers
  import opened Strings
  import opened AgentTypes

  /** What `descopeClient.validateSession` resolves to: the subject and the `roles` claim, if any. */
  datatype AuthInfo = AuthInfo(sub: string, roles: Option<seq<string>>)

  /** `validateSession`: the session's claims, or `Failure` with the error's message when it rejects. */
  type Validator = string -> Result<AuthInfo, string>

  /** What a middleware does with the request: pass it on (`next()`) or answer it. */
  datatype Verdict = Next | Respond(status: int, body: Record)

  const BearerPrefix := "Bearer "

  const MissingHeader := "Missing or invalid Authorization header"
  const ServiceUnavailable := "Authentication service not available"
  const InvalidSession := "Invalid or expired session"
  const AuthenticationRequired := "Authentication required"
  const AdminRequired := "Admin access required"

  /** The request as the middleware sees it: the Authorization header and the two fields it sets. */
  class Request {
    const authorization: Option<string>
    var user: Option<AuthInfo>
    var sessionToken: Option<string>

    constructor(authorization: Option<string>)
      ensures this.authorization == authorization && user == None && sessionToken == None
    {
      this.authorization := authorization;
      user := None;
      sessionToken := None;
    }
  }

  /** A JSON body `{ success: false, message }`. */
  function Refusal(status: int, message: string): (v: Verdict)
    ensures v.Respond? && v.status == status
    ensures v.body == map["success" := Bool(false), "message" := Str(message)]
  {
    Respond(status, map["success" := Bool(false), "message" := Str(message)])
  }

  /** The session token of an Authorization header: what follows the exact prefix "Bearer ". */
  function BearerToken(header: Option<string>): (r: Option<string>)
    ensures r.Some? <==> header.Some? && StartsWith(header.value, BearerPrefix)
    ensures r.Some? ==> header.value == BearerPrefix + r.value
  {
    if header.Some? && StartsWith(header.value, BearerPrefix) then Some(header.value[|BearerPrefix|..]) else None
  }

  /** Prefixing a token with "Bearer " and extracting it again gives the token back. */
  lemma BearerTokenRoundTrip(token: string)
    ensures BearerToken(Some(BearerPrefix + token)) == Some(token)
  {
    assert (BearerPrefix + token)[..|BearerPrefix|] == BearerPrefix;
    assert (BearerPrefix + token)[|BearerPrefix|..] == token;
  }

  /** The claims and token of a request that validates, if it does; `client` is `None` when the SDK failed to initialise. */
  function Authenticated(header: Option<string>, client: Option<Validator>): (r: Option<(AuthInfo, string)>)
    ensures r.Some? <==>
      BearerToken(header).Some? && client.Some? && client.value(BearerToken(header).value).Success?
    ensures r.Some? ==> r.value == (client.value(BearerToken(header).value).value, BearerToken(header).value)
  {
    match BearerToken(header)
    case None => None
    case Some(token) =>
      if client.None? then None
      else
        match client.value(token)
        case Failure(_) => None
        case Success(info) => Some((info, token))
  }

  /**
   * The answer of `validateDescopeSession`: 401 for a missing or malformed
   * header, 500 without a client, 401 when validation rejects (with the
   * error's message only in development), otherwise `next()`.
   */
  function SessionVerdict(header: Option<string>, client: Option<Validator>, development: bool): (v: Verdict)
    ensures v.Next? <==> Authenticated(header, client).Some?
    ensures BearerToken(header).None? ==> v == Refusal(401, MissingHeader)
    ensures v.Respond? && v.status == 500 <==> BearerToken(header).Some? && client.None?
    ensures v.Respond? ==> v.status == 401 || v.status == 500
    ensures v.Respond? && v.status == 401 && BearerToken(header).Some? ==>
      "message" in v.body && v.body["message"] == Str(InvalidSession) && ("error" in v.body <==> development)
  {
    match BearerToken(header)
    case None => Refusal(401, MissingHeader)
    case Some(token) =>
      if client.None? then Refusal(500, ServiceUnavailable)
      else
        match client.value(token)
        case Success(_) => Next
        case Failure(message) =>
          var refusal := Refusal(401, InvalidSession);
          if development then Respond(401, refusal.body["error" := Str(message)]) else refusal
  }

  /** `validateDescopeSession`: on success `req.user` and `req.sessionToken` are set; otherwise the request is untouched. */
  method ValidateDescopeSession(req: Request, client: Option<Validator>, development: bool) returns (v: Verdict)
    modifies req
    ensures v == SessionVerdict(req.authorization, client, development)
    ensures v.Next? ==>
      req.user.Some? && req.sessionToken.Some? &&
      Authenticated(req.authorization, client) == Some((req.user.value, req.sessionToken.value))
    ensures v.Respond? ==> req.user == old(req.user) && req.sessionToken == old(req.sessionToken)
  {
    var token := BearerToken(req.authorization);
    if token.None? {
      return Refusal(401, MissingHeader);
    }
    if client.None? {
      return Refusal(500, ServiceUnavailable);
    }
    var info := client.value(token.value);
    if info.Failure? {
      var refusal := Refusal(401, InvalidSession);
      if development {
        return Respond(401, refusal.body["error" := Str(info.error)]);
      }
      return refusal;
    }
    req.user := Some(info.value);
    req.sessionToken := Some(token.value);
    v := Next;
  }

  /**
   * `optionalDescopeSession`: always `next()`. `req.user` becomes the
   * claims when the session validates and null in every other case; the
   * token is recorded only on success.
   */
  method OptionalDescopeSession(req: Request, client: Option<Validator>) returns (v: Verdict)
    modifies req
    ensures v == Next
    ensures Authenticated(req.authorization, client).None? ==> req.user == None && req.sessionToken == old(req.sessionToken)
    ensures Authenticated(req.authorization, client).Some? ==>
      req.user == Some(Authenticated(req.authorization, client).value.0) &&
      req.sessionToken == Some(Authenticated(req.authorization, client).value.1)
  {
    v := Next;
    var token := BearerToken(req.authorization);
    if token.None? || client.None? {
      req.user := None;
      return;
    }
    var info := client.value(token.value);
    if info.Failure? {
      req.user := None;
      return;
    }
    req.user := Some(info.value);
    req.sessionToken := Some(token.value);
  }

  /** The roles claim, an empty list when it is missing. */
  function Roles(info: AuthInfo): seq<string> {
    if info.roles.Some? then info.roles.value else []
  }

  /** `requireAdmin`: 401 without a user, 403 unless a role is exactly "admin" or "Admin", otherwise `next()`. */
  function RequireAdmin(user: Option<AuthInfo>): (v: Verdict)
    ensures user.None? <==> v == Refusal(401, AuthenticationRequired)
    ensures v.Next? <==> user.Some? && ("admin" in Roles(user.value) || "Admin" in Roles(user.value))
    ensures v.Respond? && v.status == 403 <==>
      user.Some? && "admin" !in Roles(user.value) && "Admin" !in Roles(user.value)
    ensures v == Next || v == Refusal(401, AuthenticationRequired) || v == Refusal(403, AdminRequired)
  {
    if user.None? then Refusal(401, AuthenticationRequired)
    else
      var roles := Roles(user.value);
      if "admin" in roles || "Admin" in roles then Next else Refusal(403, AdminRequired)
  }

  /** After `validateDescopeSession` lets a request through, `requireAdmin` never answers 401: only the role decides. */
  lemma ValidatedRequestsReachRoleCheck(header: Option<string>, client: Option<Validator>, development: bool)
    requires SessionVerdict(header, client, development).Next?
    ensures var user := Some(Authenticated(header, client).value.0);
      RequireAdmin(user).Next? <==> "admin" in Roles(user.value) || "Admin" in Roles(user.value)
    ensures RequireAdmin(Some(Authenticated(header, client).value.0)) != Refusal(401, AuthenticationRequired)
  {
  }

  /** A session without a roles claim is never an admin. */
  lemma MissingRolesAreNotAdmin(sub: string)
    ensures RequireAdmin(Some(AuthInfo(sub, None))) == Refusal(403, AdminRequired)
  {
  }
}
