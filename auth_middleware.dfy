/** The two Express guards of backend/src/middleware/authMiddleware.js: `authenticateToken`
    reads a bearer token from the Authorization header and stores the caller on the request;
    `authorizeRole` lets a request through only for listed roles. */
module AuthMiddleware {
  import opened Common
  import opened Http

  // ---- splitting the header ------------------------------------------------------------

  /** The position of the first space, if any. */
  function FirstSpace(s: string): (r: Option<nat>)
    ensures r.Some? ==> r.value < |s| && s[r.value] == ' ' && forall k :: 0 <= k < r.value ==> s[k] != ' '
    ensures r.None? <==> forall k :: 0 <= k < |s| ==> s[k] != ' '
  {
    if s == [] then None
    else if s[0] == ' ' then Some(0)
    else match FirstSpace(s[1..])
         case None => None
         case Some(i) => Some(i + 1)
  }

  /** `s.split(' ')`: the pieces between single spaces; two spaces in a row give an empty
      piece, and a string with no space is one piece. */
  function Split(s: string): (fields: seq<string>)
    ensures |fields| >= 1
    ensures forall i :: 0 <= i < |fields| ==> ' ' !in fields[i]
    decreases |s|
  {
    match FirstSpace(s)
    case None => [s]
    case Some(i) => [s[..i]] + Split(s[i + 1..])
  }

  /** `fields.join(' ')` */
  function Join(fields: seq<string>): string
    requires |fields| >= 1
  {
    if |fields| == 1 then fields[0] else fields[0] + " " + Join(fields[1..])
  }

  /** Splitting loses nothing: joining the pieces gives back the header. */
  lemma {:induction false} JoinSplit(s: string)
    ensures Join(Split(s)) == s
    decreases |s|
  {
    match FirstSpace(s)
    case None =>
    case Some(i) =>
      JoinSplit(s[i + 1..]);
      var rest := Split(s[i + 1..]);
      assert Split(s) == [s[..i]] + rest;
      assert ([s[..i]] + rest)[1..] == rest;
      assert s == s[..i] + " " + s[i + 1..];
  }

  /** A piece without spaces splits into itself; the scheme and the token, each without
      spaces, split into exactly those two pieces. */
  lemma SplitTwoWords(scheme: string, token: string)
    requires ' ' !in scheme && ' ' !in token
    ensures Split(scheme + " " + token) == [scheme, token]
  {
    var h := scheme + " " + token;
    assert h[|scheme|] == ' ';
    assert forall k :: 0 <= k < |scheme| ==> h[k] == scheme[k];
    assert h[..|scheme|] == scheme;
    assert h[|scheme| + 1..] == token;
  }

  /** `authHeader && authHeader.split(' ')[1]`: no header gives no token; an empty header is
      falsy and is itself the token (`"" && …` is `""`); otherwise the second piece, if any. */
  function ExtractToken(header: Option<string>): (token: Option<string>)
    ensures header.None? ==> token.None?
    ensures header == Some("") ==> token == Some("")
    ensures header.Some? && header.value != "" ==>
              (token.Some? <==> ' ' in header.value)
    ensures token.Some? ==> ' ' !in token.value
    ensures header.Some? && header.value != "" && token.Some? ==> token.value == Split(header.value)[1]
  {
    match header
    case None => None
    case Some(h) =>
      if h == "" then Some("")
      else
        var fields := Split(h);
        if |fields| >= 2 then Some(fields[1]) else None
  }

  /** `Bearer <token>` yields the token, whatever the first word is. */
  lemma ExtractBearer(scheme: string, token: string)
    requires ' ' !in scheme && ' ' !in token
    ensures ExtractToken(Some(scheme + " " + token)) == Some(token)
  {
    SplitTwoWords(scheme, token);
  }

  // ---- authenticateToken ---------------------------------------------------------------

  /** The decoded payload of a verified token: `{ id, role }` as the signer wrote them. */
  datatype Payload = Payload(id: Value, role: Value)

  /** `req.user` */
  datatype AuthUser = AuthUser(id: Value, role: Value)

  /** The decision of authenticateToken. `verify` stands for `verifyToken`, which answers the
      decoded payload or nothing. */
  function Authenticate(header: Option<string>, verify: string -> Option<Payload>): (r: Reply<AuthUser>)
    ensures r.Err? ==> r.status in {401, 403}
    ensures r == Err(401, TokenMissing) <==> ExtractToken(header).None?
    ensures r == Err(403, TokenInvalid) <==>
              ExtractToken(header).Some? &&
              (verify(ExtractToken(header).value).None? || !Truthy(verify(ExtractToken(header).value).value.id))
    ensures r.Ok? ==>
              && r.status == 200
              && var p := verify(ExtractToken(header).value);
                 p.Some? && Truthy(p.value.id) && r.body == AuthUser(p.value.id, p.value.role)
  {
    match ExtractToken(header)
    case None => Err(401, TokenMissing)
    case Some(token) =>
      match verify(token)
      case None => Err(403, TokenInvalid)
      case Some(decoded) =>
        if !Truthy(decoded.id) then Err(403, TokenInvalid)
        else Ok(200, AuthUser(decoded.id, decoded.role))
  }

  /** The Express request, as far as the guards see it. */
  class Request {
    var authorization: Option<string>
    var user: Option<AuthUser>

    constructor (authorization: Option<string>)
      ensures this.authorization == authorization && user.None?
    {
      this.authorization := authorization;
      this.user := None;
    }
  }

  /** What a guard does with the request: pass it on, or answer it. */
  datatype Outcome = Next | Respond(status: int, msg: Msg)

  /** authenticateToken: on success writes `req.user` and passes the request on; otherwise
      answers and leaves the request as it was. */
  method AuthenticateToken(req: Request, verify: string -> Option<Payload>) returns (o: Outcome)
    modifies req
    ensures req.authorization == old(req.authorization)
    ensures match Authenticate(old(req.authorization), verify)
            case Ok(_, u) => o == Next && req.user == Some(u)
            case Err(status, msg) => o == Respond(status, msg) && req.user == old(req.user)
  {
    var decision := Authenticate(req.authorization, verify);
    match decision
    case Ok(_, u) =>
      req.user := Some(u);
      o := Next;
    case Err(status, msg) =>
      o := Respond(status, msg);
  }

  /** A token this server signed for a stored user, sent as `Bearer <token>`, lets the
      request through with that user's id and role. */
  lemma SignedTokenAuthenticates(scheme: string, token: string, verify: string -> Option<Payload>,
                                 id: int, role: string)
    requires ' ' !in scheme && ' ' !in token && id != 0
    requires verify(token) == Some(Payload(Num(id), Str(role)))
    ensures Authenticate(Some(scheme + " " + token), verify) == Ok(200, AuthUser(Num(id), Str(role)))
  {
    ExtractBearer(scheme, token);
  }

  // ---- authorizeRole -------------------------------------------------------------------

  /** `allowedRoles.includes(req.user.role)`: only a string role can equal a listed name. */
  predicate RoleAllowed(allowed: seq<string>, role: Value)
  {
    role.Str? && role.s in allowed
  }

  /** The guard `authorizeRole(allowedRoles)`: 403 when there is no user or no role, 403 when
      the role is not listed, and through otherwise. */
  function AuthorizeRole(allowed: seq<string>, user: Option<AuthUser>): (o: Outcome)
    ensures o.Next? <==> user.Some? && Truthy(user.value.role) && RoleAllowed(allowed, user.value.role)
    ensures o.Respond? ==> o.status == 403
    ensures o == Respond(403, RoleMissing) <==> user.None? || !Truthy(user.value.role)
    ensures o == Respond(403, RoleNotAllowed(allowed)) <==>
              user.Some? && Truthy(user.value.role) && !RoleAllowed(allowed, user.value.role)
  {
    if user.None? || !Truthy(user.value.role) then Respond(403, RoleMissing)
    else if !RoleAllowed(allowed, user.value.role) then Respond(403, RoleNotAllowed(allowed))
    else Next
  }
}
