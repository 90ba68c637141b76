/** middlewares/verifyToken.js and middlewares/validateObjectID.js: the middlewares that either
    pass the request on (`next()`) or answer it themselves. */
module Guards {
  import opened Base
  import opened Text
  import opened Externals
  import opened Http

  const AccessDenied: string := "Access denied"
  const Unauthorized: string := "Unauthorized"
  const AdminsOnly: string := "Forbidden, and your IP address has been sent to the administrator. "
  const OwnerOnly: string := "Forbidden: You do not have permission to access this resource."
  const InvalidId: string := "Invalid ID"

  /** JavaScript truthiness of an optional string: present and non-empty. */
  predicate Truthy(v: Option<string>) {
    v.Some? && v.value != ""
  }

  /** `header.split(' ')[1]`: the piece after the first space, up to the next one; undefined
      when the header has no space. */
  function Credential(header: string): (r: Option<string>)
    ensures r.Some? <==> ' ' in header
    ensures r.Some? ==> ' ' !in r.value
  {
    var parts := Split(header, ' ');
    if |parts| >= 2 then Some(parts[1]) else None
  }

  /** The credential is whatever follows the first word; the word itself is never looked at. */
  lemma CredentialFollowsScheme(scheme: string, rest: string)
    requires ' ' !in scheme
    ensures Credential(scheme + " " + rest) == Some(Split(rest, ' ')[0])
  {
    SplitAfterWord(scheme, ' ', rest);
  }

  /** A space-free string is its own only piece. */
  lemma SplitOfWord(s: string)
    requires ' ' !in s
    ensures Split(s, ' ') == [s]
  {
    JoinSplit(s, ' ');
  }

  /** `verifyToken`. */
  function VerifyToken(env: Env, req: Request): (r: Step)
    ensures r.Next? <==> && Truthy(req.authorization)
                         && Credential(req.authorization.value).Some?
                         && env.verify(Credential(req.authorization.value).value).Some?
    ensures r.Next? ==> r.req == req.(user := env.verify(Credential(req.authorization.value).value))
    ensures r.Respond? ==> r.response.status == 401
    ensures r.Respond? ==>
      r.response.payload == Message(if Truthy(req.authorization) then Unauthorized else AccessDenied)
  {
    if !Truthy(req.authorization) then Respond(Response(401, Message(AccessDenied)))
    else
      match Credential(req.authorization.value)
      case None => Respond(Response(401, Message(Unauthorized)))
      case Some(token) =>
        match env.verify(token)
        case None => Respond(Response(401, Message(Unauthorized)))
        case Some(claims) => Next(req.(user := Some(claims)))
  }

  /** A header `<word> <token>` carrying an issued token authenticates as exactly the signed
      claims, whatever the word is ("Bearer" or not). */
  lemma VerifyTokenAcceptsIssuedToken(env: Env, req: Request, scheme: string, c: Claims)
    requires Lawful(env)
    requires ' ' !in scheme && req.authorization == Some(scheme + " " + env.sign(c))
    ensures VerifyToken(env, req) == Next(req.(user := Some(c)))
  {
    CredentialFollowsScheme(scheme, env.sign(c));
    SplitOfWord(env.sign(c));
  }

  /** Two headers that differ only in the first word are treated alike. */
  lemma VerifyTokenIgnoresScheme(env: Env, req: Request, scheme1: string, scheme2: string, rest: string)
    requires ' ' !in scheme1 && ' ' !in scheme2
    ensures var a := VerifyToken(env, req.(authorization := Some(scheme1 + " " + rest)));
            var b := VerifyToken(env, req.(authorization := Some(scheme2 + " " + rest)));
            && (a.Respond? <==> b.Respond?)
            && (a.Respond? ==> a == b)
            && (a.Next? ==> a.req.user == b.req.user)
  {
    CredentialFollowsScheme(scheme1, rest);
    CredentialFollowsScheme(scheme2, rest);
  }

  /** The address reported to a refused non-administrator: the forwarded-for header when it
      is set and non-empty, else the socket's remote address under the same condition, else
      whatever Express computed as the request's ip. */
  function ClientAddress(req: Request): (r: Option<string>)
    ensures r == req.forwardedFor || r == req.remoteAddress || r == req.ip
    ensures Truthy(req.forwardedFor) ==> r == req.forwardedFor
    ensures !Truthy(req.forwardedFor) && Truthy(req.remoteAddress) ==> r == req.remoteAddress
    ensures !Truthy(req.forwardedFor) && !Truthy(req.remoteAddress) ==> r == req.ip
    ensures Truthy(r) <==> Truthy(req.forwardedFor) || Truthy(req.remoteAddress) || Truthy(req.ip)
  {
    if Truthy(req.forwardedFor) then req.forwardedFor
    else if Truthy(req.remoteAddress) then req.remoteAddress
    else req.ip
  }

  /** `verifyTokenAdmin`: `verifyToken`, then the admin flag. */
  function VerifyTokenAdmin(env: Env, req: Request): (r: Step)
    ensures VerifyToken(env, req).Respond? ==> r == VerifyToken(env, req)
    ensures VerifyToken(env, req).Next? ==> (r.Next? <==> VerifyToken(env, req).req.user.value.isAdmin)
    ensures r.Next? ==> r == VerifyToken(env, req)
    ensures VerifyToken(env, req).Next? && r.Respond? ==>
      r.response == Response(403, Denied(AdminsOnly, ClientAddress(req)))
    ensures r.Respond? && Truthy(req.forwardedFor) && VerifyToken(env, req).Next? ==>
      r.response.payload.ipAddress == req.forwardedFor
  {
    match VerifyToken(env, req)
    case Respond(response) => Respond(response)
    case Next(authed) =>
      if !authed.user.value.isAdmin then Respond(Response(403, Denied(AdminsOnly, ClientAddress(req))))
      else Next(authed)
  }

  /** `verifyTokenUser`: `verifyToken`, then the caller's id against the `:id` path parameter. */
  function VerifyTokenUser(env: Env, req: Request): (r: Step)
    ensures VerifyToken(env, req).Respond? ==> r == VerifyToken(env, req)
    ensures r.Next? <==>
      VerifyToken(env, req).Next? && req.pathId == Some(VerifyToken(env, req).req.user.value.id)
    ensures r.Next? ==> r == VerifyToken(env, req)
    ensures VerifyToken(env, req).Next? && r.Respond? ==> r.response == Response(403, Message(OwnerOnly))
  {
    match VerifyToken(env, req)
    case Respond(response) => Respond(response)
    case Next(authed) =>
      if Some(authed.user.value.id) != authed.pathId then Respond(Response(403, Message(OwnerOnly)))
      else Next(authed)
  }

  /** Being an administrator does not open another user's profile. */
  lemma VerifyTokenUserHasNoAdminOverride(env: Env, req: Request)
    requires VerifyToken(env, req).Next?
    requires VerifyToken(env, req).req.user.value.isAdmin
    requires req.pathId != Some(VerifyToken(env, req).req.user.value.id)
    ensures VerifyTokenUser(env, req) == Respond(Response(403, Message(OwnerOnly)))
  {
  }

  /** `validateObjectID`. */
  function ValidateObjectId(env: Env, req: Request): (r: Step)
    ensures r.Next? <==> req.pathId.Some? && env.isObjectId(req.pathId.value)
    ensures r.Next? ==> r.req == req
    ensures r.Respond? ==> r.response == Response(400, Message(InvalidId))
  {
    if req.pathId.None? || !env.isObjectId(req.pathId.value) then Respond(Response(400, Message(InvalidId)))
    else Next(req)
  }

  /** The id check reads `req.params.id` and nothing else: requests that agree on it get the
      same answer, whatever their headers, body or identity. */
  lemma ValidateObjectIdReadsOnlyPathId(env: Env, a: Request, b: Request)
    requires a.pathId == b.pathId
    ensures ValidateObjectId(env, a).Next? <==> ValidateObjectId(env, b).Next?
    ensures ValidateObjectId(env, a).Respond? ==> ValidateObjectId(env, a) == ValidateObjectId(env, b)
  {
  }
}
