/** Token claims and the access policy of the API: the payloads the two signing
    functions build, the soft authentication middleware that attaches a principal to
    the request, the role gate and the board-scoped viewer gate.
    Signing is modelled as returning the payload (RFC 7519 claims, `sub` as in
    section 4.1.2); verification is an oracle that yields the payload or nothing. */
module Auth {
  import opened Js

  /** A decoded token payload. `typ`, `role` and `fkboardid` are the strings the
      gates compare; a claim the token does not carry is `None`. */
  datatype Claims = Claims(
    typ: string,
    sub: Option<int>,
    name: Option<string>,
    role: Option<string>,
    fkboardid: Option<string>)

  /** What a middleware does with a request: hand it on, or answer it with an error. */
  datatype Decision = Next | Halt(status: int, error: string)

  /** Signature and expiry checking, abstracted: the claims of a valid token, or nothing.
      Nothing constrains it in general; `jwt.verify` rejects the empty token, and the
      lemmas that depend on that say `verify("") == None` in their requires. */
  type Verifier = string -> Option<Claims>

  const StaffRoles: seq<string> := ["admin", "employee"]

  /** The payload of a user token: the role is normalised to one of the two staff
      roles, the name defaults to "User", and the kind is always "user". */
  function SignUserToken(userId: int, name: Option<string>, role: Option<string>): (c: Claims)
    ensures c.typ == "user"
    ensures c.sub == Some(userId)
    ensures c.role == Some("admin") <==> role == Some("admin")
    ensures c.role.Some? && c.role.value in StaffRoles
    ensures TruthyString(name) ==> c.name == name
    ensures !TruthyString(name) ==> c.name == Some("User")
    ensures c.fkboardid.None?
  {
    Claims("user", Some(userId), Some(StringOr(name, "User")),
           Some(if role == Some("admin") then "admin" else "employee"), None)
  }

  /** The payload of a share-link token: a viewer bound to one board, with no
      subject, name or role. */
  function SignViewerToken(fkboardid: string): (c: Claims)
    ensures c.typ == "viewer" && c.fkboardid == Some(fkboardid)
    ensures c.sub.None? && c.name.None? && c.role.None?
  {
    Claims("viewer", None, None, None, Some(fkboardid))
  }

  /** The principal soft authentication attaches to a request with the given
      `Authorization` header: the verified claims of the text after the 7-character
      `bearer ` prefix (any letter case), trimmed; nothing when the header is missing,
      lacks the prefix or does not verify. */
  function SoftAuth(header: Option<string>, verify: Verifier): (user: Option<Claims>)
    ensures !TruthyString(header) ==> user.None?
    ensures TruthyString(header) && !HasBearerPrefix(header.value) ==> user.None?
    ensures TruthyString(header) && HasBearerPrefix(header.value) ==>
              user == verify(Trim(header.value[7..]))
  {
    if !TruthyString(header) || !HasBearerPrefix(header.value) then None
    else verify(Trim(header.value[7..]))
  }

  /** The parts of an Express request the middleware reads and writes. */
  class Request {
    const authorization: Option<string>
    const boardParam: Option<string>
    var user: Option<Claims>

    constructor (authorization: Option<string>, boardParam: Option<string>)
      ensures this.authorization == authorization && this.boardParam == boardParam
      ensures user.None?
    {
      this.authorization := authorization;
      this.boardParam := boardParam;
      user := None;
    }
  }

  /** Soft authentication: assigns `req.user` and always hands the request on. */
  method AuthMiddleware(req: Request, verify: Verifier) returns (d: Decision)
    modifies req`user
    ensures req.user == SoftAuth(req.authorization, verify)
    ensures d == Next
  {
    var h := req.authorization;
    if !TruthyString(h) || !HasBearerPrefix(h.value) {
      req.user := None;
      return Next;
    }
    var token := Trim(h.value[7..]);
    var decoded := verify(token);
    if decoded.Some? {
      req.user := decoded;
    } else {
      req.user := None;
    }
    d := Next;
  }

  /** `requireRole(...roles)`: 401 without a user principal (none, or a viewer),
      403 when the user's role is not among `roles`, otherwise on to the handler. */
  function RequireRole(roles: seq<string>, user: Option<Claims>): (d: Decision)
    ensures d == Next || d == Halt(401, "auth required") || d == Halt(403, "forbidden")
    ensures d == Halt(401, "auth required") <==> user.None? || user.value.typ != "user"
    ensures d == Next <==>
              user.Some? && user.value.typ == "user" &&
              user.value.role.Some? && user.value.role.value in roles
  {
    if user.None? || user.value.typ != "user" then Halt(401, "auth required")
    else if user.value.role.None? || user.value.role.value !in roles then Halt(403, "forbidden")
    else Next
  }

  /** `allowViewerForBoard`: anonymous and user principals pass; a viewer passes only
      when its board id, as a string, equals the requested one. Never answers 401. */
  function AllowViewerForBoard(boardParam: Option<string>, user: Option<Claims>): (d: Decision)
    ensures d == Next || d == Halt(403, "viewer token not for this board")
    ensures d.Halt? <==>
              user.Some? && user.value.typ == "viewer" &&
              ToJsString(user.value.fkboardid) != ToJsString(boardParam)
  {
    if user.None? then Next
    else if user.value.typ == "viewer" then
      if ToJsString(user.value.fkboardid) != ToJsString(boardParam)
      then Halt(403, "viewer token not for this board")
      else Next
    else Next
  }

  /** Every user token passes `requireRole('admin', 'employee')`. */
  lemma UserTokenPassesStaffGate(userId: int, name: Option<string>, role: Option<string>)
    ensures RequireRole(StaffRoles, Some(SignUserToken(userId, name, role))) == Next
  {
  }

  /** Only an input role of exactly "admin" passes an admin-only gate. */
  lemma UserTokenAdminGate(userId: int, name: Option<string>, role: Option<string>)
    ensures (RequireRole(["admin"], Some(SignUserToken(userId, name, role))) == Next)
            == (role == Some("admin"))
  {
  }

  /** A viewer token never passes a role gate: it is answered 401, not 403. */
  lemma ViewerTokenFailsRoleGate(roles: seq<string>, fkboardid: string)
    ensures RequireRole(roles, Some(SignViewerToken(fkboardid))) == Halt(401, "auth required")
  {
  }

  /** A viewer token opens exactly the board it was issued for. */
  lemma ViewerTokenScope(issued: string, requested: string)
    ensures (AllowViewerForBoard(Some(requested), Some(SignViewerToken(issued))) == Next)
            == (issued == requested)
  {
  }

  /** A header `Bearer <token>` with any letter case in the scheme and any whitespace
      around the token attaches exactly the claims the token verifies to. */
  lemma BearerHeaderAttachesClaims(scheme: string, before: string, token: string,
                                   after: string, verify: Verifier)
    requires |scheme| == 7 && HasBearerPrefix(scheme)
    requires AllWhitespace(before) && AllWhitespace(after)
    requires Trimmed(token) && token != []
    ensures SoftAuth(Some(scheme + before + token + after), verify) == verify(token)
  {
    var h := scheme + before + token + after;
    assert h[..7] == scheme;
    assert forall i :: 0 <= i < 7 ==> h[i] == scheme[i];
    assert h[7..] == before + token + after;
    TrimPadded(before, token, after);
  }

  /** End to end: a request carrying a user token that the verifier accepts passes
      the staff gate, whatever the user's role input was. */
  lemma SignedUserRequestPassesStaffGate(scheme: string, token: string, verify: Verifier,
                                         userId: int, name: Option<string>, role: Option<string>)
    requires |scheme| == 7 && HasBearerPrefix(scheme)
    requires Trimmed(token) && token != []
    requires verify(token) == Some(SignUserToken(userId, name, role))
    ensures RequireRole(StaffRoles, SoftAuth(Some(scheme + token), verify)) == Next
  {
    BearerHeaderAttachesClaims(scheme, [], token, [], verify);
    assert scheme + [] + token + [] == scheme + token;
  }

  /** End to end: a share-link token issued for one board is answered 403 on any
      other board and passes on its own. */
  lemma SharedLinkRequest(scheme: string, token: string, verify: Verifier,
                          issued: string, requested: string)
    requires |scheme| == 7 && HasBearerPrefix(scheme)
    requires Trimmed(token) && token != []
    requires verify(token) == Some(SignViewerToken(issued))
    ensures AllowViewerForBoard(Some(requested), SoftAuth(Some(scheme + token), verify))
              == (if issued == requested then Next
                  else Halt(403, "viewer token not for this board"))
  {
    BearerHeaderAttachesClaims(scheme, [], token, [], verify);
    assert scheme + [] + token + [] == scheme + token;
  }

  /** A header that is only the scheme, possibly with trailing blanks, leaves the
      request anonymous: the token is empty and no verifier accepts it. */
  lemma BareSchemeIsAnonymous(scheme: string, pad: string, verify: Verifier)
    requires |scheme| == 7 && HasBearerPrefix(scheme)
    requires AllWhitespace(pad)
    requires verify("") == None
    ensures SoftAuth(Some(scheme + pad), verify) == None
  {
    var h := scheme + pad;
    assert h[..7] == scheme;
    assert h[7..] == pad;
    TrimAllWhitespace(pad);
  }

  /** Without a usable header the request is anonymous: every role gate answers 401
      and the viewer gate lets it through. */
  lemma AnonymousRequest(header: Option<string>, verify: Verifier, roles: seq<string>,
                         boardParam: Option<string>)
    requires !TruthyString(header) || !HasBearerPrefix(header.value)
    ensures RequireRole(roles, SoftAuth(header, verify)) == Halt(401, "auth required")
    ensures AllowViewerForBoard(boardParam, SoftAuth(header, verify)) == Next
  {
  }
}
