/**
 * `protect`: resolves the request's principal from its `Authorization`
 * header. Token verification is an abstract partial function from the token
 * text to its payload; a missing token or a failed verification both end in
 * 401, as does a payload whose user is not in the store.
 */
module AuthMiddleware {
  import opened Js
  import opened ComplaintSchema
  import opened Db

  /** `req.user` for the rest of the request. */
  datatype Principal = Principal(id: Id, name: Option<string>, email: Option<string>, role: string)

  /** The claims carried by a token. */
  datatype Payload = Payload(id: Id, role: string)

  /** The outcome of the middleware: `next()` with a principal, or a 401 with a message. */
  datatype AuthResult = Authorized(principal: Principal) | Unauthorized(message: string)

  /** The principal of the built-in administrator, resolved without a store look-up. */
  const AdminPrincipal := Principal(AdminId, Some("Admin"), Some("admin@civicfix.com"), "admin")

  predicate IsAdmin(p: Principal)
  {
    p.role == "admin"
  }

  /** A stored user as a principal (the password is not selected). */
  function PrincipalOf(id: Id, u: User): Principal
  {
    Principal(id, u.name, u.email, u.role)
  }

  /** The header is present, non-empty and starts with "Bearer". */
  predicate HasBearer(header: Option<string>)
    ensures HasBearer(header) <==> header.Some? && exists rest: string :: header.value == "Bearer" + rest
  {
    Truthy(header) && StartsWith(header.value, "Bearer")
  }

  /** `header.split(' ')[1]`, undefined when there is no second field. */
  function TokenOf(header: string): (r: Option<string>)
    ensures r.Some? <==> ' ' in header
    ensures r.Some? ==> ' ' !in r.value
  {
    var fields := Split(header, ' ');
    if |fields| > 1 then Some(fields[1]) else None
  }

  /** `protect`, with `verify` standing for `jwt.verify` under the server's secret. */
  function Protect(header: Option<string>, verify: string -> Option<Payload>, users: map<Id, User>): (r: AuthResult)
    ensures !HasBearer(header) ==> r == Unauthorized("Not authorized, no token")
    ensures HasBearer(header) && (TokenOf(header.value).None? || verify(TokenOf(header.value).value).None?) ==>
      r == Unauthorized("Token verification failed")
    ensures
      (&& HasBearer(header) && TokenOf(header.value).Some? && verify(TokenOf(header.value).value).Some?
       && verify(TokenOf(header.value).value).value.id != AdminId
       && verify(TokenOf(header.value).value).value.id !in users)
      ==> r == Unauthorized("User not found")
    ensures r.Authorized? <==>
      && HasBearer(header)
      && TokenOf(header.value).Some?
      && verify(TokenOf(header.value).value).Some?
      && (verify(TokenOf(header.value).value).value.id == AdminId
          || verify(TokenOf(header.value).value).value.id in users)
    ensures r.Authorized? ==>
      var id := verify(TokenOf(header.value).value).value.id;
      r.principal == if id == AdminId then AdminPrincipal else PrincipalOf(id, users[id])
  {
    if !HasBearer(header) then Unauthorized("Not authorized, no token")
    else
      var token := TokenOf(header.value);
      if token.None? then Unauthorized("Token verification failed")
      else
        var decoded := verify(token.value);
        if decoded.None? then Unauthorized("Token verification failed")
        else if decoded.value.id == AdminId then Authorized(AdminPrincipal)
        else if decoded.value.id !in users then Unauthorized("User not found")
        else Authorized(PrincipalOf(decoded.value.id, users[decoded.value.id]))
  }

  /** The token is the text after "Bearer ", provided it holds no space. */
  lemma BearerToken(token: string)
    requires ' ' !in token
    ensures HasBearer(Some("Bearer " + token))
    ensures TokenOf("Bearer " + token) == Some(token)
  {
    var header := "Bearer " + token;
    assert header[..6] == "Bearer";
    assert header == Join(["Bearer", token], ' ');
    SplitJoin(["Bearer", token], ' ');
  }

  /** A header carrying a token the verifier accepts resolves to the token's user. */
  lemma BearerRoundTrip(token: string, verify: string -> Option<Payload>, users: map<Id, User>, p: Payload)
    requires ' ' !in token && verify(token) == Some(p)
    requires p.id != AdminId && p.id in users
    ensures Protect(Some("Bearer " + token), verify, users) == Authorized(PrincipalOf(p.id, users[p.id]))
  {
    BearerToken(token);
  }

  /** The built-in administrator does not depend on the user table at all. */
  lemma AdminBypassIgnoresUsers(header: Option<string>, verify: string -> Option<Payload>, users1: map<Id, User>, users2: map<Id, User>)
    requires HasBearer(header) && TokenOf(header.value).Some?
    requires verify(TokenOf(header.value).value).Some?
    requires verify(TokenOf(header.value).value).value.id == AdminId
    ensures Protect(header, verify, users1) == Protect(header, verify, users2) == Authorized(AdminPrincipal)
  {
  }
}
