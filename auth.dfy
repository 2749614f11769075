/** The authentication middleware, middleware/authMiddleware.js: the Bearer header is parsed, the token
    is verified and the user looked up; `verificarAdmin` adds the role gate. Token verification is an
    uninterpreted partial function from token text to a user id. `Ok(id)` stands for calling `next`
    once with `req.usuario` set to the user `id`. */
module Auth {
  import opened Models

  const Prefix: string := "Bearer "

  predicate StartsWith(s: string, prefix: string) {
    |prefix| <= |s| && s[..|prefix|] == prefix
  }

  predicate NoSpace(s: string) {
    forall i :: 0 <= i < |s| ==> s[i] != ' '
  }

  /** The first field of `s` split on single spaces: everything before the first space. */
  function FirstField(s: string): (r: string)
    ensures |r| <= |s| && r == s[..|r|]
    ensures NoSpace(r)
    ensures |r| < |s| ==> s[|r|] == ' '
    decreases |s|
  {
    if s == [] || s[0] == ' ' then [] else [s[0]] + FirstField(s[1..])
  }

  /** A field followed by a space or by nothing is what `FirstField` reads back. */
  lemma {:induction false} FirstFieldOf(t: string, rest: string)
    requires NoSpace(t)
    requires rest == [] || rest[0] == ' '
    ensures FirstField(t + rest) == t
    decreases |t|
  {
    if t == [] {
      assert t + rest == rest;
    } else {
      assert (t + rest)[0] == t[0];
      assert (t + rest)[1..] == t[1..] + rest;
      FirstFieldOf(t[1..], rest);
    }
  }

  /** The token: field 1 of the header split on " ", present only when the header starts with "Bearer ". */
  function ParseBearer(header: Option<string>): (r: Option<string>)
    ensures r.Some? <==> header.Some? && StartsWith(header.value, Prefix)
    ensures r.Some? ==> r.value == FirstField(header.value[|Prefix|..])
  {
    if header.Some? && StartsWith(header.value, Prefix) then Some(FirstField(header.value[|Prefix|..])) else None
  }

  /** "Bearer " followed by a token without spaces, and optionally a space and anything, yields that token. */
  lemma BearerRoundTrip(token: string, rest: string)
    requires NoSpace(token)
    requires rest == [] || rest[0] == ' '
    ensures ParseBearer(Some(Prefix + token + rest)) == Some(token)
  {
    var h := Prefix + token + rest;
    assert h[..|Prefix|] == Prefix;
    assert h[|Prefix|..] == token + rest;
    FirstFieldOf(token, rest);
  }

  /** Two spaces after "Bearer" yield the empty token. */
  lemma DoubleSpaceGivesEmptyToken(rest: string)
    ensures ParseBearer(Some("Bearer  " + rest)) == Some("")
  {
    var h := "Bearer  " + rest;
    assert h[..|Prefix|] == Prefix;
    assert h[|Prefix|..][0] == ' ';
  }

  /** verificarUsuario: 401 without a Bearer header, for a token that does not verify, and for a decoded
      id with no user; otherwise the user found. */
  function VerificarUsuario(users: map<Id, User>, header: Option<string>, verify: string -> Option<Id>): (r: Outcome<Id>)
    ensures r.Ok? || r == Unauthorized
    ensures r == Unauthorized <==>
      ParseBearer(header).None? || verify(ParseBearer(header).value).None? || verify(ParseBearer(header).value).value !in users
    ensures r.Ok? ==> r.value in users && verify(ParseBearer(header).value) == Some(r.value)
  {
    var token := ParseBearer(header);
    if token.None? then Unauthorized
    else
      var decoded := verify(token.value);
      if decoded.None? || decoded.value !in users then Unauthorized
      else Ok(decoded.value)
  }

  /** verificarAdmin: the same 401s, then 403 for a signed-in user who is not an admin. */
  function VerificarAdmin(users: map<Id, User>, header: Option<string>, verify: string -> Option<Id>): (r: Outcome<Id>)
    ensures r.Ok? || r == Unauthorized || r == Forbidden
    ensures r == Unauthorized <==> VerificarUsuario(users, header, verify) == Unauthorized
    ensures r == Forbidden <==> VerificarUsuario(users, header, verify).Ok? && users[VerificarUsuario(users, header, verify).value].rol != Admin
    ensures r.Ok? <==> VerificarUsuario(users, header, verify).Ok? && users[VerificarUsuario(users, header, verify).value].rol == Admin
    ensures r.Ok? ==> r == VerificarUsuario(users, header, verify)
  {
    var u := VerificarUsuario(users, header, verify);
    if !u.Ok? then u
    else if users[u.value].rol != Admin then Forbidden
    else u
  }
}
