/** The gateway's `verifyToken` middleware: an ordered chain of checks that
    either lets the request continue with the decoded token claims or answers
    it with a fixed status and message. The JWT library's `verify` is a
    parameter: it returns the decoded claims, or says the token expired, or
    says it is invalid for any other reason. */
module AuthMiddleware {
  import opened Common
  import opened Text

  /** The payload of a token signed at login (`{ id, email }`) together with
      the `iat` and `exp` fields the JWT library adds. */
  datatype Claims = Claims(id: nat, email: string, iat: int, exp: int)

  /** What `jwt.verify(token, secret)` does: return the payload, or throw a
      `TokenExpiredError`, or throw any other error. */
  datatype Verification = Verified(claims: Claims) | TokenExpired | TokenInvalid

  /** The middleware's only two outcomes: `next()` with `req.user` set, or
      `res.status(status).json({ error })` without calling `next`. */
  datatype Decision = Continue(user: Claims) | Respond(status: int, error: string)

  const MisconfiguredMessage := "Erro de configuração interna do servidor."
  const MissingTokenMessage := "Token não fornecido."
  const MalformedMessage := "Formato de token inválido."
  const ExpiredMessage := "Token expirado."
  const InvalidMessage := "Token inválido."

  /** `authHeader.split(' ')[1]`: the second space-separated field, if any.
      The first field is not looked at. */
  function TokenOf(authHeader: string): (t: Option<string>)
    ensures t.Some? <==> |Split(authHeader, ' ')| >= 2
    ensures t.Some? ==> ' ' !in t.value
  {
    var parts := Split(authHeader, ' ');
    if |parts| >= 2 then Some(parts[1]) else None
  }

  /** The `catch` block: an expired token is told apart from every other
      verification failure. */
  function FromVerification(v: Verification): (d: Decision)
    ensures d.Continue? <==> v.Verified?
    ensures v.Verified? ==> d.user == v.claims
    ensures v.TokenExpired? ==> d == Respond(401, ExpiredMessage)
    ensures v.TokenInvalid? ==> d == Respond(403, InvalidMessage)
  {
    match v
    case Verified(c) => Continue(c)
    case TokenExpired => Respond(401, ExpiredMessage)
    case TokenInvalid => Respond(403, InvalidMessage)
  }

  /** `verifyToken(req, res, next)`: secret, then header, then token format,
      then signature and expiry. `secret` is `process.env.JWT_SECRET`,
      `headers` the request's (lower-cased) headers. */
  function VerifyToken(secret: Option<string>, headers: map<string, string>,
                       verify: (string, string) -> Verification): (d: Decision)
    ensures d.Respond? ==> d.status in {401, 403, 500}
    ensures d.Continue? ==> Truthy(secret) && Truthy(Header(headers, "authorization"))
                            && Truthy(TokenOf(headers["authorization"]))
                            && verify(TokenOf(headers["authorization"]).value, secret.value) == Verified(d.user)
  {
    if !Truthy(secret) then Respond(500, MisconfiguredMessage)
    else if !Truthy(Header(headers, "authorization")) then Respond(401, MissingTokenMessage)
    else
      var token := TokenOf(headers["authorization"]);
      if !Truthy(token) then Respond(401, MalformedMessage)
      else FromVerification(verify(token.value, secret.value))
  }

  /** Without a secret the answer is 500, whatever the request carries and
      whatever the verifier would say. */
  lemma NoSecretIsServerError(secret: Option<string>, headers: map<string, string>,
                              verify: (string, string) -> Verification)
    requires !Truthy(secret)
    ensures VerifyToken(secret, headers, verify) == Respond(500, MisconfiguredMessage)
  {
  }

  /** With a secret but no (or an empty) `Authorization` header the answer is
      401 'Token não fornecido.', and the verifier is not consulted: any two
      verifiers give the same answer. */
  lemma MissingHeaderSkipsVerifier(secret: Option<string>, headers: map<string, string>,
                                   verify: (string, string) -> Verification,
                                   other: (string, string) -> Verification)
    requires Truthy(secret) && !Truthy(Header(headers, "authorization"))
    ensures VerifyToken(secret, headers, verify) == Respond(401, MissingTokenMessage)
    ensures VerifyToken(secret, headers, verify) == VerifyToken(secret, headers, other)
  {
  }

  /** A header whose second space-separated field is absent or empty is a
      format error, and again the verifier is not consulted. */
  lemma MalformedHeaderSkipsVerifier(secret: Option<string>, headers: map<string, string>,
                                     verify: (string, string) -> Verification,
                                     other: (string, string) -> Verification)
    requires Truthy(secret) && Truthy(Header(headers, "authorization"))
    requires !Truthy(TokenOf(headers["authorization"]))
    ensures VerifyToken(secret, headers, verify) == Respond(401, MalformedMessage)
    ensures VerifyToken(secret, headers, verify) == VerifyToken(secret, headers, other)
  {
  }

  /** "Bearer" alone has no second field. */
  lemma BareSchemeIsMalformed()
    ensures TokenOf("Bearer") == None
  {
    SplitNoSeparator("Bearer", ' ');
  }

  /** "Bearer  x" (two spaces) has an empty second field. */
  lemma DoubleSpaceIsMalformed()
    ensures TokenOf("Bearer  x") == Some("")
  {
    var h := "Bearer  x";
    assert h == "Bearer" + [' '] + (" x");
    SplitNoSeparator("Bearer", ' ');
    SplitNoSeparator("x", ' ');
    assert " x" == [' '] + "x";
    assert Split(" x", ' ') == ["", "x"];
    SplitLeadingWord("Bearer", " x", ' ');
  }

  /** The first word is never compared with "Bearer": for any header
      "<word> <token>" with a non-empty token, the answer is the verifier's
      verdict on that token. */
  lemma FirstWordIgnored(secret: Option<string>, headers: map<string, string>,
                         word: string, token: string, verify: (string, string) -> Verification)
    requires Truthy(secret) && ' ' !in word && ' ' !in token && token != ""
    requires "authorization" in headers && headers["authorization"] == word + " " + token
    ensures VerifyToken(secret, headers, verify) == FromVerification(verify(token, secret.value))
  {
    assert word + " " + token == word + [' '] + token;
    SplitTwoWords(word, token, ' ');
  }

  /** An expired and an otherwise invalid token stay distinguishable: both
      the status and the message differ. */
  lemma ExpiredAndInvalidDiffer()
    ensures FromVerification(TokenExpired) != FromVerification(TokenInvalid)
    ensures FromVerification(TokenExpired).status != FromVerification(TokenInvalid).status
    ensures FromVerification(TokenExpired).error != FromVerification(TokenInvalid).error
  {
  }
}
