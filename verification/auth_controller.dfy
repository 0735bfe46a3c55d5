/** The login handler: a single hard-coded account; a successful login answers a JWT signed over
    `{ id: '1', email }` with a one-hour lifetime. The signing function of the JWT library is a
    parameter answering the token, or nothing when it would throw. */
module AuthControllers {
  import opened Wrappers
  import opened HttpResponses
  import opened BearerTokens
  import opened JwtAuth

  const TestEmail := "test@ejemplo.com"
  const TestPassword := "test123"
  const TokenLifetime := "1h"
  const TestUserId := "1"

  /** The JSON body; a field the client left out is `None`. */
  datatype LoginBody = LoginBody(email: Option<string>, password: Option<string>)

  /** `jwt.sign(payload, secret, { expiresIn })`; `None` stands for a thrown error. */
  type Signer = (Claims, string, string) -> Option<string>

  const BadCredentialsResponse := HttpResponse(401, MessageJson("Credenciales inválidas"))
  const LoginErrorResponse := HttpResponse(500, MessageJson("Error en la autenticación"))

  /** Strict equality with both hard-coded values; a missing field never matches. */
  predicate ValidCredentials(body: LoginBody)
  {
    body.email == Some(TestEmail) && body.password == Some(TestPassword)
  }

  function Login(body: LoginBody, sign: Signer): (r: HttpResponse)
    ensures !ValidCredentials(body) ==> r == BadCredentialsResponse
    ensures ValidCredentials(body) ==>
      r == match sign(Claims(TestUserId, TestEmail), JwtSecret, TokenLifetime)
           case Some(token) => HttpResponse(Ok, TokenJson(token))
           case None => LoginErrorResponse
    ensures r.body.TokenJson? <==> ValidCredentials(body) && sign(Claims(TestUserId, TestEmail), JwtSecret, TokenLifetime).Some?
  {
    if body.email == Some(TestEmail) && body.password == Some(TestPassword) then
      match sign(Claims(TestUserId, body.email.value), JwtSecret, TokenLifetime)
      case Some(token) => HttpResponse(Ok, TokenJson(token))
      case None => LoginErrorResponse
    else
      BadCredentialsResponse
  }

  /** A token is only ever issued for the one hard-coded account. */
  lemma OnlyTheTestAccountGetsAToken(body: LoginBody, sign: Signer)
    requires Login(body, sign).status == Ok
    ensures body.email == Some(TestEmail) && body.password == Some(TestPassword)
  {
  }

  /** End to end: if the verifier accepts what the signer produces under the shared secret and
      signed tokens hold no spaces, then the token a successful login answers, sent back as
      "Bearer <token>", lets the request through as user "1" with the test e-mail. */
  lemma IssuedTokenAuthenticates(body: LoginBody, sign: Signer, verify: Verifier)
    requires forall c: Claims ::
      var t := sign(c, JwtSecret, TokenLifetime);
      t.Some? ==> t.value != "" && ' ' !in t.value && verify(t.value, JwtSecret) == Some(c)
    requires Login(body, sign).body.TokenJson?
    ensures AuthenticateToken(Some("Bearer " + Login(body, sign).body.token), verify) == Proceed(Claims(TestUserId, TestEmail))
  {
    var token := Login(body, sign).body.token;
    assert sign(Claims(TestUserId, TestEmail), JwtSecret, TokenLifetime) == Some(token);
    BearerHeaderAuthenticates(token, verify);
  }
}
