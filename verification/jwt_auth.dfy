/** The JWT authentication middleware mounted on every shipment route. The token verifier of
    the JWT library is a parameter: given a token and the secret it answers the decoded
    `{ id, email }`, or nothing when it would throw. */
module JwtAuth {
  import opened Wrappers
  import opened HttpResponses
  import opened BearerTokens

  /** The decoded token payload that becomes `req.user`. */
  datatype Claims = Claims(id: string, email: string)

  /** The secret both the login handler and this middleware use. */
  const JwtSecret := "tu-secreto-jwt"

  /** `jwt.verify(token, secret)`; `None` stands for a thrown verification error. */
  type Verifier = (string, string) -> Option<Claims>

  const NoTokenResponse := HttpResponse(401, MessageJson("Token no proporcionado"))
  const BadTokenResponse := HttpResponse(403, MessageJson("Token inválido"))

  function AuthenticateToken(header: Option<string>, verify: Verifier): (r: AuthOutcome<Claims>)
    ensures ExtractToken(header).None? ==> r == Reject(NoTokenResponse)
    ensures ExtractToken(header).Some? && verify(ExtractToken(header).value, JwtSecret).None? ==> r == Reject(BadTokenResponse)
    ensures r.Proceed? <==> ExtractToken(header).Some? && verify(ExtractToken(header).value, JwtSecret).Some?
    ensures r.Proceed? ==> Some(r.user) == verify(ExtractToken(header).value, JwtSecret)
  {
    match ExtractToken(header)
    case None => Reject(NoTokenResponse)
    case Some(token) =>
      match verify(token, JwtSecret)
      case None => Reject(BadTokenResponse)
      case Some(decoded) => Proceed(decoded)
  }

  /** Without a token the verifier is never consulted: the answer is the same whatever it does. */
  lemma NoTokenIgnoresVerifier(header: Option<string>, verify1: Verifier, verify2: Verifier)
    requires ExtractToken(header).None?
    ensures AuthenticateToken(header, verify1) == AuthenticateToken(header, verify2)
  {
  }

  /** A "Bearer <token>" header passes exactly when the verifier accepts the token. */
  lemma BearerHeaderAuthenticates(token: string, verify: Verifier)
    requires token != "" && ' ' !in token
    ensures AuthenticateToken(Some("Bearer " + token), verify) ==
      match verify(token, JwtSecret)
      case Some(decoded) => Proceed(decoded)
      case None => Reject(BadTokenResponse)
  {
    TokenOfBearerHeader("Bearer " + token, "Bearer", token, "");
  }
}
