/** The Cognito variant of the authentication middleware. It extracts the token the same way;
    the Cognito verifier is a parameter answering the token's payload, or nothing when it would
    reject. Its error bodies use the key `error` where the JWT variant uses `message`. */
module CognitoAuth {
  import opened Wrappers
  import opened HttpResponses
  import opened BearerTokens
  import JwtAuth

  const NoTokenResponse := HttpResponse(401, ErrorJson("Token no proporcionado"))
  const BadTokenResponse := HttpResponse(403, ErrorJson("Token inválido"))

  function AuthenticateToken<P>(header: Option<string>, verify: string -> Option<P>): (r: AuthOutcome<P>)
    ensures ExtractToken(header).None? ==> r == Reject(NoTokenResponse)
    ensures ExtractToken(header).Some? && verify(ExtractToken(header).value).None? ==> r == Reject(BadTokenResponse)
    ensures r.Proceed? <==> ExtractToken(header).Some? && verify(ExtractToken(header).value).Some?
    ensures r.Proceed? ==> Some(r.user) == verify(ExtractToken(header).value)
  {
    match ExtractToken(header)
    case None => Reject(NoTokenResponse)
    case Some(token) =>
      match verify(token)
      case None => Reject(BadTokenResponse)
      case Some(payload) => Proceed(payload)
  }

  /** Without a token the Cognito verifier is never consulted. */
  lemma NoTokenIgnoresVerifier<P>(header: Option<string>, verify1: string -> Option<P>, verify2: string -> Option<P>)
    requires ExtractToken(header).None?
    ensures AuthenticateToken(header, verify1) == AuthenticateToken(header, verify2)
  {
  }

  /** The two middlewares answer with the same status codes, and let the same requests through,
      whenever their verifiers accept the same tokens; only the key of the error body differs. */
  lemma VariantsAgree<P>(header: Option<string>, jwtVerify: JwtAuth.Verifier, cognitoVerify: string -> Option<P>)
    requires forall t :: jwtVerify(t, JwtAuth.JwtSecret).Some? == cognitoVerify(t).Some?
    ensures AuthenticateToken(header, cognitoVerify).Proceed? == JwtAuth.AuthenticateToken(header, jwtVerify).Proceed?
    ensures AuthenticateToken(header, cognitoVerify).Reject? ==>
      && AuthenticateToken(header, cognitoVerify).response.status == JwtAuth.AuthenticateToken(header, jwtVerify).response.status
      && AuthenticateToken(header, cognitoVerify).response.body.error == JwtAuth.AuthenticateToken(header, jwtVerify).response.body.message
  {
  }
}
