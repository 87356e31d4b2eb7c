/**
 * Token selection and decoding for a request (decodeRequestToken in umpack.js),
 * and the two claim projections built on it (getUserRolesFromRequest,
 * getUserNameFromRequest). The JSON Web Token verifier is an oracle: the
 * signature and expiry checks it performs are not modelled.
 */
module Tokens {
  import opened Wrappers
  import opened Http

  /** The payload the login flow signs: `user`, `roles` and the optional `device`. */
  datatype Claims = Claims(user: string, roles: seq<string>, device: Option<string>)

  /** The error classes the jsonwebtoken verifier rejects with. */
  datatype VerifyError =
    | TokenExpiredError(expiredAt: int)
    | NotBeforeError(date: int)
    | JsonWebTokenError(message: string)

  /** What the verifier does with one token string. */
  datatype Verification = Verified(claims: Claims) | VerifyFailed(error: VerifyError)

  /** The three API errors decoding can reject with. */
  datatype ApiErrorName = JwtNotExists | JwtTokenExpired | InvalidJwt

  /**
   * The token a request carries: the `authorization` header, or failing that
   * the cookie named `cookieName`. Both are read with JavaScript `||`, so an
   * empty value counts as absent.
   */
  function ChooseToken(req: Request, cookieName: string): (token: Option<string>)
    ensures token.Some? ==> token.value != ""
    ensures Truthy(req.authorization) ==> token == req.authorization
    ensures !Truthy(req.authorization) ==>
      (token.Some? <==> cookieName in req.cookies && req.cookies[cookieName] != "")
    ensures !Truthy(req.authorization) && token.Some? ==> token.value == req.cookies[cookieName]
  {
    var fromCookie := if cookieName in req.cookies then Some(req.cookies[cookieName]) else None;
    var jwtToken := if Truthy(req.authorization) then req.authorization else fromCookie;
    if Truthy(jwtToken) then jwtToken else None
  }

  /** The API error a verifier failure becomes: expiry is told apart, everything else is invalid. */
  function ClassifyFailure(e: VerifyError): (name: ApiErrorName)
    ensures name == JwtTokenExpired <==> e.TokenExpiredError?
    ensures name == InvalidJwt <==> !e.TokenExpiredError?
  {
    if e.TokenExpiredError? then JwtTokenExpired else InvalidJwt
  }

  /**
   * decodeRequestToken: choose the token, reject with JWT_NOT_EXISTS when
   * there is none (the verifier is not called), otherwise verify it and map
   * a verifier failure onto an API error.
   */
  function DecodeRequestToken(req: Request, cookieName: string, verify: string -> Verification)
    : (r: Result<Claims, ApiErrorName>)
    ensures r == Err(JwtNotExists) <==> ChooseToken(req, cookieName).None?
    ensures r.Ok? <==>
      ChooseToken(req, cookieName).Some? && verify(ChooseToken(req, cookieName).value).Verified?
    ensures r.Ok? ==> r.value == verify(ChooseToken(req, cookieName).value).claims
    ensures r == Err(JwtTokenExpired) <==>
      && ChooseToken(req, cookieName).Some?
      && verify(ChooseToken(req, cookieName).value).VerifyFailed?
      && verify(ChooseToken(req, cookieName).value).error.TokenExpiredError?
  {
    match ChooseToken(req, cookieName)
    case None => Err(JwtNotExists)
    case Some(jwtToken) =>
      match verify(jwtToken)
      case Verified(decoded) => Ok(decoded)
      case VerifyFailed(e) => Err(ClassifyFailure(e))
  }

  /** A token whose header wins is decoded the same whatever the cookies hold. */
  lemma HeaderIgnoresCookies(req: Request, cookieName: string, verify: string -> Verification,
                             cookies: map<string, string>)
    requires Truthy(req.authorization)
    ensures DecodeRequestToken(req.(cookies := cookies), cookieName, verify)
         == DecodeRequestToken(req, cookieName, verify)
    ensures DecodeRequestToken(req, cookieName, verify) != Err(JwtNotExists)
  {
    assert ChooseToken(req.(cookies := cookies), cookieName) == req.authorization;
  }

  /** When no token is found the verifier is never consulted: any verifier gives the same rejection. */
  lemma MissingTokenIgnoresVerifier(req: Request, cookieName: string,
                                    verify: string -> Verification, other: string -> Verification)
    requires !Truthy(req.authorization)
    requires cookieName !in req.cookies || req.cookies[cookieName] == ""
    ensures DecodeRequestToken(req, cookieName, verify) == Err(JwtNotExists)
    ensures DecodeRequestToken(req, cookieName, other) == Err(JwtNotExists)
  {
  }

  /** The `{userName, roles}` pair getUserRolesFromRequest resolves with. */
  datatype UserRoles = UserRoles(userName: string, roles: seq<string>)

  /** getUserRolesFromRequest: decode, then keep the user and roles claims. */
  function UserRolesFromRequest(req: Request, cookieName: string, verify: string -> Verification)
    : (r: Result<UserRoles, ApiErrorName>)
    ensures r.Ok? <==> DecodeRequestToken(req, cookieName, verify).Ok?
    ensures r.Ok? ==>
      && r.value.userName == DecodeRequestToken(req, cookieName, verify).value.user
      && r.value.roles == DecodeRequestToken(req, cookieName, verify).value.roles
    ensures r.Err? ==> r.error == DecodeRequestToken(req, cookieName, verify).error
  {
    match DecodeRequestToken(req, cookieName, verify)
    case Ok(decoded) => Ok(UserRoles(decoded.user, decoded.roles))
    case Err(e) => Err(e)
  }

  /** getUserNameFromRequest: decode, then keep the user claim. */
  function UserNameFromRequest(req: Request, cookieName: string, verify: string -> Verification)
    : (r: Result<string, ApiErrorName>)
    ensures r.Ok? <==> DecodeRequestToken(req, cookieName, verify).Ok?
    ensures r.Ok? ==> r.value == DecodeRequestToken(req, cookieName, verify).value.user
    ensures r.Err? ==> r.error == DecodeRequestToken(req, cookieName, verify).error
  {
    match DecodeRequestToken(req, cookieName, verify)
    case Ok(decoded) => Ok(decoded.user)
    case Err(e) => Err(e)
  }
}
