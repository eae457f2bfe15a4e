/** The authentication middleware: it takes the token from an `Authorization: Bearer <token>`
    header, has it verified, and attaches the decoded claims to the request. Verification is
    the JWT library's; here it is a function from the token to the decoded claims or to the
    name of the error it throws. */
module AuthMiddleware {
  import opened Wrappers
  import opened Http

  /** The result of `jwt.verify(token, secret)`. */
  datatype Verification = Verified(claims: Claims) | Rejected(errorName: string)

  const BearerPrefix: string := "Bearer "
  const NoTokenProvided: string := "Access denied. No token provided."
  const InvalidTokenFormat: string := "Access denied. Invalid token format."
  const InvalidTokenMessage: string := "Invalid token."
  const TokenExpiredMessage: string := "Token expired. Please login again."
  const AuthenticationFailed: string := "Authentication failed."

  /** The token of an Authorization header: the header without its first seven characters,
      provided it is present and starts with exactly "Bearer " (case and space included). */
  function BearerToken(header: Option<string>): (token: Option<string>)
    ensures token.Some? <==> Given(header) && |header.value| >= 7 && header.value[..7] == BearerPrefix
    ensures token.Some? ==> header.value == BearerPrefix + token.value
  {
    if Given(header) && |header.value| >= 7 && header.value[..7] == BearerPrefix then Some(header.value[7..])
    else None
  }

  /** The 401 message for an error thrown by verification. */
  function VerificationMessage(errorName: string): string {
    if errorName == "JsonWebTokenError" then InvalidTokenMessage
    else if errorName == "TokenExpiredError" then TokenExpiredMessage
    else AuthenticationFailed
  }

  /** `decoded.userId || decoded.id`. */
  function ResolvedUserId(claims: Claims): Option<int> {
    if claims.userId.Some? && claims.userId.value != 0 then claims.userId else claims.id
  }

  /** What the middleware decides for a header: the claims to attach, or the 401 to send. */
  function Authenticate(header: Option<string>, verify: string -> Verification): Result<Claims, ErrorResponse> {
    var token := BearerToken(header);
    if token.None? then Failure(ErrorResponse(401, NoTokenProvided))
    else if token.value == "" then Failure(ErrorResponse(401, InvalidTokenFormat))
    else
      match verify(token.value)
      case Verified(claims) => Success(claims)
      case Rejected(name) => Failure(ErrorResponse(401, VerificationMessage(name)))
  }

  /** `authMiddleware` on a request: on success the decoded claims, the resolved user id and
      the role are attached and control passes on; otherwise the request is left as it was. */
  method Authorize(req: Request, verify: string -> Verification) returns (outcome: MiddlewareOutcome)
    modifies req
    ensures var result := Authenticate(old(req.authorization), verify);
      match result
      case Success(claims) =>
        && outcome == Next
        && req.user == Some(claims) && req.userId == ResolvedUserId(claims) && req.userRole == claims.role
      case Failure(error) =>
        && outcome == Respond(error)
        && req.user == old(req.user) && req.userId == old(req.userId) && req.userRole == old(req.userRole)
    ensures req.authorization == old(req.authorization) && req.body == old(req.body)
  {
    var authHeader := req.authorization;
    if authHeader.None? || authHeader.value == "" || !(|authHeader.value| >= 7 && authHeader.value[..7] == BearerPrefix) {
      return Respond(ErrorResponse(401, NoTokenProvided));
    }
    var token := authHeader.value[7..];
    if token == "" {
      return Respond(ErrorResponse(401, InvalidTokenFormat));
    }
    var decoded := verify(token);
    match decoded {
      case Rejected(name) =>
        if name == "JsonWebTokenError" {
          return Respond(ErrorResponse(401, InvalidTokenMessage));
        }
        if name == "TokenExpiredError" {
          return Respond(ErrorResponse(401, TokenExpiredMessage));
        }
        return Respond(ErrorResponse(401, AuthenticationFailed));
      case Verified(claims) =>
        req.user := Some(claims);
        req.userId := if claims.userId.Some? && claims.userId.value != 0 then claims.userId else claims.id;
        req.userRole := claims.role;
        return Next;
    }
  }

  // ---------------------------------------------------------------------------------------
  // Properties

  /** Every failure is a 401; a header that is absent or lacks the exact prefix is refused
      before the token is looked at, and the bare prefix is refused as an empty token, in
      both cases whatever the verifier would say. */
  lemma HeaderRejections(header: Option<string>, verify: string -> Verification, other: string -> Verification)
    ensures Authenticate(header, verify).Failure? ==> Authenticate(header, verify).error.status == 401
    ensures BearerToken(header).None? ==>
      Authenticate(header, verify) == Authenticate(header, other) == Failure(ErrorResponse(401, NoTokenProvided))
    ensures header == Some(BearerPrefix) ==>
      Authenticate(header, verify) == Failure(ErrorResponse(401, InvalidTokenFormat))
  {
    if header == Some(BearerPrefix) {
      assert header.value[..7] == BearerPrefix;
    }
  }

  /** The prefix test is case-sensitive and needs the space: "bearer x" and "Bearerx" carry no token. */
  lemma PrefixIsExact(token: string)
    ensures BearerToken(Some("bearer " + token)).None?
    ensures BearerToken(Some("Bearer" + token)).Some? ==> |token| >= 1 && token[0] == ' '
  {
    var h := "bearer " + token;
    if |h| >= 7 {
      assert h[0] == 'b' && BearerPrefix[0] == 'B';
    }
    var g := "Bearer" + token;
    if BearerToken(Some(g)).Some? {
      assert g[6] == BearerPrefix[6];
    }
  }

  /** Prefixing a token with "Bearer " and extracting it again gives the same token, which then
      goes to the verifier unchanged. */
  lemma TokenRoundTrip(token: string, verify: string -> Verification)
    requires token != ""
    ensures BearerToken(Some(BearerPrefix + token)) == Some(token)
    ensures Authenticate(Some(BearerPrefix + token), verify) ==
      match verify(token)
      case Verified(claims) => Success(claims)
      case Rejected(name) => Failure(ErrorResponse(401, VerificationMessage(name)))
  {
    var h := BearerPrefix + token;
    assert h[..7] == BearerPrefix && h[7..] == token;
  }

  /** The verification errors map to three messages, all of them 401. */
  lemma VerificationMessages(name: string)
    ensures VerificationMessage(name) in {InvalidTokenMessage, TokenExpiredMessage, AuthenticationFailed}
    ensures VerificationMessage(name) == InvalidTokenMessage <==> name == "JsonWebTokenError"
    ensures VerificationMessage(name) == TokenExpiredMessage <==> name == "TokenExpiredError"
  {
  }
}
