/** The admin gate: a request must carry an authenticated user, and that user must have the
    role 'admin', either as attached by the authentication middleware or in its claims. */
module AdminOnly {
  import opened Wrappers
  import opened Http
  import opened AuthMiddleware

  const AuthenticationRequired: string := "Authentication required."
  const AdminRequired: string := "Access denied. Admin privileges required."

  predicate IsAdmin(role: Option<string>) {
    role == Some("admin")
  }

  /** `adminOnly` on the request's `user` and `userRole`: 401 without a user, then 403 unless
      either role is 'admin', otherwise control passes on. */
  function AdminGate(user: Option<Claims>, userRole: Option<string>): (outcome: MiddlewareOutcome)
    ensures outcome == Next <==> user.Some? && (IsAdmin(userRole) || IsAdmin(user.value.role))
  {
    if user.None? then Respond(ErrorResponse(401, AuthenticationRequired))
    else if !IsAdmin(userRole) && !IsAdmin(user.value.role) then Respond(ErrorResponse(403, AdminRequired))
    else Next
  }

  /** The gate applied to a request. */
  function AdminGateFor(req: Request): MiddlewareOutcome
    reads req
  {
    AdminGate(req.user, req.userRole)
  }

  /** The user check comes first: without a user the answer is 401 whatever role is recorded;
      with one, the only refusal is 403. */
  lemma GateOrder(user: Option<Claims>, userRole: Option<string>)
    ensures user.None? ==> AdminGate(user, userRole) == Respond(ErrorResponse(401, AuthenticationRequired))
    ensures user.Some? && AdminGate(user, userRole) != Next ==>
      AdminGate(user, userRole) == Respond(ErrorResponse(403, AdminRequired))
  {
  }

  /** Behind the authentication middleware the two roles agree, so a request passes both
      middlewares exactly when its token verifies to claims with the role 'admin'. */
  lemma AuthenticatedAdmin(header: Option<string>, verify: string -> Verification)
    ensures var result := Authenticate(header, verify);
      result.Success? ==> (AdminGate(Some(result.value), result.value.role) == Next <==> IsAdmin(result.value.role))
  {
  }

  /** Running the authentication middleware and then the gate on a request: control reaches the
      route exactly when the token verifies to claims whose role is 'admin'. A verified user
      who is not an admin gets the 403, with the claims already attached; a token that does
      not verify gets the middleware's 401 and leaves the request as it was. */
  method AuthorizeAdmin(req: Request, verify: string -> Verification) returns (outcome: MiddlewareOutcome)
    modifies req
    ensures var result := Authenticate(old(req.authorization), verify);
      && (outcome == Next <==> result.Success? && IsAdmin(result.value.role))
      && match result
         case Success(claims) =>
           && req.user == Some(claims) && req.userId == ResolvedUserId(claims) && req.userRole == claims.role
           && (!IsAdmin(claims.role) ==> outcome == Respond(ErrorResponse(403, AdminRequired)))
         case Failure(error) =>
           && outcome == Respond(error)
           && req.user == old(req.user) && req.userId == old(req.userId) && req.userRole == old(req.userRole)
    ensures req.authorization == old(req.authorization) && req.body == old(req.body)
  {
    outcome := Authorize(req, verify);
    if outcome == Next {
      outcome := AdminGateFor(req);
    }
  }
}
