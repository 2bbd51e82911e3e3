/** `AuthMiddleware`: the two guards in front of the routes. Both read the
    session token; `verifyUser` also checks it with `JWT.verify` (a
    parameter here, `None` where it throws) and puts its payload on the
    request. A guard either calls `next()` once (`Pass`) or throws. */
module AuthMiddleware {
  import opened Wrappers
  import opened Entities
  import opened Http

  const NoToken: string := "Token is not avalible. Please login again."
  const InvalidToken: string := "Token is invalid. Please login again."
  const NotAuthorized: string := "not autorize for this route"

  /** `JWT.verify(req.session?.jwt, config.JWB_TOKEN!)` for a given token. */
  function Verified(verify: string -> Option<AuthPayload>, token: string): Option<AuthPayload> {
    verify(token)
  }

  /** How `verifyUser` ends for a session token: no token, or an empty
      one, throws before verifying; a token that does not verify throws a
      second message; otherwise `next()` is called. */
  function VerifyEnding(jwt: Option<string>, verify: string -> Option<AuthPayload>): (r: Outcome<AppError>)
    ensures r == Pass <==> Truthy(jwt) && Verified(verify, jwt.value).Some?
    ensures !Truthy(jwt) ==> r == Fail(AppError(NotAutorizedError, NoToken))
    ensures Truthy(jwt) && Verified(verify, jwt.value).None? ==> r == Fail(AppError(NotAutorizedError, InvalidToken))
  {
    if !Truthy(jwt) then Fail(AppError(NotAutorizedError, NoToken))
    else if Verified(verify, jwt.value).None? then Fail(AppError(NotAutorizedError, InvalidToken))
    else Pass
  }

  /** How `checkAuth` ends for a session token. */
  function CheckEnding(jwt: Option<string>): (r: Outcome<AppError>)
    ensures r == Pass <==> Truthy(jwt)
    ensures r.Fail? ==> r.error == AppError(NotAutorizedError, NotAuthorized)
  {
    if !Truthy(jwt) then Fail(AppError(NotAutorizedError, NotAuthorized)) else Pass
  }

  /** `checkAuth` is the weaker guard: whatever `verifyUser` lets through,
      it lets through too, and on a missing token both throw a
      `NotAutorizedError`, with different messages. */
  lemma CheckWeakerThanVerify(jwt: Option<string>, verify: string -> Option<AuthPayload>)
    ensures VerifyEnding(jwt, verify) == Pass ==> CheckEnding(jwt) == Pass
    ensures !Truthy(jwt) ==>
      && VerifyEnding(jwt, verify).Fail? && CheckEnding(jwt).Fail?
      && VerifyEnding(jwt, verify).error.cls == CheckEnding(jwt).error.cls == NotAutorizedError
      && VerifyEnding(jwt, verify).error.message != CheckEnding(jwt).error.message
  {
  }

  /** `verifyUser`: on `next()`, the request's current user is the verified
      payload; a throw leaves it as it was. The token is never changed. */
  method VerifyUser(req: Request, verify: string -> Option<AuthPayload>) returns (r: Outcome<AppError>)
    modifies req`currentUser
    ensures r == VerifyEnding(old(req.jwt), verify)
    ensures r == Pass ==> req.currentUser == Verified(verify, req.jwt.value)
    ensures r.Fail? ==> req.currentUser == old(req.currentUser)
  {
    if !Truthy(req.jwt) {
      return Fail(AppError(NotAutorizedError, NoToken));
    }
    var payload := Verified(verify, req.jwt.value);
    if payload.None? {
      return Fail(AppError(NotAutorizedError, InvalidToken));
    }
    req.currentUser := payload;
    return Pass;
  }

  /** `checkAuth`: only the presence of a token is checked; nothing on the
      request changes. */
  method CheckAuth(req: Request) returns (r: Outcome<AppError>)
    ensures r == CheckEnding(req.jwt)
  {
    if !Truthy(req.jwt) {
      return Fail(AppError(NotAutorizedError, NotAuthorized));
    }
    return Pass;
  }
}
