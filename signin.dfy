/** `SignIn.read`: look the user up by name, compare the password, sign
    the session token. The lookup, the password comparison and
    `JWT.sign` are parameters. */
module SignIn {
  import opened Wrappers
  import opened Entities
  import opened Http
  import opened JoiValidation
  import SU = SignUp

  const InvalidCredentials: string := "Invalid credentials"
  const LoggedIn: string := "User login successfully"

  /** The fields of the request body `read` destructures. */
  datatype SignInBody = SignInBody(username: string, password: string)

  datatype SignInReply = SignInReply(message: string, user: AuthRecord, token: string)

  /** The payload signed at sign-in: the auth record's own id as `userId`,
      and its uId, email, name and colour. */
  function Payload(a: AuthRecord): (p: AuthPayload)
    ensures p.userId == a.id && p.uId == a.uId && p.email == a.email
    ensures p.username == a.username && p.avatarColor == a.avatarColor
  {
    AuthPayload(a.id, a.uId, a.email, a.username, a.avatarColor)
  }

  function Signed(sign: AuthPayload -> string, a: AuthRecord): string {
    sign(Payload(a))
  }

  /** Sign-up signs the new user id as `userId`, sign-in the auth record's
      id: for the same auth record the two sessions name different users
      unless the two ids coincide, and agree on everything else. */
  lemma SessionsNameDifferentIds(a: AuthRecord, userObjectId: string)
    ensures Payload(a).userId == SU.SignToken(a, userObjectId).userId <==> a.id == userObjectId
    ensures Payload(a) == SU.SignToken(a, userObjectId).(userId := a.id)
  {
  }

  /** `authService.getAuthUserByUsername(username)`. */
  function Found(findByUsername: string -> Option<AuthRecord>, body: SignInBody): Option<AuthRecord> {
    findByUsername(body.username)
  }

  /** `exitingUser.comparePassword(password)`. */
  function Matches(comparePassword: (AuthRecord, string) -> bool, a: AuthRecord, body: SignInBody): bool {
    comparePassword(a, body.password)
  }

  class SignIn {
    /** `read`, decorated with `joiValidation(loginSchema)`. An unknown
        name and a wrong password end the same way, with the same error to
        `next` and nothing changed. Otherwise the session becomes the
        signed token and the answer carries the record and that token. */
    method Read(req: Request, validation: Option<ValidationError>, body: SignInBody,
                findByUsername: string -> Option<AuthRecord>, comparePassword: (AuthRecord, string) -> bool,
                sign: AuthPayload -> string)
      returns (end: Ending<SignInReply>)
      modifies req`jwt
      ensures Check<SignInReply>(validation).Halt? ==>
        end == Check<SignInReply>(validation).end && req.jwt == old(req.jwt)
      ensures Check<SignInReply>(validation).Invoke? ==>
        var existing := Found(findByUsername, body);
        if existing.Some? && Matches(comparePassword, existing.value, body) then
          && req.jwt == Some(Signed(sign, existing.value))
          && end == Respond(OK, SignInReply(LoggedIn, existing.value, Signed(sign, existing.value)))
        else
          end == Next(AppError(BadRequestError, InvalidCredentials)) && req.jwt == old(req.jwt)
    {
      var gate := Check<SignInReply>(validation);
      if gate.Halt? {
        return gate.end;
      }
      var existingUser := Found(findByUsername, body);
      if existingUser.None? {
        return Next(AppError(BadRequestError, InvalidCredentials));
      }
      var passwordMatch := Matches(comparePassword, existingUser.value, body);
      if !passwordMatch {
        return Next(AppError(BadRequestError, InvalidCredentials));
      }
      var userJwt := Signed(sign, existingUser.value);
      req.jwt := Some(userJwt);
      return Respond(OK, SignInReply(LoggedIn, existingUser.value, userJwt));
    }
  }
}
