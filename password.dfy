/** `Password`: the reset request (`create`) and the reset itself
    (`update`). The random bytes, the clock, the database lookups and the
    e-mail templates are parameters; the token write of `create` is
    returned, and the record `update` changes is an object it saves. */
module Password {
  import opened Wrappers
  import opened JsText
  import opened Entities
  import opened Http
  import opened JoiValidation

  const InvalidCredentials: string := "Invalid credentials"
  const TokenExpired: string := "Reset token has expired."
  const ResetSent: string := "Password reset email send."
  const PasswordUpdated: string := "Password successfully updated"
  const EmailJobName: string := "forgotsPasswordEmail"
  const ResetSubject: string := "Reset your password"
  const ConfirmSubject: string := "Password resert conformation"
  const ResetPath: string := "/reset-password?token="

  // ---------------------------------------------------------------------
  // The reset token
  // ---------------------------------------------------------------------

  type Byte = x: nat | x < 256

  const HexDigits: string := "0123456789abcdef"

  /** `Buffer.toString('hex')`: two lower-case hex digits per byte, high
      nibble first. */
  function Hex(bytes: seq<Byte>): (s: string)
    ensures |s| == 2 * |bytes|
    ensures forall i :: 0 <= i < |s| ==> s[i] in HexDigits
  {
    if bytes == [] then "" else ByteHex(bytes[0]) + Hex(bytes[1..])
  }

  /** One byte's two digits, high nibble first; they read back as it. */
  function ByteHex(b: Byte): (s: string)
    ensures |s| == 2 && s[0] in HexDigits && s[1] in HexDigits
    ensures DigitValue(s[0]) * 16 + DigitValue(s[1]) == b
  {
    ByteDigits(b);
    [HexDigits[b / 16], HexDigits[b % 16]]
  }

  /** The value of a hex digit. */
  function DigitValue(c: char): (v: nat)
    ensures v < 16
    ensures c in HexDigits ==> HexDigits[v] == c
  {
    if c == '0' then 0 else if c == '1' then 1 else if c == '2' then 2 else if c == '3' then 3
    else if c == '4' then 4 else if c == '5' then 5 else if c == '6' then 6 else if c == '7' then 7
    else if c == '8' then 8 else if c == '9' then 9 else if c == 'a' then 10 else if c == 'b' then 11
    else if c == 'c' then 12 else if c == 'd' then 13 else if c == 'e' then 14 else if c == 'f' then 15
    else 0
  }

  /** Reading hex text back, two digits per byte. */
  function Unhex(s: string): seq<Byte>
    requires |s| % 2 == 0
  {
    if s == [] then [] else [DigitValue(s[0]) * 16 + DigitValue(s[1])] + Unhex(s[2..])
  }

  lemma DigitValueOf(d: nat)
    requires d < 16
    ensures DigitValue(HexDigits[d]) == d
  {
  }

  /** A byte's two digits read back as the byte. */
  lemma ByteDigits(b: Byte)
    ensures DigitValue(HexDigits[b / 16]) * 16 + DigitValue(HexDigits[b % 16]) == b
  {
    DigitValueOf(b / 16);
    DigitValueOf(b % 16);
  }

  /** The hex text determines the bytes: reading it back gives them. */
  lemma {:induction false} HexRoundTrip(bytes: seq<Byte>)
    ensures Unhex(Hex(bytes)) == bytes
  {
    if bytes != [] {
      var b := bytes[0];
      var h := ByteHex(b);
      var rest := Hex(bytes[1..]);
      var s := h + rest;
      assert Hex(bytes) == s;
      assert s[0] == h[0] && s[1] == h[1] && s[2..] == rest;
      HexRoundTrip(bytes[1..]);
      assert bytes == [b] + bytes[1..];
    }
  }

  /** Different bytes never give the same token. */
  lemma HexInjective(a: seq<Byte>, b: seq<Byte>)
    requires Hex(a) == Hex(b)
    ensures a == b
  {
    HexRoundTrip(a);
    HexRoundTrip(b);
  }

  /** `Date.now() * 60 * 60 * 1000`: the milliseconds of an hour
      multiplied into the clock, not added to it. */
  function Expiry(now: int): int {
    now * 60 * 60 * 1000
  }

  /** The expiry is never the clock plus one hour, and from the second
      millisecond on it lies past it. */
  lemma ExpiryIsNotAnHourAhead(now: int)
    ensures Expiry(now) != now + 3600000
    ensures now >= 2 ==> Expiry(now) > now + 3600000
  {
    var extra := now * 3599999;
    assert Expiry(now) == now + extra;
    if now >= 2 {
      assert extra >= 2 * 3599999;
    } else if now <= 0 {
      assert extra <= 0;
    }
  }

  /** `${config.CLIENT_URL}/reset-password?token=${randomCharacter}`. */
  function ResetLink(clientUrl: Option<string>, token: string): string {
    Template(clientUrl) + ResetPath + token
  }

  /** The link ends with the token, after the client address and the
      reset path; an unset client address gives "undefined" there. */
  lemma ResetLinkParts(clientUrl: Option<string>, token: string)
    ensures var link := ResetLink(clientUrl, token);
      && |link| == |Template(clientUrl)| + |ResetPath| + |token|
      && link[..|Template(clientUrl)|] == Template(clientUrl)
      && link[|link| - |token|..] == token
    ensures clientUrl.None? ==> ResetLink(clientUrl, token)[..9] == "undefined"
  {
  }

  // ---------------------------------------------------------------------
  // create
  // ---------------------------------------------------------------------

  /** The fields of the request bodies the two handlers read. */
  datatype EmailBody = EmailBody(email: string)
  datatype PasswordBody = PasswordBody(password: string)

  /** `authService.updatePwdToken(id, token, expiry)`. */
  datatype TokenUpdate = TokenUpdate(authId: string, token: string, expires: int)

  function FoundByEmail(findByEmail: string -> Option<AuthRecord>, body: EmailBody): Option<AuthRecord> {
    findByEmail(body.email)
  }

  /** `forgotPasswordTemplate.passwordResetTemplate(username, resetLink)`. */
  function ResetTemplate(render: (string, string) -> string, username: string, link: string): string {
    render(username, link)
  }

  class Password {
    /** `create`, decorated with `joiValidation(emailSchema)`. An unknown
        address passes the error to `next`, with no token written and no
        e-mail queued. Otherwise the hex of the twenty random bytes is
        written as the record's reset token with the expiry, one e-mail job
        carrying the link goes to the address in the request, and the
        answer is 200. */
    method Create(validation: Option<ValidationError>, body: EmailBody, findByEmail: string -> Option<AuthRecord>,
                  randomBytes: seq<Byte>, now: int, clientUrl: Option<string>, render: (string, string) -> string)
      returns (end: Ending<Message>, update: Option<TokenUpdate>, jobs: seq<Job>)
      requires |randomBytes| == 20
      ensures Check<Message>(validation).Halt? ==> end == Check<Message>(validation).end
      ensures Check<Message>(validation).Invoke? && FoundByEmail(findByEmail, body).None? ==>
        end == Next(AppError(BadRequestError, InvalidCredentials))
      ensures end.Next? || end.Throw? ==> update == None && jobs == []
      ensures Check<Message>(validation).Invoke? && FoundByEmail(findByEmail, body).Some? ==>
        var a := FoundByEmail(findByEmail, body).value;
        var token := Hex(randomBytes);
        && |token| == 40
        && update == Some(TokenUpdate(a.id, token, Expiry(now)))
        && jobs == [Job(EmailQueue, EmailJobName,
                        EmailValue(ResetTemplate(render, a.username, ResetLink(clientUrl, token)), body.email, ResetSubject))]
        && end == Respond(OK, Message(ResetSent))
    {
      update := None;
      jobs := [];
      var gate := Check<Message>(validation);
      if gate.Halt? {
        return gate.end, update, jobs;
      }
      var existingUser := FoundByEmail(findByEmail, body);
      if existingUser.None? {
        return Next(AppError(BadRequestError, InvalidCredentials)), update, jobs;
      }
      var randomCharacter := Hex(randomBytes);
      update := Some(TokenUpdate(existingUser.value.id, randomCharacter, Expiry(now)));
      var resetLink := ResetLink(clientUrl, randomCharacter);
      var template := ResetTemplate(render, existingUser.value.username, resetLink);
      jobs := jobs + [Job(EmailQueue, EmailJobName, EmailValue(template, body.email, ResetSubject))];
      return Respond(OK, Message(ResetSent)), update, jobs;
    }

    /** `update`, decorated with `joiValidation(passwordSchema)`.
        `existing` is what `getAuthUserByPwdToken(token)` found. Without
        one, the error goes to `next` and nothing changes. Otherwise the new
        password is set and both reset fields are cleared, the record is
        saved, one confirmation e-mail goes to the record's address, and
        the answer is 200. */
    method Update(validation: Option<ValidationError>, body: PasswordBody, existing: Option<AuthDocument>,
                  ipAddress: string, date: string, render: ResetParams -> string)
      returns (end: Ending<Message>, jobs: seq<Job>)
      modifies if existing.Some? then {existing.value} else {}
      ensures Check<Message>(validation).Halt? ==> end == Check<Message>(validation).end
      ensures Check<Message>(validation).Invoke? && existing.None? ==>
        end == Next(AppError(BadRequestError, TokenExpired))
      ensures end.Next? || end.Throw? ==>
        && jobs == []
        && (existing.Some? ==>
              existing.value.Current() == old(existing.value.Current())
              && existing.value.Stored() == old(existing.value.Stored()))
      ensures Check<Message>(validation).Invoke? && existing.Some? ==>
        var d := existing.value;
        && d.Current() == Reset(old(d.Current()), body.password)
        && d.Current() == d.Stored()
        && jobs == [Job(EmailQueue, EmailJobName,
                        EmailValue(ConfirmTemplate(render, ResetParams(d.username, d.email, ipAddress, date)), d.email,
                                   ConfirmSubject))]
        && end == Respond(OK, Message(PasswordUpdated))
    {
      jobs := [];
      var gate := Check<Message>(validation);
      if gate.Halt? {
        return gate.end, jobs;
      }
      if existing.None? {
        return Next(AppError(BadRequestError, TokenExpired)), jobs;
      }
      var existingUser := existing.value;
      existingUser.password := body.password;
      existingUser.passwordResetExpires := None;
      existingUser.passwordResetToken := None;
      existingUser.Save();
      var templateParams := ResetParams(existingUser.username, existingUser.email, ipAddress, date);
      var template := ConfirmTemplate(render, templateParams);
      jobs := jobs + [Job(EmailQueue, EmailJobName, EmailValue(template, existingUser.email, ConfirmSubject))];
      return Respond(OK, Message(PasswordUpdated)), jobs;
    }
  }

  // ---------------------------------------------------------------------
  // update
  // ---------------------------------------------------------------------

  /** The fields of an auth record `update` changes. */
  datatype ResetFields = ResetFields(password: string, passwordResetToken: Option<string>, passwordResetExpires: Option<int>)

  /** The reset: the new password, and no token or expiry left. */
  function Reset(r: ResetFields, password: string): ResetFields {
    ResetFields(password, None, None)
  }

  /** After a reset no token matches the record any more, so the same
      link cannot reset it twice; resetting again changes only the
      password. */
  lemma ResetUsesTokenUp(r: ResetFields, password: string, token: string, again: string)
    ensures Reset(r, password).passwordResetToken != Some(token)
    ensures Reset(Reset(r, password), again) == Reset(r, again)
  {
  }

  /** `IResetPasswordParams`. */
  datatype ResetParams = ResetParams(username: string, email: string, ipaddress: string, date: string)

  /** `resetPasswordTemplate.resetPasswordConfirmationTemplate(params)`. */
  function ConfirmTemplate(render: ResetParams -> string, params: ResetParams): string {
    render(params)
  }

  /** The auth document `getAuthUserByPwdToken` returns: its reset fields
      can be assigned, and `save()` writes them to the database. */
  class AuthDocument {
    const id: string
    const username: string
    const email: string
    var password: string
    var passwordResetToken: Option<string>
    var passwordResetExpires: Option<int>
    var saved: ResetFields

    constructor (id: string, username: string, email: string, stored: ResetFields)
      ensures this.id == id && this.username == username && this.email == email
      ensures Current() == stored && Stored() == stored
    {
      this.id := id;
      this.username := username;
      this.email := email;
      password := stored.password;
      passwordResetToken := stored.passwordResetToken;
      passwordResetExpires := stored.passwordResetExpires;
      saved := stored;
    }

    /** The fields as the document holds them now. */
    function Current(): ResetFields
      reads this
    {
      ResetFields(password, passwordResetToken, passwordResetExpires)
    }

    /** The fields as the database holds them. */
    function Stored(): ResetFields
      reads this
    {
      saved
    }

    /** `save()`. */
    method Save()
      modifies this`saved
      ensures Stored() == Current()
    {
      saved := Current();
    }
  }
}
