/** `SignUp`: the auth and user records built at sign-up, and the steps of
    `create` in their order, with the lookups, the upload, the random
    digits and the token signer as parameters. */
module SignUp {
  import opened Wrappers
  import opened JsText
  import opened Json
  import opened Helpers
  import opened Entities
  import opened RedisStore
  import opened Http
  import opened JoiValidation
  import UC = UserCache

  const UserExist: string := "Invalid credentials, user exist"
  const UploadFailed: string := "File upload: Error occured. Try again."
  const UserCreated: string := "User Created"
  const PictureBase: string := "https://res.cloudinary.com/dsgualnj4/image/upload/v"

  /** `ISignUpData`: what `signupData` is given. */
  datatype SignUpInput = SignUpInput(id: string, uId: string, username: string, email: string, password: string, avatarColor: string)

  /** The fields of the request body `create` reads. */
  datatype SignUpBody = SignUpBody(email: string, password: string, username: string, avatarColor: string, avatarImage: string)

  /** `UploadApiResponse`, as far as `create` reads it. */
  datatype Upload = Upload(publicId: Option<string>, version: string)

  datatype SignUpReply = SignUpReply(message: string, user: User, token: string)

  /** `signupData`: the auth record, with the name capitalised word by word
      and the email lower-cased; `now` is `new Date()`. */
  function SignupData(data: SignUpInput, now: string): (a: AuthRecord)
    ensures a.username == Capitalised(data.username)
    ensures a.email == LowerCase(data.email) && LowerCase(a.email) == a.email
    ensures a.id == data.id && a.uId == data.uId && a.password == data.password
    ensures a.avatarColor == data.avatarColor && a.createdAt == now
  {
    FirstLatterUppercaseIsCapitalised(data.username);
    LowerCaseIdempotent(data.email);
    AuthRecord(data.id, data.uId, FirstLatterUppercase(data.username), LowerCase(data.email), data.password,
      data.avatarColor, now)
  }

  /** The fixed values `userData` gives a new user. */
  predicate NewUserDefaults(u: User) {
    && u.profilePicture == "" && u.blocked == [] && u.blockedBy == []
    && u.work == "" && u.location == "" && u.school == "" && u.quote == ""
    && u.bgImageVersion == "" && u.bgImageId == ""
    && u.followersCount == 0 && u.followingCount == 0 && u.postsCount == 0
    && u.notifications == Notifications(true, true, true, true)
    && u.social == Social("", "", "", "")
    && u.createdAt == None
  }

  /** `userData`: the user record for the auth record `a`, under the new
      user id, with the name capitalised (again) and the defaults. */
  function UserData(a: AuthRecord, userObjectId: string): (u: User)
    ensures u.id == userObjectId && u.authId == a.id && u.uId == a.uId
    ensures u.username == Capitalised(a.username)
    ensures u.email == a.email && u.password == a.password && u.avatarColor == a.avatarColor
    ensures NewUserDefaults(u)
  {
    FirstLatterUppercaseIsCapitalised(a.username);
    User(userObjectId, a.id, a.uId, FirstLatterUppercase(a.username), a.email, a.password, a.avatarColor, "",
      [], [], "", "", "", "", "", "", 0, 0, 0, Notifications(true, true, true, true), Social("", "", "", ""), None)
  }

  /** The name is capitalised twice, with no further effect: the user
      record carries the auth record's name. */
  lemma UserNameIsAuthName(data: SignUpInput, now: string, userObjectId: string)
    ensures UserData(SignupData(data, now), userObjectId).username == SignupData(data, now).username
  {
    FirstLatterUppercaseIsCapitalised(data.username);
    FirstLatterUppercaseIdempotent(data.username);
    FirstLatterUppercaseIsCapitalised(FirstLatterUppercase(data.username));
  }

  /** The Cloudinary address of the uploaded avatar: the fixed base, the
      version, a slash and the user id. */
  function ProfilePicture(version: string, userObjectId: string): (url: string)
    ensures |url| == |PictureBase| + |version| + 1 + |userObjectId|
    ensures url[..|PictureBase|] == PictureBase
    ensures url[|PictureBase|..|PictureBase| + |version|] == version
    ensures url[|url| - |userObjectId| - 1] == '/' && url[|url| - |userObjectId|..] == userObjectId
  {
    PictureBase + version + "/" + userObjectId
  }

  /** `signToken`: the payload signed into the session token. */
  function SignToken(a: AuthRecord, userObjectId: string): (p: AuthPayload)
    ensures p.userId == userObjectId && p.uId == a.uId && p.email == a.email
    ensures p.username == a.username && p.avatarColor == a.avatarColor
  {
    AuthPayload(userObjectId, a.uId, a.email, a.username, a.avatarColor)
  }

  /** `${generateRundomIntegers(12)}` for the twelve digits drawn: the
      text of their value, which `parseInt` reads back as that value. */
  function GeneratedUId(choices: seq<nat>): (uId: string)
    requires 12 <= |choices| && forall i :: 0 <= i < |choices| ==> choices[i] < 10
    ensures ParseInt(uId) == Some(DigitsValue(DigitString(choices[..12])))
    ensures 0 <= DigitsValue(DigitString(choices[..12])) < Pow10(12)
  {
    var n := DigitsValue(DigitString(choices[..12]));
    ParseIntOfIntToString(n);
    DigitsValueBound(DigitString(choices[..12]));
    IntToString(n)
  }

  /** `!result?.public_id` fails the upload: no result, or no public id. */
  predicate Uploaded(upload: Option<Upload>) {
    upload.Some? && Truthy(upload.value.publicId)
  }

  /** The auth record `create` builds. */
  function AuthDataOf(body: SignUpBody, authObjectId: string, choices: seq<nat>, now: string): AuthRecord
    requires 12 <= |choices| && forall i :: 0 <= i < |choices| ==> choices[i] < 10
  {
    SignupData(SignUpInput(authObjectId, GeneratedUId(choices), body.username, body.email, body.password, body.avatarColor), now)
  }

  /** The user record `create` caches, queues and returns: `userData`
      with the avatar address as its picture. */
  function CachedUserOf(a: AuthRecord, userObjectId: string, version: string): User {
    UserData(a, userObjectId).(profilePicture := ProfilePicture(version, userObjectId))
  }

  class SignUp {
    const userCache: UC.UserCache

    constructor (userCache: UC.UserCache)
      ensures this.userCache == userCache
    {
      this.userCache := userCache;
    }

    /** `create`, decorated with `joiValidation(signupSchema)`. A user
        with that name or email already (`userExists`) stops it; so does an
        upload with no public id; both before any write. Otherwise it
        caches the user under the new user id, queues the auth record and
        then the user record, sets the session token and answers 201. The
        `omit` result is dropped, so the record queued and returned still
        carries the password, email and uId. A failed cache save rejects
        the handler with the cache's error, and nothing is queued. The clock
        is read twice: `now` when the auth record is built, and `savedAt`
        when the cache save stamps the user, after the upload. */
    method Create(req: Request, validation: Option<ValidationError>, body: SignUpBody, userExists: bool,
                  authObjectId: string, userObjectId: string, choices: seq<nat>, now: string,
                  upload: Option<Upload>, savedAt: string, net: Replies, sign: AuthPayload -> string)
      returns (end: Ending<SignUpReply>, jobs: seq<Job>)
      requires 12 <= |choices| && forall i :: 0 <= i < |choices| ==> choices[i] < 10
      modifies req`jwt, userCache.client
      ensures Check<SignUpReply>(validation).Halt? ==> end == Check<SignUpReply>(validation).end
      ensures Check<SignUpReply>(validation).Invoke? && userExists ==> end == Next(AppError(BadRequestError, UserExist))
      ensures Check<SignUpReply>(validation).Invoke? && !userExists && !Uploaded(upload) ==>
        end == Next(AppError(BadRequestError, UploadFailed))
      ensures Check<SignUpReply>(validation).Halt? || userExists || !Uploaded(upload) ==>
        && jobs == [] && req.jwt == old(req.jwt)
        && userCache.client.Model() == old(userCache.client.Model()) && userCache.client.isOpen == old(userCache.client.isOpen)
      ensures Check<SignUpReply>(validation).Invoke? && !userExists && Uploaded(upload) ==>
        SavedAndAnswered(old(userCache.client.isOpen), userCache.client.isOpen, old(userCache.client.Model()), userCache.client.Model(),
          AuthDataOf(body, authObjectId, choices, now), CachedUserOf(AuthDataOf(body, authObjectId, choices, now), userObjectId, upload.value.version),
          userObjectId, savedAt, net, sign, old(req.jwt), req.jwt, end, jobs)
    {
      jobs := [];
      var gate := Check<SignUpReply>(validation);
      if gate.Halt? {
        return gate.end, jobs;
      }
      if userExists {
        return Next(AppError(BadRequestError, UserExist)), jobs;
      }
      var generated := GenerateRandomIntegers(12, choices);
      var uId := NumberText(generated);
      assert uId == GeneratedUId(choices);
      var authData := AuthDataOf(body, authObjectId, choices, now);
      if !Uploaded(upload) {
        return Next(AppError(BadRequestError, UploadFailed)), jobs;
      }
      var userDataForCache := UserData(authData, userObjectId);
      userDataForCache := userDataForCache.(profilePicture := ProfilePicture(upload.value.version, userObjectId));
      end, jobs := SaveAndAnswer(req, authData, userDataForCache, userObjectId, savedAt, net, sign);
    }

    /** The rest of `create` once the user record is built: save it to the
        cache under the user id, then queue, sign and answer. */
    method SaveAndAnswer(req: Request, a: AuthRecord, u: User, userObjectId: string, now: string, net: Replies,
                         sign: AuthPayload -> string)
      returns (end: Ending<SignUpReply>, jobs: seq<Job>)
      requires ParseInt(a.uId).Some?
      modifies req`jwt, userCache.client
      ensures SavedAndAnswered(old(userCache.client.isOpen), userCache.client.isOpen, old(userCache.client.Model()),
        userCache.client.Model(),
        a, u, userObjectId, now, net, sign, old(req.jwt), req.jwt, end, jobs)
    {
      jobs := [];
      ghost var before := userCache.client.Model();
      ghost var wasOpen := userCache.client.isOpen;
      var saved := userCache.SaveUserToCache(userObjectId, a.uId, u, now, net);
      if saved.Fail? {
        assert !((wasOpen || net.connect) && net.first && net.second);
        assert userCache.client.Model() == PartialSave(wasOpen, before, a, userObjectId, net);
        return Throw(AppError(ServerError, saved.error)), jobs;
      }
      assert (wasOpen || net.connect) && net.first && net.second;
      ghost var after := UC.SavedDb(before, userObjectId, ParseInt(a.uId).value, u, now);
      assert userCache.client.Model() == after;
      var authJob := Job(AuthQueue, "addAuthUserToDb", AuthValue(a));
      var userJob := Job(UserQueue, "addUserToDb", UserValue(u));
      jobs := [authJob, userJob];
      var userJwt := Token(sign, a, userObjectId);
      req.jwt := Some(userJwt);
      assert req.jwt == Some(Token(sign, a, userObjectId));
      assert userCache.client.Model() == after;
      return Respond(CREATED, SignUpReply(UserCreated, u, userJwt)), jobs;
    }
  }

  /** The session token: the signed `signToken` payload. */
  function Token(sign: AuthPayload -> string, a: AuthRecord, userObjectId: string): string {
    sign(SignToken(a, userObjectId))
  }

  /** What a failed save leaves in the cache: nothing when the connection
      or the ZADD failed, and the new user ranked in `user` without its
      hash when only the HSET failed. */
  function PartialSave(wasOpen: bool, before: Db, a: AuthRecord, userObjectId: string, net: Replies): Db
    requires ParseInt(a.uId).Some?
  {
    if !(wasOpen || net.connect) || !net.first then before
    else ZAddDb(before, "user", ParseInt(a.uId).value, userObjectId)
  }

  /** What `create` leaves once the user record `u` for the auth record `a`
      is built: when the cache connects and both writes go through, the
      user saved under its id, the auth job and then the user job queued,
      the session token set to the signed payload and a 201 with the user
      and the token; otherwise the cache's error thrown, nothing queued,
      the session as it was and the cache as the failed save left it.
      Either way the connection is open exactly when it was already or the
      server accepted it. */
  predicate SavedAndAnswered(wasOpen: bool, isOpen: bool, before: Db, after: Db, a: AuthRecord, u: User,
                             userObjectId: string, now: string, net: Replies, sign: AuthPayload -> string,
                             jwtBefore: Option<string>, jwtAfter: Option<string>, end: Ending<SignUpReply>,
                             jobs: seq<Job>)
    requires ParseInt(a.uId).Some?
  {
    var token := Token(sign, a, userObjectId);
    && isOpen == (wasOpen || net.connect)
    && if (wasOpen || net.connect) && net.first && net.second then
      && after == UC.SavedDb(before, userObjectId, ParseInt(a.uId).value, u, now)
      && jobs == [Job(AuthQueue, "addAuthUserToDb", AuthValue(a)), Job(UserQueue, "addUserToDb", UserValue(u))]
      && jwtAfter == Some(token)
      && end == Respond(CREATED, SignUpReply(UserCreated, u, token))
    else
      && after == PartialSave(wasOpen, before, a, userObjectId, net)
      && end == Throw(AppError(ServerError, UC.SaveError))
      && jobs == [] && jwtAfter == jwtBefore
  }

  /** What reading back a user saved at sign-up gives: zero follow
      counters, no one blocking them, every notification on, and the
      stored post count "0"; `blocked` reads as the text "[];". */
  lemma NewUserReadBack(db: Db, key: string, score: int, u: User, now: string)
    requires NewUserDefaults(u)
    ensures "username" in UC.SavedHash(db, key, score, u, now) && "postCount" in UC.SavedHash(db, key, score, u, now)
    ensures var d := UC.DecodeUser(UC.SavedHash(db, key, score, u, now));
      && d["followersCount"] == UC.Parsed(Num(0))
      && d["followingCount"] == UC.Parsed(Num(0))
      && d["blockedBy"] == UC.Parsed(Arr([]))
      && d["notifications"] == UC.Parsed(NotificationsJson(Notifications(true, true, true, true)))
      && d["blocked"] == UC.Parsed(Str("[];"))
      && d["postCount"] == UC.Raw("0")
  {
    UC.DecodeSavedUser(db, key, score, u, now);
    NoIds();
  }

  lemma NoIds()
    ensures IdsJson([]) == Arr([]) && Stringify(IdsJson([])) + ";" == "[];" && IntToString(0) == "0"
  {
    assert Stringify(Arr([])) == "[" + JoinComma([]) + "]";
  }
}
