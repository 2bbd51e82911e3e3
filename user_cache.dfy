/** `UserCache` (services version): a user document flattened into the
    hash `users:<key>` and ranked in the sorted set `user`, and read back
    field by field. */
module UserCache {
  import opened Wrappers
  import opened JsText
  import opened Json
  import opened Helpers
  import opened Entities
  import opened RedisStore

  const SaveError: string := "Server error, try again"

  /** The names under which a user is stored, list by list, in the order
      they are written. */
  const FirstNames: seq<string> := ["_id", "uId", "username", "email", "avatarColor", "createdAt", "postCount"]
  const SecondNames: seq<string> :=
    ["blocked", "blockedBy", "profilePicture", "followersCount", "followingCount", "notifications", "social"]
  const ThirdNames: seq<string> := ["work", "location", "school", "quote", "bgImageId", "bgImageVersion"]
  const UserFieldNames: seq<string> := FirstNames + SecondNames + ThirdNames

  /** The values of the first list: ids, names and counters rendered with
      `${…}`; the creation date is the date of the call, `now`. */
  function FirstValues(u: User, now: string): seq<string> {
    [u.id, u.uId, u.username, u.email, u.avatarColor, now, IntToString(u.postsCount)]
  }

  /** The values of the second list: the four composites as JSON, the rest
      with `${…}`. */
  function SecondValues(u: User): seq<string> {
    [Stringify(IdsJson(u.blocked)), Stringify(IdsJson(u.blockedBy)), u.profilePicture,
     IntToString(u.followersCount), IntToString(u.followingCount),
     Stringify(NotificationsJson(u.notifications)), Stringify(SocialJson(u.social))]
  }

  function ThirdValues(u: User): seq<string> {
    [u.work, u.location, u.school, u.quote, u.bgImageId, u.bgImageVersion]
  }

  function FirstList(u: User, now: string): seq<string> {
    Pairs(FirstNames, FirstValues(u, now))
  }

  function SecondList(u: User): seq<string> {
    Pairs(SecondNames, SecondValues(u))
  }

  function ThirdList(u: User): seq<string> {
    Pairs(ThirdNames, ThirdValues(u))
  }

  /** `dataToSave`: the HSET argument list. */
  function UserFields(u: User, now: string): seq<string> {
    FirstList(u, now) + SecondList(u) + ThirdList(u)
  }

  /** All twenty values, in the order they are written. */
  function UserValues(u: User, now: string): seq<string> {
    FirstValues(u, now) + SecondValues(u) + ThirdValues(u)
  }

  /** The names are twenty distinct strings. */
  lemma UserFieldNamesDistinct()
    ensures |UserFieldNames| == 20 && Distinct(UserFieldNames)
  {
  }

  /** The argument list pairs the twenty names with the twenty values. */
  lemma UserFieldsPairs(u: User, now: string)
    ensures |UserValues(u, now)| == 20
    ensures UserFields(u, now) == Pairs(UserFieldNames, UserValues(u, now))
  {
    PairsConcat(FirstNames, FirstValues(u, now), SecondNames, SecondValues(u));
    PairsConcat(FirstNames + SecondNames, FirstValues(u, now) + SecondValues(u), ThirdNames, ThirdValues(u));
  }

  /** 40 strings: the fixed names at the even positions, each followed by its value. */
  lemma UserFieldsLayout(u: User, now: string)
    ensures |UserFields(u, now)| == 40
    ensures NamedAt(UserFields(u, now), UserFieldNames)
  {
    UserFieldsPairs(u, now);
  }

  /** The argument list has an even length, as HSET requires. */
  lemma UserFieldsEven(u: User, now: string)
    ensures |UserFields(u, now)| == 40 && |UserFields(u, now)| % 2 == 0
  {
    UserFieldsPairs(u, now);
  }

  lemma FirstValueAt(u: User, now: string, k: nat)
    requires k < 7
    ensures UserValues(u, now)[k] == FirstValues(u, now)[k]
  {
  }

  lemma SecondValueAt(u: User, now: string, k: nat)
    requires k < 7
    ensures UserValues(u, now)[7 + k] == SecondValues(u)[k]
  {
    assert |FirstValues(u, now)| == 7;
  }

  /** The values written for the fields that are read back: the text as
      given, `${…}` of the counters, the JSON text of the composites. */
  lemma UserValuesAt(u: User, now: string)
    ensures var v := UserValues(u, now);
      && v[2] == u.username && v[5] == now && v[6] == IntToString(u.postsCount)
      && v[7] == Stringify(IdsJson(u.blocked)) && v[8] == Stringify(IdsJson(u.blockedBy))
      && v[10] == IntToString(u.followersCount) && v[11] == IntToString(u.followingCount)
      && v[12] == Stringify(NotificationsJson(u.notifications)) && v[13] == Stringify(SocialJson(u.social))
  {
    FirstValueAt(u, now, 2);
    FirstValueAt(u, now, 5);
    FirstValueAt(u, now, 6);
    SecondValueAt(u, now, 0);
    SecondValueAt(u, now, 1);
    SecondValueAt(u, now, 3);
    SecondValueAt(u, now, 4);
    SecondValueAt(u, now, 5);
    SecondValueAt(u, now, 6);
  }

  /** Where the fields read back sit among the names. */
  lemma UserFieldNamesAt()
    ensures UserFieldNames[2] == "username" && UserFieldNames[5] == "createdAt" && UserFieldNames[6] == "postCount"
    ensures UserFieldNames[7] == "blocked" && UserFieldNames[8] == "blockedBy"
    ensures UserFieldNames[10] == "followersCount" && UserFieldNames[11] == "followingCount"
    ensures UserFieldNames[12] == "notifications" && UserFieldNames[13] == "social"
  {
  }

  /** What a save writes when every command succeeds: the member `key`
      with the score read from userId, and the user's pairs over `users:<key>`. */
  function SavedDb(db: Db, key: string, score: int, u: User, now: string): Db {
    UserFieldsEven(u, now);
    HSetDb(ZAddDb(db, "user", score, key), "users:" + key, UserFields(u, now))
  }

  // ---------------------------------------------------------------------
  // Reading back
  // ---------------------------------------------------------------------

  /** A property of the object `getUserFromCache` returns: a string as
      HGETALL gave it, a value produced by `parseJson`, or the argument
      given to `new Date(…)`. */
  datatype Field = Raw(text: string) | Parsed(value: Json) | DateArg(arg: Json)

  /** The fields `getUserFromCache` converts. */
  const DecodedNames: set<string> := {
    "createdAt", "postsCount", "blocked", "blockedBy", "notifications", "social", "followersCount", "followingCount"}

  function Lookup(h: map<string, string>, f: string): Option<string> {
    if f in h then Some(h[f]) else None
  }

  /** `${response.f}` for a field not converted yet: its text, or
      "undefined" when the hash has no such field. (Each field is converted
      once, so a converted value is never read this way.) */
  function RawText(response: map<string, Field>, f: string): string {
    if f in response && response[f].Raw? then response[f].text else "undefined"
  }

  /** What `getUserFromCache` stores under converted field f whose text is
      t: `parseJson` of t (with a `;` appended for `blocked`), wrapped in
      `new Date(…)` for `createdAt`. */
  function ConvertText(f: string, t: string): Field {
    if f == "createdAt" then DateArg(ParseJson(t))
    else if f == "blocked" then Parsed(ParseJson(t + ";"))
    else Parsed(ParseJson(t))
  }

  /** The conversion of field f of hash h; a missing field reads as "undefined". */
  function Convert(h: map<string, string>, f: string): Field {
    ConvertText(f, Template(Lookup(h, f)))
  }

  /** The reply once the fields in `done` have been converted: the
      converted ones hold their conversions, the others their text. */
  function Partial(h: map<string, string>, done: set<string>): map<string, Field> {
    map f | f in h.Keys + done :: if f in done then Convert(h, f) else Raw(h[f])
  }

  /** Reference reading of `getUserFromCache`: every field of the hash plus
      every converted field, present or not. */
  function DecodeUser(h: map<string, string>): map<string, Field> {
    Partial(h, DecodedNames)
  }

  /** The reading keeps every field of the hash, adds the converted ones,
      and returns the text of every field it does not convert. */
  lemma DecodeUserFields(h: map<string, string>)
    ensures DecodeUser(h).Keys == h.Keys + DecodedNames
    ensures forall f :: f in h && f !in DecodedNames ==> DecodeUser(h)[f] == Raw(h[f])
  {
  }

  lemma DecodeRaw(h: map<string, string>, f: string)
    requires f in h && f !in DecodedNames
    ensures DecodeUser(h)[f] == Raw(h[f])
  {
  }

  /** The object HGETALL gives: every field with its text. */
  function RawReply(h: map<string, string>): (r: map<string, Field>)
    ensures r.Keys == h.Keys && forall f :: f in h ==> r[f] == Raw(h[f])
  {
    map f | f in h :: Raw(h[f])
  }

  /** One statement of `getUserFromCache`: field f replaced by the
      conversion of its current text. */
  function Step(response: map<string, Field>, f: string): map<string, Field> {
    response[f := ConvertText(f, RawText(response, f))]
  }

  /** The reply `getUserFromCache` builds: the hash as text, then the eight
      fields converted one after the other. */
  function ConvertAll(h: map<string, string>): map<string, Field> {
    var raw := RawReply(h);
    Step(Step(Step(Step(Step(Step(Step(Step(raw,
      "createdAt"), "postsCount"), "blocked"), "blockedBy"),
      "notifications"), "social"), "followersCount"), "followingCount")
  }

  /** Before any conversion the reply is the hash as text. */
  lemma PartialNone(h: map<string, string>)
    ensures RawReply(h) == Partial(h, {})
  {
  }

  /** Converting a field not converted yet extends the partial reading by
      that field: it still holds its text, so nothing converted is read twice. */
  lemma StepPartial(h: map<string, string>, done: set<string>, f: string)
    requires f !in done
    ensures Step(Partial(h, done), f) == Partial(h, done + {f})
  {
    assert RawText(Partial(h, done), f) == Template(Lookup(h, f));
  }

  /** Four conversions of fields not converted yet, one after the other. */
  lemma FourSteps(h: map<string, string>, done: set<string>, a: string, b: string, c: string, d: string)
    requires a !in done && b !in done + {a} && c !in done + {a} + {b} && d !in done + {a} + {b} + {c}
    ensures Step(Step(Step(Step(Partial(h, done), a), b), c), d) == Partial(h, done + {a} + {b} + {c} + {d})
  {
    StepPartial(h, done, a);
    StepPartial(h, done + {a}, b);
    StepPartial(h, done + {a} + {b}, c);
    StepPartial(h, done + {a} + {b} + {c}, d);
  }

  /** Converting the fields one after the other gives the reference reading. */
  lemma ConvertAllDecodes(h: map<string, string>)
    ensures ConvertAll(h) == DecodeUser(h)
  {
    FirstFourSteps(h);
    LastFourSteps(h);
  }

  lemma LastFourSteps(h: map<string, string>)
    ensures Step(Step(Step(Step(Partial(h, {} + {"createdAt"} + {"postsCount"} + {"blocked"} + {"blockedBy"}),
              "notifications"), "social"), "followersCount"), "followingCount")
         == DecodeUser(h)
  {
    FourSteps(h, {} + {"createdAt"} + {"postsCount"} + {"blocked"} + {"blockedBy"},
      "notifications", "social", "followersCount", "followingCount");
    assert {} + {"createdAt"} + {"postsCount"} + {"blocked"} + {"blockedBy"} + {"notifications"}
           + {"social"} + {"followersCount"} + {"followingCount"} == DecodedNames;
  }

  lemma FirstFourSteps(h: map<string, string>)
    ensures Step(Step(Step(Step(RawReply(h), "createdAt"), "postsCount"), "blocked"), "blockedBy")
         == Partial(h, {} + {"createdAt"} + {"postsCount"} + {"blocked"} + {"blockedBy"})
  {
    PartialNone(h);
    FourSteps(h, {}, "createdAt", "postsCount", "blocked", "blockedBy");
  }

  class UserCache {
    const client: Store

    constructor (client: Store)
      ensures this.client == client
    {
      this.client := client;
    }

    /** `saveUserToCache(key, userId, createdUser)`; `now` is `new Date()`
        as text. Open the connection if it is closed, ZADD, then HSET; any
        failure is reported as the same server error, and a later command
        is not sent once an earlier one failed. */
    method SaveUserToCache(key: string, userId: string, createdUser: User, now: string, net: Replies)
      returns (r: Outcome<string>)
      modifies client
      ensures var conn := old(client.isOpen) || net.connect;
        && client.isOpen == conn
        && (r == Pass <==> conn && net.first && ParseInt(userId).Some? && net.second)
        && (r.Fail? ==> r.error == SaveError)
        && client.Model()
           == if !conn || !net.first || ParseInt(userId).None? then old(client.Model())
              else if !net.second then ZAddDb(old(client.Model()), "user", ParseInt(userId).value, key)
              else SavedDb(old(client.Model()), key, ParseInt(userId).value, createdUser, now)
    {
      var dataToSave := UserFields(createdUser, now);
      UserFieldsEven(createdUser, now);
      if !client.isOpen {
        var connected := client.Connect(net.connect);
        if !connected {
          return Fail(SaveError);
        }
      }
      var zadded := client.ZAddCommand("user", ParseInt(userId), key, net.first);
      if !zadded {
        return Fail(SaveError);
      }
      var hset := client.HSetCommand("users:" + key, dataToSave, net.second);
      if !hset {
        return Fail(SaveError);
      }
      return Pass;
    }

    /** `getUserFromCache(key)`: open the connection if it is closed,
        HGETALL `users:<key>`, then convert eight fields one by one. */
    method GetUserFromCache(key: string, net: Replies) returns (r: Result<map<string, Field>, string>)
      modifies client
      ensures var conn := old(client.isOpen) || net.connect;
        && client.isOpen == conn
        && client.Model() == old(client.Model())
        && (r.Ok? <==> conn && net.first)
        && (r.Ok? ==> r.value == DecodeUser(HashOf(old(client.Model()), "users:" + key)))
        && (r.Err? ==> r.error == SaveError)
    {
      if !client.isOpen {
        var connected := client.Connect(net.connect);
        if !connected {
          return Err(SaveError);
        }
      }
      var reply := client.HGetAll("users:" + key, net.first);
      if reply.None? {
        return Err(SaveError);
      }
      var h := reply.value;
      var response := RawReply(h);
      response := response["createdAt" := ConvertText("createdAt", RawText(response, "createdAt"))];
      response := response["postsCount" := ConvertText("postsCount", RawText(response, "postsCount"))];
      response := response["blocked" := ConvertText("blocked", RawText(response, "blocked"))];
      response := response["blockedBy" := ConvertText("blockedBy", RawText(response, "blockedBy"))];
      response := response["notifications" := ConvertText("notifications", RawText(response, "notifications"))];
      response := response["social" := ConvertText("social", RawText(response, "social"))];
      response := response["followersCount" := ConvertText("followersCount", RawText(response, "followersCount"))];
      response := response["followingCount" := ConvertText("followingCount", RawText(response, "followingCount"))];
      ConvertAllDecodes(h);
      return Ok(response);
    }
  }

  // ---------------------------------------------------------------------
  // What a save followed by a read gives back
  // ---------------------------------------------------------------------

  /** The hash `users:<key>` right after a successful save. */
  function SavedHash(db: Db, key: string, score: int, u: User, now: string): map<string, string> {
    HashOf(SavedDb(db, key, score, u, now), "users:" + key)
  }

  /** A successful save ranks `key` in `user` with the score and writes
      every pair into `users:<key>`; no other sorted set or hash changes. */
  lemma SavedDbEffect(db: Db, key: string, score: int, u: User, now: string)
    ensures |UserFields(u, now)| % 2 == 0
    ensures var r := SavedDb(db, key, score, u, now);
      && ZsetOf(r, "user") == ZsetOf(db, "user")[key := score]
      && HashOf(r, "users:" + key) == HashOf(db, "users:" + key) + PairsMap(UserFields(u, now))
      && (forall k :: k != "user" ==> ZsetOf(r, k) == ZsetOf(db, k))
      && (forall k :: k != "users:" + key ==> HashOf(r, k) == HashOf(db, k))
  {
    UserFieldsEven(u, now);
    ZAddThenHSet(db, "user", score, key, "users:" + key, UserFields(u, now));
  }

  lemma SavedHashIs(db: Db, key: string, score: int, u: User, now: string)
    ensures |UserFields(u, now)| % 2 == 0
    ensures SavedHash(db, key, score, u, now) == HashOf(db, "users:" + key) + PairsMap(UserFields(u, now))
  {
    UserFieldsEven(u, now);
    ZAddThenHSet(db, "user", score, key, "users:" + key, UserFields(u, now));
  }

  /** Whatever the hash held before, after writing an argument list laid
      out with the user's names, the j-th name holds the j-th value. */
  lemma WrittenAt(base: map<string, string>, flat: seq<string>, j: nat)
    requires NamedAt(flat, UserFieldNames) && j < 20
    ensures UserFieldNames[j] in base + PairsMap(flat)
    ensures (base + PairsMap(flat))[UserFieldNames[j]] == flat[2 * j + 1]
  {
    UserFieldNamesDistinct();
    LookupByLayout(flat, UserFieldNames, j);
  }

  /** A converted field other than `createdAt` and `blocked` holds what
      `parseJson` makes of its text. */
  lemma DecodeParsed(h: map<string, string>, f: string, v: Json)
    requires f in DecodedNames && f != "createdAt" && f != "blocked"
    requires f in h && ParseJson(h[f]) == v
    ensures DecodeUser(h)[f] == Parsed(v)
  {
  }

  /** An argument list laid out with the user's names whose values for
      the fields read back are the user's data, rendered as the save
      renders them. */
  predicate WritesUser(flat: seq<string>, u: User, now: string) {
    && |flat| == 40 && |flat| % 2 == 0 && NamedAt(flat, UserFieldNames)
    && flat[5] == u.username && flat[11] == now && flat[13] == IntToString(u.postsCount)
    && flat[15] == Stringify(IdsJson(u.blocked)) && flat[17] == Stringify(IdsJson(u.blockedBy))
    && flat[21] == IntToString(u.followersCount) && flat[23] == IntToString(u.followingCount)
    && flat[25] == Stringify(NotificationsJson(u.notifications)) && flat[27] == Stringify(SocialJson(u.social))
  }

  lemma UserFieldsWriteUser(u: User, now: string)
    ensures WritesUser(UserFields(u, now), u, now)
  {
    UserFieldsEven(u, now);
    UserFieldsPairs(u, now);
    UserValuesAt(u, now);
  }

  /** The follow counters come back as the numbers they were. */
  lemma WrittenCounters(base: map<string, string>, flat: seq<string>, u: User, now: string)
    requires WritesUser(flat, u, now)
    ensures DecodeUser(base + PairsMap(flat))["followersCount"] == Parsed(Num(u.followersCount))
    ensures DecodeUser(base + PairsMap(flat))["followingCount"] == Parsed(Num(u.followingCount))
  {
    var h := base + PairsMap(flat);
    UserFieldNamesAt();
    WrittenAt(base, flat, 10);
    WrittenAt(base, flat, 11);
    ParseJsonOfInt(u.followersCount);
    ParseJsonOfInt(u.followingCount);
    DecodeParsed(h, "followersCount", Num(u.followersCount));
    DecodeParsed(h, "followingCount", Num(u.followingCount));
  }

  /** `blockedBy`, `notifications` and `social` come back as the JSON
      values they were written from. */
  lemma WrittenComposites(base: map<string, string>, flat: seq<string>, u: User, now: string)
    requires WritesUser(flat, u, now)
    ensures DecodeUser(base + PairsMap(flat))["blockedBy"] == Parsed(IdsJson(u.blockedBy))
    ensures DecodeUser(base + PairsMap(flat))["notifications"] == Parsed(NotificationsJson(u.notifications))
    ensures DecodeUser(base + PairsMap(flat))["social"] == Parsed(SocialJson(u.social))
  {
    var h := base + PairsMap(flat);
    UserFieldNamesAt();
    EncodingsWellFormed(u.blockedBy, u.notifications, u.social, Reactions(0, 0, 0, 0, 0, 0));
    WrittenAt(base, flat, 8);
    WrittenAt(base, flat, 12);
    WrittenAt(base, flat, 13);
    ParseJsonOfStringify(IdsJson(u.blockedBy));
    ParseJsonOfStringify(NotificationsJson(u.notifications));
    ParseJsonOfStringify(SocialJson(u.social));
    DecodeParsed(h, "blockedBy", IdsJson(u.blockedBy));
    DecodeParsed(h, "notifications", NotificationsJson(u.notifications));
    DecodeParsed(h, "social", SocialJson(u.social));
  }

  lemma DecodeBlocked(h: map<string, string>)
    requires "blocked" in h
    ensures DecodeUser(h)["blocked"] == Parsed(ParseJson(h["blocked"] + ";"))
  {
  }

  /** `blocked` does not come back: `${blocked};` is not JSON, so the text
      itself, semicolon included, is returned. */
  lemma WrittenBlocked(base: map<string, string>, flat: seq<string>, u: User, now: string)
    requires WritesUser(flat, u, now)
    ensures DecodeUser(base + PairsMap(flat))["blocked"] == Parsed(Str(Stringify(IdsJson(u.blocked)) + ";"))
  {
    UserFieldNamesAt();
    EncodingsWellFormed(u.blocked, u.notifications, u.social, Reactions(0, 0, 0, 0, 0, 0));
    WrittenAt(base, flat, 7);
    ParseJsonOfSemicolon(IdsJson(u.blocked));
    DecodeBlocked(base + PairsMap(flat));
  }

  /** The date and the text fields of the first list are read back from
      wherever they are in the hash: the date through `new Date(…)`, the
      other two as the text itself. */
  lemma DecodeFirstList(h: map<string, string>, username: string, count: string, date: string)
    requires "createdAt" in h && h["createdAt"] == date
    requires "username" in h && h["username"] == username
    requires "postCount" in h && h["postCount"] == count
    ensures DecodeUser(h)["createdAt"] == DateArg(ParseJson(date))
    ensures DecodeUser(h)["username"] == Raw(username)
    ensures DecodeUser(h)["postCount"] == Raw(count)
  {
    DecodeRaw(h, "username");
    DecodeRaw(h, "postCount");
  }

  lemma WrittenFirstValues(base: map<string, string>, flat: seq<string>, u: User, now: string)
    requires WritesUser(flat, u, now)
    ensures var h := base + PairsMap(flat);
      && "createdAt" in h && h["createdAt"] == now
      && "username" in h && h["username"] == u.username
      && "postCount" in h && h["postCount"] == IntToString(u.postsCount)
  {
    UserFieldNamesAt();
    WrittenAt(base, flat, 2);
    WrittenAt(base, flat, 5);
    WrittenAt(base, flat, 6);
  }

  /** The creation date read back is the date of the save, whatever the
      document said; `username` and `postCount` are returned as written. */
  lemma WrittenFirstList(base: map<string, string>, flat: seq<string>, u: User, now: string)
    requires WritesUser(flat, u, now)
    ensures "username" in base + PairsMap(flat) && "postCount" in base + PairsMap(flat)
    ensures DecodeUser(base + PairsMap(flat))["createdAt"] == DateArg(ParseJson(now))
    ensures DecodeUser(base + PairsMap(flat))["username"] == Raw(u.username)
    ensures DecodeUser(base + PairsMap(flat))["postCount"] == Raw(IntToString(u.postsCount))
  {
    WrittenFirstValues(base, flat, u, now);
    DecodeFirstList(base + PairsMap(flat), u.username, IntToString(u.postsCount), now);
  }

  /** Reading back a saved user: the two follow counters and the three
      composites `blockedBy`, `notifications`, `social` come back as they
      were; `blocked` does not, because `${blocked};` is not JSON and the
      text itself is returned; the creation date is the date of the save,
      whatever the document said; the text fields are returned as written. */
  lemma DecodeSavedUser(db: Db, key: string, score: int, u: User, now: string)
    ensures "username" in SavedHash(db, key, score, u, now) && "postCount" in SavedHash(db, key, score, u, now)
    ensures var d := DecodeUser(SavedHash(db, key, score, u, now));
      && d["followersCount"] == Parsed(Num(u.followersCount))
      && d["followingCount"] == Parsed(Num(u.followingCount))
      && d["blockedBy"] == Parsed(IdsJson(u.blockedBy))
      && d["notifications"] == Parsed(NotificationsJson(u.notifications))
      && d["social"] == Parsed(SocialJson(u.social))
      && d["blocked"] == Parsed(Str(Stringify(IdsJson(u.blocked)) + ";"))
      && d["createdAt"] == DateArg(ParseJson(now))
      && d["username"] == Raw(u.username)
      && d["postCount"] == Raw(IntToString(u.postsCount))
  {
    var flat, base := UserFields(u, now), HashOf(db, "users:" + key);
    SavedHashIs(db, key, score, u, now);
    UserFieldsWriteUser(u, now);
    WrittenCounters(base, flat, u, now);
    WrittenComposites(base, flat, u, now);
    WrittenBlocked(base, flat, u, now);
    WrittenFirstList(base, flat, u, now);
  }

  /** A field that is not one of the user's names, absent before, is
      absent after writing an argument list laid out with those names. */
  lemma NotWritten(base: map<string, string>, flat: seq<string>, f: string)
    requires |flat| % 2 == 0 && NamedAt(flat, UserFieldNames)
    requires f !in UserFieldNames && f !in base
    ensures f !in base + PairsMap(flat)
  {
    NamesByLayout(flat, UserFieldNames);
  }

  lemma PostsCountNotWritten()
    ensures "postsCount" !in UserFieldNames
  {
  }

  /** `postsCount` is never written (the count goes to `postCount`): unless
      the hash already had such a field, it is read back as the text
      "undefined", not a number. */
  lemma DecodeSavedPostsCount(db: Db, key: string, score: int, u: User, now: string)
    requires "postsCount" !in HashOf(db, "users:" + key)
    ensures "postsCount" !in SavedHash(db, key, score, u, now)
    ensures DecodeUser(SavedHash(db, key, score, u, now))["postsCount"] == Parsed(Str("undefined"))
  {
    SavedHashIs(db, key, score, u, now);
    UserFieldsLayout(u, now);
    PostsCountNotWritten();
    NotWritten(HashOf(db, "users:" + key), UserFields(u, now), "postsCount");
    DecodeMissingField(SavedHash(db, key, score, u, now), "postsCount");
  }

  /** A field the hash does not have decodes to the text "undefined" rather
      than to a zero or an error. */
  lemma DecodeMissingField(h: map<string, string>, f: string)
    requires f in DecodedNames && f != "blocked" && f != "createdAt" && f !in h
    ensures DecodeUser(h)[f] == Parsed(Str("undefined"))
  {
    ParseJsonOfUndefined();
  }
}
