/** `PostCache`: a post flattened into the hash `posts:<key>` and ranked in
    the sorted set `post`, and the author's cached post counter, read with
    HMGET and written back inside the same `multi` as the post. */
module PostCache {
  import opened Wrappers
  import opened JsText
  import opened Json
  import opened JsonLaws
  import opened Entities
  import opened RedisStore
  import UC = UserCache

  const SaveError: string := "Server error, try again"

  /** The names under which a post is stored, list by list, in the order
      they are written. */
  const PostFirstNames: seq<string> :=
    ["_id", "userId", "username", "email", "avatarColor", "profilePicture", "post", "bgColor",
     "feelings", "privacy", "gifUrl"]
  const PostSecondNames: seq<string> := ["commentsCount", "imgVersion", "imgId", "reactions", "createdAt"]
  const PostFieldNames: seq<string> := PostFirstNames + PostSecondNames

  /** The values of the first list, each rendered with `${…}`: a field the
      request body left out renders as "undefined". */
  function FirstValues(p: Post): seq<string> {
    [p.id, p.userId, p.username, p.email, p.avatarColor, Template(p.profilePicture), Template(p.post),
     Template(p.bgColor), Template(p.feelings), Template(p.privacy), Template(p.gifUrl)]
  }

  /** The values of the second list: the reactions as JSON, the rest with `${…}`. */
  function SecondValues(p: Post): seq<string> {
    [IntToString(p.commentsCount), p.imgVersion, p.imgId, Stringify(ReactionsJson(p.reactions)), p.createdAt]
  }

  /** `dataToSave`: the HSET argument list. */
  function PostFields(p: Post): seq<string> {
    Pairs(PostFirstNames, FirstValues(p)) + Pairs(PostSecondNames, SecondValues(p))
  }

  /** All sixteen values, in the order they are written. */
  function PostValues(p: Post): seq<string> {
    FirstValues(p) + SecondValues(p)
  }

  /** The names are sixteen distinct strings. */
  lemma PostFieldNamesDistinct()
    ensures |PostFieldNames| == 16 && Distinct(PostFieldNames)
  {
  }

  /** The argument list pairs the sixteen names with the sixteen values. */
  lemma PostFieldsPairs(p: Post)
    ensures |PostValues(p)| == 16
    ensures PostFields(p) == Pairs(PostFieldNames, PostValues(p))
  {
    PairsConcat(PostFirstNames, FirstValues(p), PostSecondNames, SecondValues(p));
  }

  /** 32 strings: the fixed names at the even positions, each followed by
      its value; an even length, as HSET requires. */
  lemma PostFieldsLayout(p: Post)
    ensures |PostFields(p)| == 32 && |PostFields(p)| % 2 == 0
    ensures NamedAt(PostFields(p), PostFieldNames)
  {
    PostFieldsPairs(p);
  }

  /** The sixteen values, position by position. */
  lemma PostValuesAt(p: Post)
    ensures var v := PostValues(p);
      && |v| == 16
      && v[0] == p.id && v[1] == p.userId && v[2] == p.username && v[3] == p.email && v[4] == p.avatarColor
      && v[5] == Template(p.profilePicture) && v[6] == Template(p.post) && v[7] == Template(p.bgColor)
      && v[8] == Template(p.feelings) && v[9] == Template(p.privacy) && v[10] == Template(p.gifUrl)
      && v[11] == IntToString(p.commentsCount) && v[12] == p.imgVersion && v[13] == p.imgId
      && v[15] == p.createdAt
  {
    var f, s := FirstValues(p), SecondValues(p);
    assert |f| == 11 && |s| == 5;
    assert PostValues(p)[..11] == f && PostValues(p)[11..] == s;
  }

  lemma ReactionsValueAt(p: Post)
    ensures PostValues(p)[14] == Stringify(ReactionsJson(p.reactions))
  {
    assert |FirstValues(p)| == 11;
  }

  /** Whatever the hash held before, after writing the post's names paired
      with sixteen values, the j-th name holds the j-th value. */
  lemma PostWrittenAt(base: map<string, string>, values: seq<string>, j: nat)
    requires |values| == 16 && j < 16
    ensures |Pairs(PostFieldNames, values)| % 2 == 0
    ensures PostFieldNames[j] in base + PairsMap(Pairs(PostFieldNames, values))
    ensures (base + PairsMap(Pairs(PostFieldNames, values)))[PostFieldNames[j]] == values[j]
  {
    var flat := Pairs(PostFieldNames, values);
    PostFieldNamesDistinct();
    LookupByLayout(flat, PostFieldNames, j);
  }

  /** The reactions' JSON text parses back to the reactions. */
  lemma ReactionsRoundTrip(r: Reactions)
    ensures Parse(Stringify(ReactionsJson(r))) == Some(ReactionsJson(r))
  {
    EncodingsWellFormed([], Notifications(false, false, false, false), Social("", "", "", ""), r);
    RoundTrip(ReactionsJson(r));
  }

  /** The post's fifteenth value parses back to its reactions. */
  lemma ReactionsValueParses(p: Post)
    ensures |PostValues(p)| == 16
    ensures Parse(PostValues(p)[14]) == Some(ReactionsJson(p.reactions))
  {
    PostFieldsPairs(p);
    ReactionsValueAt(p);
    ReactionsRoundTrip(p.reactions);
  }

  /** Written into `posts:<key>`, the reactions field holds text that
      `JSON.parse` reads back as the reactions, whatever the hash held
      before. */
  lemma WrittenReactions(base: map<string, string>, p: Post)
    ensures |PostFields(p)| % 2 == 0
    ensures "reactions" in base + PairsMap(PostFields(p))
    ensures Parse((base + PairsMap(PostFields(p)))["reactions"]) == Some(ReactionsJson(p.reactions))
  {
    WrittenField(base, p, 14);
    assert PostFieldNames[14] == "reactions";
    ReactionsValueParses(p);
  }

  /** Written into `posts:<key>`, the j-th name holds the post's j-th
      value, whatever the hash held before. */
  lemma WrittenField(base: map<string, string>, p: Post, j: nat)
    requires j < 16
    ensures |PostFields(p)| % 2 == 0 && |PostValues(p)| == 16
    ensures var h := base + PairsMap(PostFields(p));
      PostFieldNames[j] in h && h[PostFieldNames[j]] == PostValues(p)[j]
  {
    PostFieldsPairs(p);
    PostWrittenAt(base, PostValues(p), j);
  }

  /** Written into `posts:<key>`, the comment count holds the post's own,
      whatever the hash held before. */
  lemma WrittenCount(base: map<string, string>, p: Post)
    ensures |PostFields(p)| % 2 == 0
    ensures var h := base + PairsMap(PostFields(p));
      "commentsCount" in h && h["commentsCount"] == IntToString(p.commentsCount)
  {
    WrittenField(base, p, 11);
    assert |FirstValues(p)| == 11;
    assert PostFieldNames[11] == "commentsCount";
  }

  /** Written into `posts:<key>`, the image fields hold the post's own,
      whatever the hash held before. */
  lemma WrittenImage(base: map<string, string>, p: Post)
    ensures |PostFields(p)| % 2 == 0
    ensures var h := base + PairsMap(PostFields(p));
      && "imgVersion" in h && "imgId" in h
      && h["imgVersion"] == p.imgVersion && h["imgId"] == p.imgId
  {
    WrittenField(base, p, 12);
    WrittenField(base, p, 13);
    assert |FirstValues(p)| == 11;
    assert PostFieldNames[12] == "imgVersion" && PostFieldNames[13] == "imgId";
  }

  // ---------------------------------------------------------------------
  // The author's counter
  // ---------------------------------------------------------------------

  /** The field of a hash as HMGET answers it: `None` is `null`. */
  function StoredField(db: Db, key: string, f: string): Option<string> {
    if f in HashOf(db, key) then Some(HashOf(db, key)[f]) else None
  }

  /** `parseInt(postCount[0], 10)`: `null` is read as the text "null". */
  function CountRead(reply: Option<string>): Option<int> {
    ParseInt(if reply.Some? then reply.value else "null")
  }

  /** `${count}` for `count = parseInt(postCount[0], 10) + 1`: "NaN" when
      nothing numeric was read. */
  function CounterText(reply: Option<string>): string {
    match CountRead(reply)
    case Some(n) => NumberText(Some(n + 1))
    case None => NumberText(None)
  }

  /** A stored count read back is one more than it was. */
  lemma CounterOfCount(n: int)
    ensures CountRead(Some(IntToString(n))) == Some(n)
    ensures CounterText(Some(IntToString(n))) == IntToString(n + 1)
  {
    ParseIntOfIntToString(n);
  }

  /** A missing field, or a stored "NaN", makes the new count "NaN". */
  lemma CounterOfNothing()
    ensures CountRead(None) == None && CounterText(None) == "NaN"
    ensures CountRead(Some("NaN")) == None && CounterText(Some("NaN")) == "NaN"
    ensures CountRead(Some("undefined")) == None && CounterText(Some("undefined")) == "NaN"
  {
    ParseIntOfNonNumerals();
  }

  // ---------------------------------------------------------------------
  // The queued writes
  // ---------------------------------------------------------------------

  /** The three commands queued on the `multi`: rank the post under the
      score (`parseInt(uId, 10)`), write the post, write the counter under
      `postCount`. */
  function QueuedWrites(key: string, currentUserId: string, score: Option<int>, dataToSave: seq<string>, count: string)
    : (cs: seq<Command>)
    ensures |cs| == 3
  {
    [ZAdd("post", score, key), HSet("posts:" + key, dataToSave), HSet("users:" + currentUserId, ["postCount", count])]
  }

  /** The reference effect of a save whose every step succeeded: the
      queued writes, with the counter computed from what HMGET read in db. */
  function SavedPostDb(db: Db, key: string, currentUserId: string, uId: string, dataToSave: seq<string>): Db {
    ApplyAll(db, QueuedWrites(key, currentUserId, ParseInt(uId), dataToSave,
      CounterText(StoredField(db, "users:" + currentUserId, "postsCount"))))
  }

  /** EXEC of three commands, whether listed at once or queued on the
      `multi` one at a time, runs the first, then the second, then the
      third. */
  lemma ApplyThree(db: Db, a: Command, b: Command, c: Command)
    ensures ApplyAll(db, [a, b, c]) == Apply(Apply(Apply(db, a), b), c)
    ensures ApplyAll(db, [] + [a] + [b] + [c]) == ApplyAll(db, [a, b, c])
  {
    ApplyAllSnoc(db, [], a);
    ApplyAllSnoc(db, [a], b);
    ApplyAllSnoc(db, [a, b], c);
    assert [] + [a] == [a] && [a] + [b] == [a, b] && [a, b] + [c] == [a, b, c];
    assert ApplyAll(db, []) == db;
    assert [] + [a] + [b] + [c] == [a, b, c];
  }

  lemma CounterPairs(count: string)
    ensures PairsMap(["postCount", count]) == map["postCount" := count]
  {
    assert ["postCount", count][..0] == [];
  }

  /** A post's hash is never the author's hash. */
  lemma KeysDiffer(key: string, currentUserId: string)
    ensures "posts:" + key != "users:" + currentUserId
  {
    assert ("posts:" + key)[0] == 'p';
    assert ("users:" + currentUserId)[0] == 'u';
  }

  /** The ZADD of a score, `NaN` (None) leaving the set alone, touches no hash. */
  lemma ZAddStep(db: Db, score: Option<int>, key: string)
    ensures var r := Apply(db, ZAdd("post", score, key));
      && (forall k :: HashOf(r, k) == HashOf(db, k))
      && ZsetOf(r, "post") == (if score.Some? then ZsetOf(db, "post")[key := score.value] else ZsetOf(db, "post"))
      && (forall k :: k != "post" ==> ZsetOf(r, k) == ZsetOf(db, k))
  {
  }

  /** An HSET writes its pairs over one hash and touches no sorted set and
      no other hash; Redis rejects an odd argument list, which then changes
      nothing. */
  lemma HSetStep(db: Db, hashKey: string, flat: seq<string>)
    ensures var r := Apply(db, HSet(hashKey, flat));
      && (forall k :: ZsetOf(r, k) == ZsetOf(db, k))
      && HashOf(r, hashKey) == (if |flat| % 2 == 0 then HashOf(db, hashKey) + PairsMap(flat) else HashOf(db, hashKey))
      && (forall k :: k != hashKey ==> HashOf(r, k) == HashOf(db, k))
  {
  }

  /** The counter's HSET sets the one field `postCount` of the author's hash. */
  lemma CounterStep(db: Db, currentUserId: string, count: string)
    ensures var r := Apply(db, HSet("users:" + currentUserId, ["postCount", count]));
      && (forall k :: ZsetOf(r, k) == ZsetOf(db, k))
      && HashOf(r, "users:" + currentUserId) == HashOf(db, "users:" + currentUserId)["postCount" := count]
      && (forall k :: k != "users:" + currentUserId ==> HashOf(r, k) == HashOf(db, k))
  {
    HSetStep(db, "users:" + currentUserId, ["postCount", count]);
    CounterPairs(count);
    assert HashOf(db, "users:" + currentUserId) + map["postCount" := count]
        == HashOf(db, "users:" + currentUserId)["postCount" := count];
  }

  /** EXEC runs the three queued writes one after the other. */
  lemma QueuedSteps(db: Db, key: string, currentUserId: string, score: Option<int>, flat: seq<string>, count: string)
    ensures ApplyAll(db, QueuedWrites(key, currentUserId, score, flat, count))
         == Apply(Apply(Apply(db, ZAdd("post", score, key)), HSet("posts:" + key, flat)),
                  HSet("users:" + currentUserId, ["postCount", count]))
  {
    ApplyThree(db, ZAdd("post", score, key), HSet("posts:" + key, flat), HSet("users:" + currentUserId, ["postCount", count]));
  }

  /** EXEC of the queued writes when the argument list has even length:
      `post` ranks the post by the score unless it is `NaN`, which Redis
      rejects; `posts:<key>` gets the pairs; the author's hash gets
      `postCount`; nothing else changes. */
  lemma QueuedWritesEffect(db: Db, key: string, currentUserId: string, score: Option<int>, flat: seq<string>, count: string)
    requires |flat| % 2 == 0
    ensures var r := ApplyAll(db, QueuedWrites(key, currentUserId, score, flat, count));
      && ZsetOf(r, "post") == (if score.Some? then ZsetOf(db, "post")[key := score.value] else ZsetOf(db, "post"))
      && HashOf(r, "posts:" + key) == HashOf(db, "posts:" + key) + PairsMap(flat)
      && HashOf(r, "users:" + currentUserId) == HashOf(db, "users:" + currentUserId)["postCount" := count]
      && (forall k :: k != "post" ==> ZsetOf(r, k) == ZsetOf(db, k))
      && (forall k :: k != "posts:" + key && k != "users:" + currentUserId ==> HashOf(r, k) == HashOf(db, k))
  {
    var d1 := Apply(db, ZAdd("post", score, key));
    var d2 := Apply(d1, HSet("posts:" + key, flat));
    QueuedSteps(db, key, currentUserId, score, flat, count);
    KeysDiffer(key, currentUserId);
    ZAddStep(db, score, key);
    HSetStep(d1, "posts:" + key, flat);
    CounterStep(d2, currentUserId, count);
  }

  /** Whatever the argument list, EXEC of the queued writes sets the
      author's `postCount` to the count and no other field of that hash. */
  lemma QueuedCounter(db: Db, key: string, currentUserId: string, score: Option<int>, flat: seq<string>, count: string)
    ensures HashOf(ApplyAll(db, QueuedWrites(key, currentUserId, score, flat, count)), "users:" + currentUserId)
         == HashOf(db, "users:" + currentUserId)["postCount" := count]
  {
    var d1 := Apply(db, ZAdd("post", score, key));
    var d2 := Apply(d1, HSet("posts:" + key, flat));
    QueuedSteps(db, key, currentUserId, score, flat, count);
    KeysDiffer(key, currentUserId);
    ZAddStep(db, score, key);
    HSetStep(d1, "posts:" + key, flat);
    CounterStep(d2, currentUserId, count);
  }

  class PostCache {
    const client: Store

    constructor (client: Store)
      ensures this.client == client
    {
      this.client := client;
    }

    /** `savePostToCache({createdPost, currentUserId, key, uId})`: open the
        connection if it is closed, read the author's `postsCount` with
        HMGET, queue the ZADD, the post's HSET and the counter's HSET on a
        `multi`, and send it with EXEC. A failure before EXEC is reported as
        a server error; EXEC is not awaited, so its failure is not. */
    method SavePostToCache(createdPost: Post, currentUserId: string, key: string, uId: string, net: Replies)
      returns (r: Outcome<string>)
      modifies client
      ensures var conn := old(client.isOpen) || net.connect;
        && client.isOpen == conn
        && (r == Pass <==> conn && net.first)
        && (r.Fail? ==> r.error == SaveError)
        && client.Model()
           == if conn && net.first && net.second
              then SavedPostDb(old(client.Model()), key, currentUserId, uId, PostFields(createdPost))
              else old(client.Model())
    {
      var dataToSave := PostFields(createdPost);
      if !client.isOpen {
        var connected := client.Connect(net.connect);
        if !connected {
          return Fail(SaveError);
        }
      }
      var postCount := client.HMGet("users:" + currentUserId, "postsCount", net.first);
      if postCount.None? {
        return Fail(SaveError);
      }
      var multi: seq<Command> := [];
      var rank := ZAdd("post", ParseInt(uId), key);
      var write := HSet("posts:" + key, dataToSave);
      multi := multi + [rank];
      multi := multi + [write];
      var count := CounterText(postCount.value);
      var counter := HSet("users:" + currentUserId, ["postCount", count]);
      multi := multi + [counter];
      ApplyThree(client.Model(), rank, write, counter);
      var _ := client.Exec(multi, net.second);
      return Pass;
    }
  }

  // ---------------------------------------------------------------------
  // What the counter does over time
  // ---------------------------------------------------------------------

  /** A save leaves the author's `postsCount` as it was: the count is read
      from `postsCount` but written to `postCount`. */
  lemma SaveKeepsPostsCount(db: Db, key: string, currentUserId: string, score: Option<int>, flat: seq<string>, count: string)
    ensures StoredField(ApplyAll(db, QueuedWrites(key, currentUserId, score, flat, count)), "users:" + currentUserId, "postsCount")
         == StoredField(db, "users:" + currentUserId, "postsCount")
  {
    QueuedCounter(db, key, currentUserId, score, flat, count);
  }

  /** The counter never advances: after one post, the next post by the
      same author writes the same `postCount` as the first did, and so
      leaves the author's hash as the first left it. */
  lemma CounterNeverAdvances(db: Db, key1: string, flat1: seq<string>, key2: string, flat2: seq<string>,
                             currentUserId: string, uId: string)
    ensures var once := SavedPostDb(db, key1, currentUserId, uId, flat1);
      && HashOf(once, "users:" + currentUserId)
         == HashOf(db, "users:" + currentUserId)["postCount" := CounterText(StoredField(db, "users:" + currentUserId, "postsCount"))]
      && HashOf(SavedPostDb(once, key2, currentUserId, uId, flat2), "users:" + currentUserId)
         == HashOf(once, "users:" + currentUserId)
  {
    var score := ParseInt(uId);
    var count := CounterText(StoredField(db, "users:" + currentUserId, "postsCount"));
    var once := ApplyAll(db, QueuedWrites(key1, currentUserId, score, flat1, count));
    QueuedCounter(db, key1, currentUserId, score, flat1, count);
    SaveKeepsPostsCount(db, key1, currentUserId, score, flat1, count);
    QueuedCounter(once, key2, currentUserId, score, flat2, count);
  }

  /** The counter is read before the `multi` and written by it: whatever
      was written to the author's hash in between, `postCount` ends up as
      the count computed from the earlier read, so that write is lost. */
  lemma CounterOverwrites(between: Db, key: string, currentUserId: string, score: Option<int>, flat: seq<string>,
                          read: Option<string>)
    ensures var r := ApplyAll(between, QueuedWrites(key, currentUserId, score, flat, CounterText(read)));
      && "postCount" in HashOf(r, "users:" + currentUserId)
      && HashOf(r, "users:" + currentUserId)["postCount"] == CounterText(read)
  {
    QueuedCounter(between, key, currentUserId, score, flat, CounterText(read));
  }

  /** Two saves that both read a stored count n before either EXEC runs
      leave the counter at n + 1, not n + 2. */
  lemma ConcurrentSavesCountOnce(db: Db, n: int, key1: string, flat1: seq<string>, key2: string, flat2: seq<string>,
                                 currentUserId: string, score: Option<int>)
    requires StoredField(db, "users:" + currentUserId, "postsCount") == Some(IntToString(n))
    ensures var count := CounterText(StoredField(db, "users:" + currentUserId, "postsCount"));
      var both := ApplyAll(ApplyAll(db, QueuedWrites(key1, currentUserId, score, flat1, count)),
                           QueuedWrites(key2, currentUserId, score, flat2, count));
      "postCount" in HashOf(both, "users:" + currentUserId)
      && HashOf(both, "users:" + currentUserId)["postCount"] == IntToString(n + 1)
  {
    var read := StoredField(db, "users:" + currentUserId, "postsCount");
    CounterOfCount(n);
    CounterOverwrites(ApplyAll(db, QueuedWrites(key1, currentUserId, score, flat1, CounterText(read))),
      key2, currentUserId, score, flat2, read);
  }

  /** An author whose hash has no `postsCount` gets `postCount` "NaN". */
  lemma MissingCountIsNaN(db: Db, key: string, currentUserId: string, uId: string, flat: seq<string>)
    requires "postsCount" !in HashOf(db, "users:" + currentUserId)
    ensures "postCount" in HashOf(SavedPostDb(db, key, currentUserId, uId, flat), "users:" + currentUserId)
    ensures HashOf(SavedPostDb(db, key, currentUserId, uId, flat), "users:" + currentUserId)["postCount"] == "NaN"
  {
    CounterOfNothing();
    CounterOverwrites(db, key, currentUserId, ParseInt(uId), flat, None);
  }

  /** An author with no `postsCount` reads back, after a post, the
      `postCount` text "NaN". */
  lemma MissingCountReadsNaN(db: Db, key: string, currentUserId: string, uId: string, flat: seq<string>)
    requires "postsCount" !in HashOf(db, "users:" + currentUserId)
    ensures var h := HashOf(SavedPostDb(db, key, currentUserId, uId, flat), "users:" + currentUserId);
      && "postCount" in h && h["postCount"] == "NaN"
      && UC.DecodeUser(h)["postCount"] == UC.Raw("NaN")
  {
    MissingCountIsNaN(db, key, currentUserId, uId, flat);
    NaNCountDecodes(HashOf(SavedPostDb(db, key, currentUserId, uId, flat), "users:" + currentUserId));
  }

  /** `getUserFromCache` does not convert `postCount`: its text comes back as is. */
  lemma NaNCountDecodes(h: map<string, string>)
    requires "postCount" in h && h["postCount"] == "NaN"
    ensures UC.DecodeUser(h)["postCount"] == UC.Raw("NaN")
  {
    UC.DecodeRaw(h, "postCount");
  }

  /** A user just saved at sign-up has no `postsCount`, so their first post
      sets their `postCount` to "NaN", and reading the user back returns
      that text. */
  lemma FirstPostAfterSignUp(db: Db, userKey: string, score: int, u: User, now: string,
                             postKey: string, uId: string, flat: seq<string>)
    requires "postsCount" !in HashOf(db, "users:" + userKey)
    ensures var h := HashOf(SavedPostDb(UC.SavedDb(db, userKey, score, u, now), postKey, userKey, uId, flat), "users:" + userKey);
      && "postCount" in h && h["postCount"] == "NaN"
      && UC.DecodeUser(h)["postCount"] == UC.Raw("NaN")
  {
    UC.DecodeSavedPostsCount(db, userKey, score, u, now);
    MissingCountReadsNaN(UC.SavedDb(db, userKey, score, u, now), postKey, userKey, uId, flat);
  }
}
