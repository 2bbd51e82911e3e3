/** `Create.post`: the post record built from the session's user and the
    request body, and its one save to the post cache. */
module CreatePost {
  import opened Wrappers
  import opened JsText
  import opened Json
  import opened Entities
  import opened RedisStore
  import opened Http
  import opened JoiValidation
  import PC = PostCache

  const PostCreated: string := "Post created successfully"

  /** What `req.currentUser!.userId` raises when no user is on the request. */
  const NoCurrentUser: string := "Cannot read properties of undefined (reading 'userId')"

  /** The fields of the request body `post` destructures; any of them may
      be missing. */
  datatype PostBody = PostBody(
    post: Option<string>,
    bgColor: Option<string>,
    privacy: Option<string>,
    feelings: Option<string>,
    gifUrl: Option<string>,
    profilePicture: Option<string>,
    imgVersion: Option<string>,
    imgId: Option<string>,
    image: Option<string>)

  const NoReactions: Reactions := Reactions(0, 0, 0, 0, 0, 0)

  /** `createdPost`: author fields from the session's user, content fields
      from the body, no comments, no reactions, no image, and `now` for
      `new Date()`. The body's `imgVersion`, `imgId` and `image` are read
      but not used. */
  function CreatedPost(user: AuthPayload, body: PostBody, postObjectId: string, now: string): Post {
    Post(postObjectId, user.userId, user.username, user.email, user.avatarColor, body.profilePicture, body.post,
      body.bgColor, body.feelings, body.privacy, body.gifUrl, 0, "", "", NoReactions, now)
  }

  /** The image fields of the body never reach the cache: two bodies that
      differ only there flatten to the same argument list. */
  lemma ImageFieldsIgnored(user: AuthPayload, body: PostBody, imgVersion: Option<string>, imgId: Option<string>,
                           image: Option<string>, postObjectId: string, now: string)
    ensures PC.PostFields(CreatedPost(user, body, postObjectId, now))
         == PC.PostFields(CreatedPost(user, body.(imgVersion := imgVersion, imgId := imgId, image := image), postObjectId, now))
  {
  }

  /** The values the new post is flattened to: the author's four fields
      from the session, the body's six fields rendered with `${…}`, a
      comment count of "0", empty image fields and the time of the call. */
  lemma CreatedPostValues(user: AuthPayload, body: PostBody, postObjectId: string, now: string)
    ensures var v := PC.PostValues(CreatedPost(user, body, postObjectId, now));
      && |v| == 16
      && v[0] == postObjectId
      && v[1] == user.userId && v[2] == user.username && v[3] == user.email && v[4] == user.avatarColor
      && v[5] == Template(body.profilePicture) && v[6] == Template(body.post) && v[7] == Template(body.bgColor)
      && v[8] == Template(body.feelings) && v[9] == Template(body.privacy) && v[10] == Template(body.gifUrl)
      && v[11] == "0" && v[12] == "" && v[13] == "" && v[15] == now
  {
    PC.PostValuesAt(CreatedPost(user, body, postObjectId, now));
    assert IntToString(0) == "0";
  }

  /** In the post's hash, whatever it held before, the comment count reads
      "0", the image fields are empty, and the reactions parse back to six
      zero counters. */
  lemma CreatedPostHash(base: map<string, string>, user: AuthPayload, body: PostBody, postObjectId: string, now: string)
    ensures |PC.PostFields(CreatedPost(user, body, postObjectId, now))| % 2 == 0
    ensures var h := base + PairsMap(PC.PostFields(CreatedPost(user, body, postObjectId, now)));
      && "commentsCount" in h && "imgVersion" in h && "imgId" in h && "reactions" in h
      && h["commentsCount"] == "0" && h["imgVersion"] == "" && h["imgId"] == ""
      && Parse(h["reactions"]) == Some(ReactionsJson(NoReactions))
  {
    var p := CreatedPost(user, body, postObjectId, now);
    PC.WrittenCount(base, p);
    PC.WrittenImage(base, p);
    assert IntToString(0) == "0";
    PC.WrittenReactions(base, p);
  }

  /** The post route: what `post` leaves once the decorator and the
      session's user are past. */
  predicate Posted(wasOpen: bool, before: Db, after: Db, user: AuthPayload, body: PostBody, postObjectId: string,
                   now: string, net: Replies, end: Ending<Message>)
  {
    var conn := wasOpen || net.connect;
    && after == (if conn && net.first && net.second
                 then PC.SavedPostDb(before, postObjectId, user.userId, user.uId,
                                     PC.PostFields(CreatedPost(user, body, postObjectId, now)))
                 else before)
    && end == (if conn && net.first then Respond(CREATED, Message(PostCreated))
               else Throw(AppError(ServerError, PC.SaveError)))
  }

  class Create {
    const postCache: PC.PostCache

    constructor (postCache: PC.PostCache)
      ensures this.postCache == postCache
    {
      this.postCache := postCache;
    }

    /** `post`, decorated with `joiValidation(postSchema)`. A rejected body
        ends the request before anything else. The route only checks that
        a session token exists, so `req.currentUser` may be missing; then
        reading its `userId` throws. Otherwise the post is saved once, under
        its new id, for the session's user id and uId, and the answer is
        201; a failed save rejects the handler with the cache's error. No
        job is queued and nothing is emitted. */
    method Post(req: Request, validation: Option<ValidationError>, body: PostBody, postObjectId: string, now: string,
                net: Replies)
      returns (end: Ending<Message>)
      modifies postCache.client
      ensures Check<Message>(validation).Halt? || req.currentUser.None? ==>
        && postCache.client.Model() == old(postCache.client.Model())
        && postCache.client.isOpen == old(postCache.client.isOpen)
      ensures Check<Message>(validation).Halt? ==> end == Check<Message>(validation).end
      ensures Check<Message>(validation).Invoke? && req.currentUser.None? ==>
        end == Throw(AppError(TypeError, NoCurrentUser))
      ensures Check<Message>(validation).Invoke? && req.currentUser.Some? ==>
        && postCache.client.isOpen == (old(postCache.client.isOpen) || net.connect)
        && Posted(old(postCache.client.isOpen), old(postCache.client.Model()), postCache.client.Model(),
                  req.currentUser.value, body, postObjectId, now, net, end)
    {
      var gate := Check<Message>(validation);
      if gate.Halt? {
        return gate.end;
      }
      if req.currentUser.None? {
        return Throw(AppError(TypeError, NoCurrentUser));
      }
      var user := req.currentUser.value;
      var createdPost := CreatedPost(user, body, postObjectId, now);
      var saved := postCache.SavePostToCache(createdPost, user.userId, postObjectId, user.uId, net);
      if saved.Fail? {
        return Throw(AppError(ServerError, saved.error));
      }
      return Respond(CREATED, Message(PostCreated));
    }
  }
}
