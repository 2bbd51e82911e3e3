/** The records the core builds and caches: the auth record, the user
    document, the post document and the token payload, with the JSON
    `JSON.stringify` writes for their composite fields. Object ids are
    their hexadecimal text; dates are their text. */
module Entities {
  import opened Wrappers
  import opened Json

  /** `IAuthDocument` as `signupData` builds it. */
  datatype AuthRecord = AuthRecord(
    id: string,
    uId: string,
    username: string,
    email: string,
    password: string,
    avatarColor: string,
    createdAt: string)

  datatype Notifications = Notifications(messages: bool, reactions: bool, comments: bool, follows: bool)

  datatype Social = Social(facebook: string, instagram: string, twitter: string, youtube: string)

  /** `IUserDocument`: the fields `userData` sets, and the creation date it
      may carry (`userData` sets none). */
  datatype User = User(
    id: string,
    authId: string,
    uId: string,
    username: string,
    email: string,
    password: string,
    avatarColor: string,
    profilePicture: string,
    blocked: seq<string>,
    blockedBy: seq<string>,
    work: string,
    location: string,
    school: string,
    quote: string,
    bgImageVersion: string,
    bgImageId: string,
    followersCount: int,
    followingCount: int,
    postsCount: int,
    notifications: Notifications,
    social: Social,
    createdAt: Option<string>)

  datatype Reactions = Reactions(like: int, love: int, haha: int, wow: int, angry: int, sad: int)

  /** `IPostDocument`. The fields taken from the request body may be
      missing (`None`). */
  datatype Post = Post(
    id: string,
    userId: string,
    username: string,
    email: string,
    avatarColor: string,
    profilePicture: Option<string>,
    post: Option<string>,
    bgColor: Option<string>,
    feelings: Option<string>,
    privacy: Option<string>,
    gifUrl: Option<string>,
    commentsCount: int,
    imgVersion: string,
    imgId: string,
    reactions: Reactions,
    createdAt: string)

  /** `AuthPayload`: what the session token carries. */
  datatype AuthPayload = AuthPayload(userId: string, uId: string, email: string, username: string, avatarColor: string)

  /** A list of object ids as `JSON.stringify` sees it: each id is its text. */
  function IdsJson(ids: seq<string>): (v: Json)
    ensures v.Arr? && |v.elems| == |ids|
    ensures forall i :: 0 <= i < |ids| ==> v.elems[i] == Str(ids[i])
  {
    Arr(seq(|ids|, i requires 0 <= i < |ids| => Str(ids[i])))
  }

  function NotificationsJson(n: Notifications): Json {
    Obj([("messages", Bool(n.messages)), ("reactions", Bool(n.reactions)),
         ("comments", Bool(n.comments)), ("follows", Bool(n.follows))])
  }

  function SocialJson(s: Social): Json {
    Obj([("facebook", Str(s.facebook)), ("instagram", Str(s.instagram)),
         ("twitter", Str(s.twitter)), ("youtube", Str(s.youtube))])
  }

  function ReactionsJson(r: Reactions): Json {
    Obj([("like", Num(r.like)), ("love", Num(r.love)), ("haha", Num(r.haha)),
         ("wow", Num(r.wow)), ("angry", Num(r.angry)), ("sad", Num(r.sad))])
  }

  /** Every composite the codecs stringify has distinct keys, so it can be read back. */
  lemma EncodingsWellFormed(ids: seq<string>, n: Notifications, s: Social, r: Reactions)
    ensures WellFormed(IdsJson(ids))
    ensures WellFormed(NotificationsJson(n))
    ensures WellFormed(SocialJson(s))
    ensures WellFormed(ReactionsJson(r))
  {
    var v := IdsJson(ids);
    assert forall i :: 0 <= i < |v.elems| ==> WellFormed(v.elems[i]);
  }
}
