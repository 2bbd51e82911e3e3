/** `CurrentUser.read`: the signed-in user, from the cache or else from
    the database. Both lookups are parameters: the cache class this
    controller imports defines no `getUserFromCache`, and the database is
    not modelled. A user object is a map from its keys; `None` is `null`. */
module CurrentUser {
  import opened Wrappers
  import opened JsText
  import opened Json
  import opened Entities
  import opened Http

  /** A user object as `Object.keys` sees it. */
  type UserObject = map<string, Json>

  /** What `Object.keys(null)` raises. */
  const NullKeys: string := "Cannot convert undefined or null to object"

  /** The response body; `None` is `null`. */
  datatype CurrentUserReply = CurrentUserReply(token: Option<string>, isUser: bool, user: Option<UserObject>)

  /** The key both lookups get: `${req.currentUser?.userId}`, which is
      "undefined" when no user is on the request. */
  function LookupKey(currentUser: Option<AuthPayload>): string {
    Template(if currentUser.Some? then Some(currentUser.value.userId) else None)
  }

  function Lookup(find: string -> Option<UserObject>, key: string): Option<UserObject> {
    find(key)
  }

  /** How `read` ends: the user is the cached one if there is one, else
      the database's; with neither, `Object.keys` throws. A user with at
      least one key gives the session token and that user; an empty
      object gives `null` for both. */
  function Answer(jwt: Option<string>, currentUser: Option<AuthPayload>, cache: string -> Option<UserObject>,
                  db: string -> Option<UserObject>): (end: Ending<CurrentUserReply>)
    ensures end.Throw? <==>
      Lookup(cache, LookupKey(currentUser)).None? && Lookup(db, LookupKey(currentUser)).None?
    ensures end.Throw? ==> end.err == AppError(TypeError, NullKeys)
    ensures end.Respond? ==> end.status == OK
    ensures end.Respond? ==>
      var chosen := if Lookup(cache, LookupKey(currentUser)).Some? then Lookup(cache, LookupKey(currentUser)).value
                    else Lookup(db, LookupKey(currentUser)).value;
      && (end.body.isUser <==> |chosen.Keys| > 0)
      && (end.body.isUser ==> end.body.token == jwt && end.body.user == Some(chosen))
      && (!end.body.isUser ==> end.body.token == None && end.body.user == None)
  {
    var key := LookupKey(currentUser);
    var existing := if Lookup(cache, key).Some? then Lookup(cache, key) else Lookup(db, key);
    if existing.None? then Throw(AppError(TypeError, NullKeys))
    else if |existing.value.Keys| > 0 then Respond(OK, CurrentUserReply(jwt, true, existing))
    else Respond(OK, CurrentUserReply(None, false, None))
  }

  /** A cached user decides the answer: what the database holds does not
      matter then. */
  lemma CacheShortCircuits(jwt: Option<string>, currentUser: Option<AuthPayload>, cache: string -> Option<UserObject>,
                           db1: string -> Option<UserObject>, db2: string -> Option<UserObject>)
    requires Lookup(cache, LookupKey(currentUser)).Some?
    ensures Answer(jwt, currentUser, cache, db1) == Answer(jwt, currentUser, cache, db2)
    ensures Answer(jwt, currentUser, cache, db1).Respond?
  {
  }

  /** Without a user on the request both lookups are made under the key
      "undefined". */
  lemma NoUserLooksUpUndefined()
    ensures LookupKey(None) == "undefined"
  {
  }

  class CurrentUser {
    /** `read`: `isUser`, `token` and `user` start false and null and are
        set together once a user object with keys is found. The database
        is asked only on a cache miss (`queried`). */
    method Read(req: Request, cache: string -> Option<UserObject>, db: string -> Option<UserObject>)
      returns (end: Ending<CurrentUserReply>, queried: bool)
      ensures end == Answer(req.jwt, req.currentUser, cache, db)
      ensures queried <==> Lookup(cache, LookupKey(req.currentUser)).None?
    {
      var isUser := false;
      var token: Option<string> := None;
      var user: Option<UserObject> := None;
      var key := LookupKey(req.currentUser);
      var cachedUser := Lookup(cache, key);
      var existingUser := cachedUser;
      queried := false;
      if cachedUser.None? {
        existingUser := Lookup(db, key);
        queried := true;
      }
      if existingUser.None? {
        return Throw(AppError(TypeError, NullKeys)), queried;
      }
      if |existingUser.value.Keys| > 0 {
        isUser := true;
        token := req.jwt;
        user := existingUser;
      }
      return Respond(OK, CurrentUserReply(token, isUser, user)), queried;
    }
  }
}
