/** The older `UserCache` under `src/shared/redis`: the same save as the
    services version, with its own error text and no read-back. */
module LegacyUserCache {
  import opened Wrappers
  import opened JsText
  import opened Entities
  import opened RedisStore
  import UC = UserCache

  const SaveError: string := "Server errer, try again"

  class UserCache {
    const client: Store

    constructor (client: Store)
      ensures this.client == client
    {
      this.client := client;
    }

    /** `saveUserToCache(key, userId, createdUser)`: the argument list is
        laid out as the services version lays it out; open the connection
        if it is closed, ZADD, then HSET, and report any failure with this
        class's own error text. */
    method SaveUserToCache(key: string, userId: string, createdUser: User, now: string, net: Replies)
      returns (r: Outcome<string>)
      modifies client
      ensures var conn := old(client.isOpen) || net.connect;
        && client.isOpen == conn
        && (r == Pass <==> conn && net.first && ParseInt(userId).Some? && net.second)
        && (r.Fail? ==> r.error == SaveError)
        && client.Model()
           == if !conn || !net.first || ParseInt(userId).None? then old(client.Model())
              else if !net.second then ZAddDb(old(client.Model()), "user", ParseInt(userId).value, key)
              else UC.SavedDb(old(client.Model()), key, ParseInt(userId).value, createdUser, now)
    {
      var dataToSave := UC.UserFields(createdUser, now);
      UC.UserFieldsEven(createdUser, now);
      if !client.isOpen {
        var connected := client.Connect(net.connect);
        if !connected {
          return Fail(SaveError);
        }
      }
      var zadded := client.ZAddCommand("user", ParseInt(userId), key, net.first);
      if !zadded {
        return Fail(SaveError);
      }
      var hset := client.HSetCommand("users:" + key, dataToSave, net.second);
      if !hset {
        return Fail(SaveError);
      }
      return Pass;
    }
  }
}
