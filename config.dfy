/** `Config`: seven settings read from the environment, and the check
    that all of them are set. The environment is a map from names to
    values; a missing name is `undefined` (`None`). */
module AppConfig {
  import opened Wrappers

  /** The settings' names, in the order they are declared and assigned,
      which is the order `Object.entries` lists them in. */
  const Keys: seq<string> :=
    ["DB_URL", "JWB_TOKEN", "NEDE_ENV", "SECRET_KEY_ONE", "SECRET_KEY_TWO", "CLIENT_URL", "REDIS_HOST"]

  /** `process.env[name]`. */
  function Env(env: map<string, string>, name: string): Option<string> {
    if name in env then Some(env[name]) else None
  }

  /** The message `validateConfig` throws for an unset setting. */
  function Undefined(key: string): string {
    "Configuration " + key + " is underfined."
  }

  /** The first entry whose value is unset, if any. */
  function FirstUnset(entries: seq<(string, Option<string>)>): (r: Option<nat>)
    ensures r.None? <==> forall i :: 0 <= i < |entries| ==> entries[i].1.Some?
    ensures r.Some? ==> r.value < |entries| && entries[r.value].1.None?
    ensures r.Some? ==> forall i :: 0 <= i < r.value ==> entries[i].1.Some?
  {
    if entries == [] then None
    else if entries[0].1.None? then Some(0)
    else
      var rest := FirstUnset(entries[1..]);
      if rest.None? then None else Some(rest.value + 1)
  }

  /** What `validateConfig` does with a list of entries: throw for the
      first unset one, or return normally. */
  function Validation(entries: seq<(string, Option<string>)>): Outcome<string> {
    var first := FirstUnset(entries);
    if first.None? then Pass else Fail(Undefined(entries[first.value].0))
  }

  /** The entries read from an environment, in declaration order. */
  function EnvEntries(env: map<string, string>): (e: seq<(string, Option<string>)>)
    ensures |e| == |Keys|
    ensures forall i :: 0 <= i < |e| ==> e[i] == (Keys[i], Env(env, Keys[i]))
  {
    [("DB_URL", Env(env, "DB_URL")), ("JWB_TOKEN", Env(env, "JWB_TOKEN")), ("NEDE_ENV", Env(env, "NEDE_ENV")),
     ("SECRET_KEY_ONE", Env(env, "SECRET_KEY_ONE")), ("SECRET_KEY_TWO", Env(env, "SECRET_KEY_TWO")),
     ("CLIENT_URL", Env(env, "CLIENT_URL")), ("REDIS_HOST", Env(env, "REDIS_HOST"))]
  }

  /** A configuration read from an environment passes the check exactly
      when every name is in it; otherwise the message names the first
      missing one in declaration order. */
  lemma ValidationOfEnvironment(env: map<string, string>)
    ensures Validation(EnvEntries(env)) == Pass <==> forall i :: 0 <= i < |Keys| ==> Keys[i] in env
    ensures Validation(EnvEntries(env)).Fail? ==>
      exists i :: 0 <= i < |Keys| && Keys[i] !in env && (forall j :: 0 <= j < i ==> Keys[j] in env)
        && Validation(EnvEntries(env)).error == Undefined(Keys[i])
  {
    var e := EnvEntries(env);
    assert forall i :: 0 <= i < |e| ==> (e[i].1.Some? <==> Keys[i] in env);
    var first := FirstUnset(e);
    if first.Some? {
      assert Keys[first.value] !in env;
    }
  }

  class Config {
    var DB_URL: Option<string>
    var JWB_TOKEN: Option<string>
    var NEDE_ENV: Option<string>
    var SECRET_KEY_ONE: Option<string>
    var SECRET_KEY_TWO: Option<string>
    var CLIENT_URL: Option<string>
    var REDIS_HOST: Option<string>

    /** Each setting from the same-named environment entry. */
    constructor (env: map<string, string>)
      ensures Entries() == EnvEntries(env)
    {
      DB_URL := Env(env, "DB_URL");
      JWB_TOKEN := Env(env, "JWB_TOKEN");
      NEDE_ENV := Env(env, "NEDE_ENV");
      SECRET_KEY_ONE := Env(env, "SECRET_KEY_ONE");
      SECRET_KEY_TWO := Env(env, "SECRET_KEY_TWO");
      CLIENT_URL := Env(env, "CLIENT_URL");
      REDIS_HOST := Env(env, "REDIS_HOST");
    }

    /** `Object.entries(this)`. */
    function Entries(): (e: seq<(string, Option<string>)>)
      reads this
      ensures |e| == |Keys|
      ensures forall i :: 0 <= i < |e| ==> e[i].0 == Keys[i]
    {
      [("DB_URL", DB_URL), ("JWB_TOKEN", JWB_TOKEN), ("NEDE_ENV", NEDE_ENV), ("SECRET_KEY_ONE", SECRET_KEY_ONE),
       ("SECRET_KEY_TWO", SECRET_KEY_TWO), ("CLIENT_URL", CLIENT_URL), ("REDIS_HOST", REDIS_HOST)]
    }

    /** `validateConfig`: walks the entries in order and throws for the
        first unset one; returns normally exactly when all seven are set.
        It changes nothing. */
    method ValidateConfig() returns (r: Outcome<string>)
      ensures r == Validation(Entries())
    {
      var entries := Entries();
      var i := 0;
      while i < |entries|
        invariant 0 <= i <= |entries|
        invariant forall j :: 0 <= j < i ==> entries[j].1.Some?
      {
        var (key, value) := entries[i];
        if value.None? {
          assert FirstUnset(entries) == Some(i);
          return Fail(Undefined(key));
        }
        i := i + 1;
      }
      return Pass;
    }
  }
}
