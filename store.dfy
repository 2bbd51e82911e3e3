/** The Redis server the caches talk to, as the part of its state they use:
    hashes (HSET, HMGET, HGETALL) and sorted sets (ZADD), plus whether the
    client connection is open. Whether the server answers a command is not
    visible to the code; every command therefore takes `up`, which says
    whether the round trip succeeded. */
module RedisStore {
  import opened Wrappers

  /** The keyspace: every hash and every sorted set by key. */
  datatype Db = Db(hashes: map<string, map<string, string>>, zsets: map<string, map<string, int>>)

  /** The fields and values of an `HSET key f1 v1 f2 v2 …` argument list;
      a field named twice keeps the later value. */
  function PairsMap(flat: seq<string>): (h: map<string, string>)
    requires |flat| % 2 == 0
    ensures h.Keys == Names(flat)
    decreases |flat|
  {
    if flat == [] then map[]
    else
      var init := flat[..|flat| - 2];
      var h0 := PairsMap(init);
      assert forall i :: 0 <= i < |init| / 2 ==> init[2 * i] == flat[2 * i];
      assert flat[|flat| - 2] == flat[2 * ((|flat| - 2) / 2)];
      assert Names(flat) == Names(init) + {flat[|flat| - 2]};
      h0[flat[|flat| - 2] := flat[|flat| - 1]]
  }

  /** The field names of an argument list: its entries at even positions. */
  function Names(flat: seq<string>): set<string> {
    set i | 0 <= i < |flat| / 2 :: flat[2 * i]
  }

  /** With distinct names, each name maps to the value right after it. */
  lemma {:induction false} PairsMapAt(flat: seq<string>, j: nat)
    requires |flat| % 2 == 0 && j < |flat| / 2
    requires forall i :: 0 <= i < |flat| / 2 && i != j ==> flat[2 * i] != flat[2 * j]
    ensures flat[2 * j] in PairsMap(flat) && PairsMap(flat)[flat[2 * j]] == flat[2 * j + 1]
    decreases |flat|
  {
    var init := flat[..|flat| - 2];
    if 2 * j != |flat| - 2 {
      assert forall i :: 0 <= i < |init| / 2 ==> init[2 * i] == flat[2 * i];
      assert flat[|flat| - 2] == flat[2 * ((|flat| - 2) / 2)];
      PairsMapAt(init, j);
    }
  }

  /** No name occurs twice. */
  predicate Distinct(names: seq<string>) {
    forall i, j :: 0 <= i < j < |names| ==> names[i] != names[j]
  }

  /** The argument list has the given names at its even positions, in order. */
  predicate NamedAt(flat: seq<string>, names: seq<string>) {
    |flat| == 2 * |names| && forall i :: 0 <= i < |names| ==> flat[2 * i] == names[i]
  }

  /** The argument list `n1 v1 n2 v2 …` pairing each name with its value. */
  function Pairs(names: seq<string>, values: seq<string>): (flat: seq<string>)
    requires |names| == |values|
    ensures NamedAt(flat, names) && |flat| % 2 == 0
    ensures forall i :: 0 <= i < |values| ==> flat[2 * i + 1] == values[i]
    decreases |names|
  {
    if names == [] then []
    else
      var rest := Pairs(names[1..], values[1..]);
      assert forall i :: 1 <= i < |names| ==> ([names[0], values[0]] + rest)[2 * i] == rest[2 * (i - 1)];
      [names[0], values[0]] + rest
  }

  /** Two argument lists one after the other pair the names of both with
      the values of both. */
  lemma {:induction false} PairsConcat(n1: seq<string>, v1: seq<string>, n2: seq<string>, v2: seq<string>)
    requires |n1| == |v1| && |n2| == |v2|
    ensures Pairs(n1, v1) + Pairs(n2, v2) == Pairs(n1 + n2, v1 + v2)
    decreases |n1|
  {
    if n1 != [] {
      PairsConcat(n1[1..], v1[1..], n2, v2);
      assert (n1 + n2)[1..] == n1[1..] + n2 && (v1 + v2)[1..] == v1[1..] + v2;
    } else {
      assert n1 + n2 == n2 && v1 + v2 == v2;
    }
  }

  lemma NamedAtConcat(a: seq<string>, na: seq<string>, b: seq<string>, nb: seq<string>)
    requires NamedAt(a, na) && NamedAt(b, nb)
    ensures NamedAt(a + b, na + nb)
  {
    forall i | 0 <= i < |na + nb|
      ensures (a + b)[2 * i] == (na + nb)[i]
    {
      if i >= |na| {
        assert (a + b)[2 * i] == b[2 * (i - |na|)];
      }
    }
  }

  /** The hash an argument list with distinct names writes maps each name
      to the value that follows it, and has no other field. */
  lemma LookupByLayout(flat: seq<string>, names: seq<string>, j: nat)
    requires NamedAt(flat, names) && Distinct(names) && j < |names|
    ensures names[j] in PairsMap(flat) && PairsMap(flat)[names[j]] == flat[2 * j + 1]
  {
    PairsMapAt(flat, j);
  }

  lemma NamesByLayout(flat: seq<string>, names: seq<string>)
    requires NamedAt(flat, names)
    ensures forall k :: k in Names(flat) <==> k in names
  {
    forall k | k in Names(flat) ensures k in names {
      var i :| 0 <= i < |flat| / 2 && flat[2 * i] == k;
      assert names[i] == k;
    }
    forall k | k in names ensures k in Names(flat) {
      var i :| 0 <= i < |names| && names[i] == k;
      assert flat[2 * i] == k;
    }
  }

  function HashOf(db: Db, key: string): map<string, string> {
    if key in db.hashes then db.hashes[key] else map[]
  }

  function ZsetOf(db: Db, key: string): map<string, int> {
    if key in db.zsets then db.zsets[key] else map[]
  }

  /** `HSET key f1 v1 …`: the pairs are written over the hash (created if
      missing); its other fields stay. */
  function HSetDb(db: Db, key: string, flat: seq<string>): Db
    requires |flat| % 2 == 0
  {
    db.(hashes := db.hashes[key := HashOf(db, key) + PairsMap(flat)])
  }

  /** HSET changes the one hash it names, and there sets exactly the fields
      of the argument list, to their values; everything else stays. */
  lemma HSetDbEffect(db: Db, key: string, flat: seq<string>)
    requires |flat| % 2 == 0
    ensures var r := HSetDb(db, key, flat);
      && r.zsets == db.zsets
      && (forall k :: k != key ==> HashOf(r, k) == HashOf(db, k))
      && HashOf(r, key).Keys == HashOf(db, key).Keys + Names(flat)
      && (forall f :: f in HashOf(r, key) ==>
            HashOf(r, key)[f] == if f in PairsMap(flat) then PairsMap(flat)[f] else HashOf(db, key)[f])
  {
  }

  /** `ZADD key score member`: the member gets the score, added if new. */
  function ZAddDb(db: Db, key: string, score: int, member: string): Db {
    db.(zsets := db.zsets[key := ZsetOf(db, key)[member := score]])
  }

  /** ZADD changes the one sorted set it names, and there only the score of
      the one member; everything else stays. */
  lemma ZAddDbEffect(db: Db, key: string, score: int, member: string)
    ensures var r := ZAddDb(db, key, score, member);
      && r.hashes == db.hashes
      && (forall k :: k != key ==> ZsetOf(r, k) == ZsetOf(db, k))
      && ZsetOf(r, key).Keys == ZsetOf(db, key).Keys + {member}
      && ZsetOf(r, key)[member] == score
      && (forall m :: m in ZsetOf(r, key) && m != member ==> ZsetOf(r, key)[m] == ZsetOf(db, key)[m])
  {
  }

  /** A ZADD followed by an HSET: the sorted set gets the member with its
      score, the hash its old fields overwritten by the pairs, and every
      other sorted set and hash stays as it was. */
  lemma ZAddThenHSet(db: Db, setKey: string, score: int, member: string, hashKey: string, flat: seq<string>)
    requires |flat| % 2 == 0
    ensures var r := HSetDb(ZAddDb(db, setKey, score, member), hashKey, flat);
      && ZsetOf(r, setKey) == ZsetOf(db, setKey)[member := score]
      && HashOf(r, hashKey) == HashOf(db, hashKey) + PairsMap(flat)
      && (forall k :: k != setKey ==> ZsetOf(r, k) == ZsetOf(db, k))
      && (forall k :: k != hashKey ==> HashOf(r, k) == HashOf(db, k))
  {
  }

  /** A command queued on a `multi`. A ZADD score is `None` when it is
      `NaN` (a failed `parseInt`). */
  datatype Command =
    | ZAdd(key: string, score: Option<int>, member: string)
    | HSet(key: string, flat: seq<string>)

  /** One queued command run by EXEC. Redis rejects a `NaN` score or an odd
      argument list when it runs the command; that command does nothing and
      the others still run. */
  function Apply(db: Db, c: Command): Db {
    match c
    case ZAdd(key, score, member) => if score.Some? then ZAddDb(db, key, score.value, member) else db
    case HSet(key, flat) => if |flat| % 2 == 0 then HSetDb(db, key, flat) else db
  }

  /** The queued commands run in order. */
  function ApplyAll(db: Db, cs: seq<Command>): Db
    decreases |cs|
  {
    if cs == [] then db else Apply(ApplyAll(db, cs[..|cs| - 1]), cs[|cs| - 1])
  }

  /** Queuing one more command runs it after the others. */
  lemma ApplyAllSnoc(db: Db, cs: seq<Command>, c: Command)
    ensures ApplyAll(db, cs + [c]) == Apply(ApplyAll(db, cs), c)
  {
    assert (cs + [c])[..|cs|] == cs;
  }

  /** A command that names neither the key nor the sorted set leaves both alone. */
  predicate Touches(c: Command, key: string) {
    c.key == key
  }

  lemma {:induction false} ApplyAllElsewhere(db: Db, cs: seq<Command>, key: string)
    requires forall i :: 0 <= i < |cs| ==> !Touches(cs[i], key)
    ensures HashOf(ApplyAll(db, cs), key) == HashOf(db, key)
    ensures ZsetOf(ApplyAll(db, cs), key) == ZsetOf(db, key)
    decreases |cs|
  {
    if cs != [] {
      ApplyAllElsewhere(db, cs[..|cs| - 1], key);
    }
  }

  /** Whether the server answered each of the (at most three) round trips
      of one cache operation: the connect, then the first and the second command. */
  datatype Replies = Replies(connect: bool, first: bool, second: bool)

  /** The in-memory stand-in for the node-redis client and its server. */
  class Store {
    var hashes: map<string, map<string, string>>
    var zsets: map<string, map<string, int>>
    var isOpen: bool

    constructor (db: Db)
      ensures Model() == db && !isOpen
    {
      hashes := db.hashes;
      zsets := db.zsets;
      isOpen := false;
    }

    function Model(): Db
      reads this
    {
      Db(hashes, zsets)
    }

    /** `client.connect()`: opens the connection when the server answers. */
    method Connect(up: bool) returns (ok: bool)
      modifies this
      ensures ok == up
      ensures isOpen == (old(isOpen) || up)
      ensures Model() == old(Model())
    {
      if up {
        isOpen := true;
      }
      ok := up;
    }

    /** `client.ZADD(key, {score, value})`. Fails on a closed connection,
        when the server does not answer, or on a `NaN` score. */
    method ZAddCommand(key: string, score: Option<int>, member: string, up: bool) returns (ok: bool)
      modifies this
      ensures ok == (old(isOpen) && up && score.Some?)
      ensures isOpen == old(isOpen)
      ensures Model() == if ok then ZAddDb(old(Model()), key, score.value, member) else old(Model())
    {
      if isOpen && up && score.Some? {
        var z := if key in zsets then zsets[key] else map[];
        zsets := zsets[key := z[member := score.value]];
        ok := true;
      } else {
        ok := false;
      }
    }

    /** `client.HSET(key, [f1, v1, …])`. Fails on a closed connection, when
        the server does not answer, or on an odd argument list. */
    method HSetCommand(key: string, flat: seq<string>, up: bool) returns (ok: bool)
      modifies this
      ensures ok == (old(isOpen) && up && |flat| % 2 == 0)
      ensures isOpen == old(isOpen)
      ensures Model() == if ok then HSetDb(old(Model()), key, flat) else old(Model())
    {
      if isOpen && up && |flat| % 2 == 0 {
        var h := if key in hashes then hashes[key] else map[];
        hashes := hashes[key := h + PairsMap(flat)];
        ok := true;
      } else {
        ok := false;
      }
    }

    /** `client.HMGET(key, field)`: the one-element reply; `None` is `null`
        (no such hash or no such field). */
    method HMGet(key: string, field: string, up: bool) returns (r: Option<Option<string>>)
      ensures r.Some? <==> isOpen && up
      ensures r.Some? ==> r.value == (if field in HashOf(Model(), key) then Some(HashOf(Model(), key)[field]) else None)
    {
      if isOpen && up {
        var h := if key in hashes then hashes[key] else map[];
        r := Some(if field in h then Some(h[field]) else None);
      } else {
        r := None;
      }
    }

    /** `client.HGETALL(key)`: every field of the hash; an empty reply when
        there is no such hash. */
    method HGetAll(key: string, up: bool) returns (r: Option<map<string, string>>)
      ensures r.Some? <==> isOpen && up
      ensures r.Some? ==> r.value == HashOf(Model(), key)
    {
      if isOpen && up {
        r := Some(if key in hashes then hashes[key] else map[]);
      } else {
        r := None;
      }
    }

    /** `multi.exec()`: the queued commands run one after the other. When
        the connection is closed or the server does not answer, none runs. */
    method Exec(cs: seq<Command>, up: bool) returns (ok: bool)
      modifies this
      ensures ok == (old(isOpen) && up)
      ensures isOpen == old(isOpen)
      ensures Model() == if ok then ApplyAll(old(Model()), cs) else old(Model())
    {
      if !(isOpen && up) {
        return false;
      }
      var i := 0;
      while i < |cs|
        invariant 0 <= i <= |cs|
        invariant Model() == ApplyAll(old(Model()), cs[..i])
        invariant isOpen == old(isOpen)
      {
        assert cs[..i + 1][..i] == cs[..i];
        match cs[i] {
          case ZAdd(key, score, member) =>
            if score.Some? {
              var z := if key in zsets then zsets[key] else map[];
              zsets := zsets[key := z[member := score.value]];
            }
          case HSet(key, flat) =>
            if |flat| % 2 == 0 {
              var h := if key in hashes then hashes[key] else map[];
              hashes := hashes[key := h + PairsMap(flat)];
            }
        }
        i := i + 1;
      }
      assert cs[..|cs|] == cs;
      return true;
    }
  }
}
