/**
 * The Redis Cacher (redis/redis.go) without a marshaller, over a model of
 * a go-redis client: the server's keyspace (key to stored string and TTL)
 * and whether the client has been closed. A closed client fails every
 * command with ErrClosed; that is the only failure the model has.
 */
module Redis {
  import opened Wrappers
  import opened Contracts
  import opened Internal

  /** A Redis string value with the TTL it was written with. */
  datatype Entry = Entry(data: string, ttl: Duration)

  /** How go-redis writes a value: a string as itself, nil as the empty string. */
  function Encode(v: Any): (data: string)
  {
    match v
    case Nil => ""
    case Str(s) => s
  }

  /** A go-redis client connected to a server. Several cachers may share one. */
  class RedisClient {
    var keyspace: map<string, Entry>
    var closed: bool

    /** A client for a server holding `keyspace`. */
    constructor (keyspace: map<string, Entry>)
      ensures this.keyspace == keyspace && !closed
    {
      this.keyspace := keyspace;
      closed := false;
    }

    method Set(key: string, data: string, ttl: Duration) returns (err: Option<Error>)
      modifies this`keyspace
      ensures err == (if closed then Some(ErrClosed) else None)
      ensures keyspace == if closed then old(keyspace) else old(keyspace)[key := Entry(data, ttl)]
    {
      if closed {
        return Some(ErrClosed);
      }
      keyspace := keyspace[key := Entry(data, ttl)];
      return None;
    }

    /** GET: the stored string, RedisNil for an absent key; the value is "" on any error. */
    method Get(key: string) returns (data: string, err: Option<Error>)
      ensures closed ==> data == "" && err == Some(ErrClosed)
      ensures !closed && key !in keyspace ==> data == "" && err == Some(RedisNil)
      ensures !closed && key in keyspace ==> data == keyspace[key].data && err == None
    {
      if closed {
        return "", Some(ErrClosed);
      }
      if key !in keyspace {
        return "", Some(RedisNil);
      }
      return keyspace[key].data, None;
    }

    method Del(key: string) returns (err: Option<Error>)
      modifies this`keyspace
      ensures err == (if closed then Some(ErrClosed) else None)
      ensures keyspace == if closed then old(keyspace) else old(keyspace) - {key}
    {
      if closed {
        return Some(ErrClosed);
      }
      keyspace := keyspace - {key};
      return None;
    }

    method Close() returns (err: Option<Error>)
      modifies this`closed
      ensures closed
      ensures err == (if old(closed) then Some(ErrClosed) else None)
    {
      err := if closed then Some(ErrClosed) else None;
      closed := true;
    }
  }

  /** ASCII lower-casing of one character. */
  function LowerChar(c: char): (l: char)
    ensures !('A' <= l <= 'Z')
  {
    if 'A' <= c <= 'Z' then (c as int - 'A' as int + 'a' as int) as char else c
  }

  /** strings.ToLower, on ASCII letters: every upper-case letter becomes lower-case, the rest stays. */
  function ToLower(s: string): (r: string)
    ensures |r| == |s|
    ensures forall i | 0 <= i < |s| :: !('A' <= r[i] <= 'Z')
    ensures forall i | 0 <= i < |s| :: 'A' <= s[i] <= 'Z' || r[i] == s[i]
    ensures forall i | 0 <= i < |s| && 'A' <= s[i] <= 'Z' :: r[i] == (s[i] as int - 'A' as int + 'a' as int) as char
  {
    seq(|s|, i requires 0 <= i < |s| => LowerChar(s[i]))
  }

  /** Lower-casing twice is lower-casing once. */
  lemma ToLowerIdempotent(s: string)
    ensures ToLower(ToLower(s)) == ToLower(s)
  {
  }

  /** The prefix WithName installs: none for the empty name, else the lower-cased name. */
  function NamePrefix(name: string): (p: KeyPrefix)
    ensures p.NoPrefix? <==> name == ""
    ensures p.WithPrefix? ==> |p.name| == |name| && forall i | 0 <= i < |p.name| :: !('A' <= p.name[i] <= 'Z')
  {
    if |name| == 0 then NoPrefix else WithPrefix(ToLower(name))
  }

  /** WithName("") stores keys as they are; any other name stores them under "<lower(name)>.". */
  lemma NamePrefixKeys(name: string, key: string)
    ensures name == "" ==> NamePrefix(name).Prefix(key) == key
    ensures name != "" ==> NamePrefix(name).Prefix(key) == ToLower(name) + "." + key
  {
  }

  /** Names that differ only in the case of their letters share one namespace. */
  lemma NamePrefixIgnoresCase(name1: string, name2: string)
    requires ToLower(name1) == ToLower(name2)
    ensures NamePrefix(name1) == NamePrefix(name2)
  {
    assert |name1| == |ToLower(name1)| == |ToLower(name2)| == |name2|;
  }

  /** The fields options and defaults set. */
  datatype Settings = Settings(client: RedisClient?, ttl: Duration, prefix: Option<KeyPrefix>, closeClient: bool)

  /** The settings New starts from: closeClient is true, everything else is zero. */
  const Initial := Settings(null, 0, None, true)

  /** Option: the redis options other than WithMarshaller. */
  datatype CacherOption =
    | WithRedisClient(client: RedisClient?)
    | WithSharedRedisClient(client: RedisClient?, closeClient: bool)
    | WithTTL(ttl: Duration)
    | WithName(name: string)
  {
    /** What applying this option does to the settings. */
    function ApplyTo(s: Settings): (r: Settings)
      ensures SetsClient(this) || r.client == s.client
      ensures SetsCloseClient(this) || r.closeClient == s.closeClient
      ensures SetsTTL(this) || r.ttl == s.ttl
      ensures SetsName(this) || r.prefix == s.prefix
      ensures SetsName(this) ==> r.prefix.Some?
    {
      match this
      case WithRedisClient(cl) => s.(client := cl)
      case WithSharedRedisClient(cl, b) => s.(client := cl, closeClient := b)
      case WithTTL(t) => s.(ttl := t)
      case WithName(n) => s.(prefix := Some(NamePrefix(n)))
    }

    method Apply(c: Cacher)
      modifies c
      ensures c.Fields() == ApplyTo(old(c.Fields()))
    {
      match this
      case WithRedisClient(cl) =>
        c.client := cl;
      case WithSharedRedisClient(cl, b) =>
        c.client := cl;
        c.closeClient := b;
      case WithTTL(t) =>
        c.ttl := t;
      case WithName(n) =>
        var keyPrefix;
        if |n| == 0 {
          keyPrefix := NoPrefix;
        } else {
          keyPrefix := WithPrefix(ToLower(n));
        }
        c.prefix := Some(keyPrefix);
    }
  }

  predicate SetsClient(o: CacherOption) { o.WithRedisClient? || o.WithSharedRedisClient? }
  predicate SetsCloseClient(o: CacherOption) { o.WithSharedRedisClient? }
  predicate SetsTTL(o: CacherOption) { o.WithTTL? }
  predicate SetsName(o: CacherOption) { o.WithName? }

  /** Applying `options` to `s` in order, as New's loop does. */
  function Folded(s: Settings, options: seq<CacherOption>): (r: Settings)
    ensures options == [] ==> r == s
    ensures (forall o | o in options :: !SetsClient(o)) ==> r.client == s.client
    ensures (forall o | o in options :: !SetsCloseClient(o)) ==> r.closeClient == s.closeClient
    ensures (forall o | o in options :: !SetsTTL(o)) ==> r.ttl == s.ttl
    ensures (forall o | o in options :: !SetsName(o)) ==> r.prefix == s.prefix
    decreases |options|
  {
    if options == [] then s else Folded(options[0].ApplyTo(s), options[1..])
  }

  /** The index of the last option satisfying `P`, found by scanning from the end. */
  function LastWhere(options: seq<CacherOption>, P: CacherOption -> bool): (r: Option<nat>)
    ensures r.Some? ==> r.value < |options| && P(options[r.value])
    ensures r.Some? ==> forall j | r.value < j < |options| :: !P(options[j])
    ensures r.None? ==> forall j | 0 <= j < |options| :: !P(options[j])
    decreases |options|
  {
    if options == [] then None
    else if P(options[|options| - 1]) then Some(|options| - 1)
    else LastWhere(options[..|options| - 1], P)
  }

  /** Folding one more option is applying it to the fold so far. */
  lemma {:induction false} FoldedSnoc(s: Settings, options: seq<CacherOption>, o: CacherOption)
    ensures Folded(s, options + [o]) == o.ApplyTo(Folded(s, options))
    decreases |options|
  {
    if options == [] {
      assert Folded(s, [o]) == Folded(o.ApplyTo(s), []);
    } else {
      assert (options + [o])[1..] == options[1..] + [o];
      FoldedSnoc(options[0].ApplyTo(s), options[1..], o);
    }
  }

  /** The last WithTTL sets the global TTL; without one it stays as it was. */
  lemma {:induction false} FoldedTTL(s: Settings, options: seq<CacherOption>)
    ensures Folded(s, options).ttl == match LastWhere(options, SetsTTL)
                                       case Some(i) => options[i].ttl
                                       case None => s.ttl
    decreases |options|
  {
    if options != [] {
      var init, last := options[..|options| - 1], options[|options| - 1];
      assert options == init + [last];
      FoldedSnoc(s, init, last);
      FoldedTTL(s, init);
    }
  }

  /** The last WithName sets the prefix; without one it stays as it was. */
  lemma {:induction false} FoldedPrefix(s: Settings, options: seq<CacherOption>)
    ensures Folded(s, options).prefix == match LastWhere(options, SetsName)
                                          case Some(i) => Some(NamePrefix(options[i].name))
                                          case None => s.prefix
    decreases |options|
  {
    if options != [] {
      var init, last := options[..|options| - 1], options[|options| - 1];
      assert options == init + [last];
      FoldedSnoc(s, init, last);
      FoldedPrefix(s, init);
    }
  }

  /** The last WithRedisClient or WithSharedRedisClient sets the client (nil included). */
  lemma {:induction false} FoldedClient(s: Settings, options: seq<CacherOption>)
    ensures Folded(s, options).client == match LastWhere(options, SetsClient)
                                          case Some(i) => options[i].client
                                          case None => s.client
    decreases |options|
  {
    if options != [] {
      var init, last := options[..|options| - 1], options[|options| - 1];
      assert options == init + [last];
      FoldedSnoc(s, init, last);
      FoldedClient(s, init);
    }
  }

  /** Only WithSharedRedisClient changes closeClient, and its last occurrence wins. */
  lemma {:induction false} FoldedCloseClient(s: Settings, options: seq<CacherOption>)
    ensures Folded(s, options).closeClient == match LastWhere(options, SetsCloseClient)
                                               case Some(i) => options[i].closeClient
                                               case None => s.closeClient
    decreases |options|
  {
    if options != [] {
      var init, last := options[..|options| - 1], options[|options| - 1];
      assert options == init + [last];
      FoldedSnoc(s, init, last);
      FoldedCloseClient(s, init);
    }
  }

  /** The entries Load writes: every key of `data` under its prefixed name, with `ttl`. */
  function PrefixedEntries(p: KeyPrefix, data: map<string, Any>, ttl: Duration): (m: map<string, Entry>)
    ensures m.Keys == set k | k in data :: p.Prefix(k)
    ensures forall k | k in data :: m[p.Prefix(k)] == Entry(Encode(data[k]), ttl)
  {
    map k | k in data :: p.Prefix(k) := Entry(Encode(data[k]), ttl)
  }

  /** Adding one more key to what is loaded writes one more prefixed entry. */
  lemma PrefixedEntriesAdd(p: KeyPrefix, data: map<string, Any>, k: string, ttl: Duration)
    requires k in data
    ensures PrefixedEntries(p, data, ttl)
         == PrefixedEntries(p, data - {k}, ttl)[p.Prefix(k) := Entry(Encode(data[k]), ttl)]
  {
    var lhs := PrefixedEntries(p, data, ttl);
    var rhs := PrefixedEntries(p, data - {k}, ttl)[p.Prefix(k) := Entry(Encode(data[k]), ttl)];
    forall key | key in lhs
      ensures key in rhs && lhs[key] == rhs[key]
    {
      var k' :| k' in data && p.Prefix(k') == key;
      if k' != k {
        assert k' in data - {k};
        if p.Prefix(k') == p.Prefix(k) {
          PrefixInjective(p, k', k);
        }
      }
    }
    forall key | key in rhs
      ensures key in lhs
    {
      if key != p.Prefix(k) {
        var k' :| k' in data - {k} && p.Prefix(k') == key;
      }
    }
  }

  /** One iteration of Load's loop writes one more prefixed entry. */
  lemma LoadStep(before: map<string, Entry>, p: KeyPrefix, data: map<string, Any>, pending: set<string>, key: string, ttl: Duration)
    requires key in pending && pending <= data.Keys
    ensures (before + PrefixedEntries(p, data - pending, ttl))[p.Prefix(key) := Entry(Encode(data[key]), ttl)]
         == before + PrefixedEntries(p, data - (pending - {key}), ttl)
  {
    var done := data - (pending - {key});
    assert done - {key} == data - pending;
    PrefixedEntriesAdd(p, done, key, ttl);
  }

  /** The Redis Cacher (no marshaller). */
  class Cacher {
    var client: RedisClient?
    var ttl: Duration
    var prefix: Option<KeyPrefix>
    var closeClient: bool

    /** The struct literal New starts from: `&Cacher{closeClient: true}`. */
    constructor ()
      ensures Fields() == Initial
    {
      client := null;
      ttl := 0;
      prefix := None;
      closeClient := true;
    }

    function Fields(): (s: Settings)
      reads this
    {
      Settings(client, ttl, prefix, closeClient)
    }

    /** A cacher whose client and prefix are set, as defaults leaves it. */
    predicate Valid()
      reads this
    {
      client != null && prefix.Some?
    }

    /**
     * defaults fills a nil client with a fresh default client and a nil
     * prefix with NoPrefix, and leaves every set field alone. The default
     * client connects to a server whose contents the cacher cannot see:
     * `server` stands for them.
     */
    method Defaults(server: map<string, Entry>)
      modifies this`client, this`prefix
      ensures Valid()
      ensures old(client) != null ==> client == old(client)
      ensures old(client) == null ==> fresh(client) && client.keyspace == server && !client.closed
      ensures prefix == if old(prefix).Some? then old(prefix) else Some(NoPrefix)
    {
      if client == null {
        client := new RedisClient(server);
      }
      if prefix.None? {
        prefix := Some(NoPrefix);
      }
    }

    /** New applies the options in order to `&Cacher{closeClient: true}`, then defaults; it never returns nil. */
    static method New(options: seq<CacherOption>, server: map<string, Entry>) returns (c: Cacher)
      ensures fresh(c) && c.Valid()
      ensures var s := Folded(Initial, options);
        && c.ttl == s.ttl
        && c.closeClient == s.closeClient
        && c.prefix == (if s.prefix.Some? then s.prefix else Some(NoPrefix))
        && (s.client != null ==> c.client == s.client)
        && (s.client == null ==> fresh(c.client) && c.client.keyspace == server && !c.client.closed)
    {
      ghost var folded := Folded(Initial, options);
      c := new Cacher();
      for i := 0 to |options|
        invariant fresh(c)
        invariant Folded(c.Fields(), options[i..]) == folded
      {
        ghost var before := c.Fields();
        assert options[i..][1..] == options[i + 1..];
        assert Folded(before, options[i..]) == Folded(options[i].ApplyTo(before), options[i + 1..]);
        options[i].Apply(c);
      }
      assert options[|options|..] == [];
      assert c.Fields() == folded;
      c.Defaults(server);
    }

    /** Set writes the encoded value under the prefixed key with the resolved TTL. */
    method Set(key: string, value: Any, options: seq<SetOption>) returns (err: Option<Error>)
      requires Valid()
      modifies client`keyspace
      ensures err == (if client.closed then Some(ErrClosed) else None)
      ensures client.keyspace == if client.closed then old(client.keyspace)
        else old(client.keyspace)[prefix.value.Prefix(key) := Entry(Encode(value), ResolveTTL(ttl, options))]
    {
      var config := ResolveSetConfiguration(ttl, options);
      err := client.Set(prefix.value.Prefix(key), Encode(value), config.ttl);
    }

    /**
     * Get returns (nil, nil) when the prefixed key is absent and the stored
     * string otherwise. Any other client error is not returned: the reply's
     * empty value comes back with a nil error.
     */
    method Get(key: string) returns (value: Any, err: Option<Error>)
      requires Valid()
      ensures err == None
      ensures !client.closed && prefix.value.Prefix(key) !in client.keyspace ==> value == Nil
      ensures !client.closed && prefix.value.Prefix(key) in client.keyspace
              ==> value == Str(client.keyspace[prefix.value.Prefix(key)].data)
      ensures client.closed ==> value == Str("")
    {
      var data, e := client.Get(prefix.value.Prefix(key));
      if e == Some(RedisNil) {
        return Nil, None;
      }
      return Str(data), None;
    }

    /** Delete removes exactly the prefixed key. */
    method Delete(key: string) returns (err: Option<Error>)
      requires Valid()
      modifies client`keyspace
      ensures err == (if client.closed then Some(ErrClosed) else None)
      ensures client.keyspace == if client.closed then old(client.keyspace)
        else old(client.keyspace) - {prefix.value.Prefix(key)}
    {
      err := client.Del(prefix.value.Prefix(key));
    }

    /**
     * Load writes every entry of `data` under its prefixed key with the
     * global TTL and leaves every other key alone. On a closed client nothing
     * is written and, unless `data` is empty, ErrClosed is returned.
     */
    method Load(data: map<string, Any>) returns (err: Option<Error>)
      requires Valid()
      modifies client`keyspace
      ensures client.closed ==> client.keyspace == old(client.keyspace)
      ensures client.closed ==> err == (if |data| == 0 then None else Some(ErrClosed))
      ensures !client.closed ==> err == None
      ensures !client.closed ==> client.keyspace == old(client.keyspace) + PrefixedEntries(prefix.value, data, ttl)
    {
      var p, cl := prefix.value, client;
      ghost var before := cl.keyspace;
      var pending := data.Keys;
      err := None;
      while pending != {}
        invariant pending <= data.Keys
        invariant cl.closed ==> cl.keyspace == before
        invariant !cl.closed ==> cl.keyspace == before + PrefixedEntries(p, data - pending, ttl)
        invariant err == (if cl.closed && pending != data.Keys then Some(ErrClosed) else None)
        decreases pending
      {
        var key :| key in pending;
        var e := cl.Set(p.Prefix(key), Encode(data[key]), ttl);
        if err.None? {
          err := e;
        }
        LoadStep(before, p, data, pending, key, ttl);
        pending := pending - {key};
      }
      assert data - {} == data;
      assert |data| == 0 <==> data.Keys == {};
    }

    /** Close closes the client if and only if closeClient is set. */
    method Close() returns (err: Option<Error>)
      requires closeClient ==> client != null
      modifies client
      ensures closeClient ==> client.closed && err == (if old(client.closed) then Some(ErrClosed) else None)
      ensures !closeClient ==> err == None
      ensures client != null ==> client.keyspace == old(client.keyspace)
      ensures !closeClient && client != null ==> unchanged(client)
    {
      if closeClient {
        err := client.Close();
        return err;
      }
      return None;
    }
  }

  /** A written value reads back as its encoding: itself for a string, "" for nil. */
  method SetThenGet(c: Cacher, key: string, value: Any, options: seq<SetOption>) returns (got: Any, err: Option<Error>)
    requires c.Valid() && !c.client.closed
    modifies c.client`keyspace
    ensures got == Str(Encode(value)) && err == None
    ensures value.Str? ==> got == value
  {
    var setErr := c.Set(key, value, options);
    got, err := c.Get(key);
  }
}
