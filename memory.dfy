/**
 * The in-memory Cacher (memory/memory.go) over a model of go-cache: a map
 * from key to the value and the TTL it was stored with. Entries never
 * expire in the model.
 */
module Memory {
  import opened Wrappers
  import opened Contracts

  /** go-cache's NoExpiration. */
  const NoExpiration: Duration := -1
  /** The janitor interval New passes to go-cache. */
  const CleanupInterval: Duration := 10 * Minute

  /** A go-cache item: the value and the duration it was stored with. */
  datatype Item = Item(value: Any, ttl: Duration)

  /** go-cache's Cache, reduced to its items and its construction parameters. */
  class GoCache {
    var items: map<string, Item>
    const defaultExpiration: Duration
    const cleanupInterval: Duration

    constructor (defaultExpiration: Duration, cleanupInterval: Duration)
      ensures items == map[]
      ensures this.defaultExpiration == defaultExpiration && this.cleanupInterval == cleanupInterval
    {
      items := map[];
      this.defaultExpiration := defaultExpiration;
      this.cleanupInterval := cleanupInterval;
    }

    method Set(key: string, value: Any, d: Duration)
      modifies this`items
      ensures items == old(items)[key := Item(value, d)]
    {
      items := items[key := Item(value, d)];
    }

    method Get(key: string) returns (value: Any, found: bool)
      ensures found == (key in items)
      ensures value == if found then items[key].value else Nil
    {
      found := key in items;
      value := if found then items[key].value else Nil;
    }

    method Delete(key: string)
      modifies this`items
      ensures items == old(items) - {key}
    {
      items := items - {key};
    }

    method Flush()
      modifies this`items
      ensures items == map[]
    {
      items := map[];
    }
  }

  /** Option: the only memory option defined is WithTTL, the global TTL. */
  datatype CacherOption = WithTTL(ttl: Duration) {

    method Apply(c: Cacher)
      modifies c`ttl
      ensures c.ttl == ttl
    {
      c.ttl := ttl;
    }
  }

  /** The global TTL after applying `options` in order: the last one wins, none keeps `ttl`. */
  function GlobalTTL(ttl: Duration, options: seq<CacherOption>): (r: Duration)
    ensures options == [] ==> r == ttl
    ensures options != [] ==> r == options[|options| - 1].ttl
    decreases |options|
  {
    if options == [] then ttl else GlobalTTL(options[0].ttl, options[1..])
  }

  /** The default expiration defaults gives go-cache: the global TTL if above one second, else none. */
  function DefaultExpirationFor(ttl: Duration): (d: Duration)
    ensures d == NoExpiration || d > Second
    ensures d > Second <==> ttl > Second
    ensures d > Second ==> d == ttl
  {
    if ttl > Second then ttl else NoExpiration
  }

  /** The entries `data` seeds, each with the global TTL. */
  function Seeded(data: map<string, Any>, ttl: Duration): (m: map<string, Item>)
    ensures m.Keys == data.Keys
    ensures forall k | k in data :: m[k] == Item(data[k], ttl)
  {
    map k | k in data :: Item(data[k], ttl)
  }

  /** The memory Cacher: a go-cache store (nil until defaults runs) and a global TTL. */
  class Cacher {
    var cache: GoCache?
    var ttl: Duration

    /** The zero value New starts from. */
    constructor ()
      ensures cache == null && ttl == 0
    {
      cache := null;
      ttl := 0;
    }

    predicate Valid()
      reads this
    {
      cache != null
    }

    /** defaults creates the store when there is none, with DefaultExpirationFor(ttl). */
    method Defaults()
      modifies this`cache
      ensures old(cache) != null ==> cache == old(cache)
      ensures old(cache) == null ==> cache != null && fresh(cache) && cache.items == map[]
      ensures old(cache) == null ==> cache.defaultExpiration == DefaultExpirationFor(ttl)
      ensures old(cache) == null ==> cache.cleanupInterval == CleanupInterval
    {
      if cache == null {
        if ttl > Second {
          cache := new GoCache(ttl, CleanupInterval);
        } else {
          cache := new GoCache(NoExpiration, CleanupInterval);
        }
      }
    }

    /** New applies the options in order and then defaults: the last WithTTL wins. */
    static method New(options: seq<CacherOption>) returns (c: Cacher)
      ensures fresh(c) && c.Valid() && fresh(c.cache)
      ensures c.ttl == GlobalTTL(0, options)
      ensures c.cache.items == map[]
      ensures c.cache.defaultExpiration == DefaultExpirationFor(c.ttl)
      ensures c.cache.cleanupInterval == CleanupInterval
    {
      c := new Cacher();
      for i := 0 to |options|
        invariant c.cache == null
        invariant GlobalTTL(c.ttl, options[i..]) == GlobalTTL(0, options)
      {
        assert options[i..][1..] == options[i + 1..];
        options[i].Apply(c);
      }
      assert options[|options|..] == [];
      c.Defaults();
    }

    /** Set stores `value` under `key` with the resolved TTL; it never fails. */
    method Set(key: string, value: Any, options: seq<SetOption>) returns (err: Option<Error>)
      requires Valid()
      modifies cache`items
      ensures err == None
      ensures cache.items == old(cache.items)[key := Item(value, ResolveTTL(ttl, options))]
    {
      var config := ResolveSetConfiguration(ttl, options);
      cache.Set(key, value, config.ttl);
      return None;
    }

    /** Get returns the stored value, and (nil, nil) for an absent key; it never fails. */
    method Get(key: string) returns (value: Any, err: Option<Error>)
      requires Valid()
      ensures err == None
      ensures key !in cache.items ==> value == Nil
      ensures key in cache.items ==> value == cache.items[key].value
    {
      var found;
      value, found := cache.Get(key);
      if found {
        return value, None;
      }
      return Nil, None;
    }

    /** Delete removes `key` and nothing else; it never fails. */
    method Delete(key: string) returns (err: Option<Error>)
      requires Valid()
      modifies cache`items
      ensures err == None
      ensures cache.items == old(cache.items) - {key}
    {
      cache.Delete(key);
      return None;
    }

    /** Load writes every entry of `data` with the global TTL; other keys are untouched. */
    method Load(data: map<string, Any>) returns (err: Option<Error>)
      requires Valid()
      modifies cache`items
      ensures err == None
      ensures cache.items == old(cache.items) + Seeded(data, ttl)
    {
      var pending := data.Keys;
      while pending != {}
        invariant pending <= data.Keys
        invariant cache.items == old(cache.items) + Seeded(data - pending, ttl)
        decreases pending
      {
        var key :| key in pending;
        cache.Set(key, data[key], ttl);
        assert Seeded(data - (pending - {key}), ttl) == Seeded(data - pending, ttl)[key := Item(data[key], ttl)];
        pending := pending - {key};
      }
      assert data - {} == data;
      return None;
    }

    /** Close empties the store; it never fails. */
    method Close() returns (err: Option<Error>)
      requires Valid()
      modifies cache`items
      ensures err == None
      ensures cache.items == map[]
    {
      cache.Flush();
      return None;
    }
  }

  /** With no intervening Delete or Close, Set(k, v) followed by Get(k) returns (v, nil). */
  method SetThenGet(c: Cacher, key: string, value: Any, options: seq<SetOption>) returns (got: Any, err: Option<Error>)
    requires c.Valid()
    modifies c.cache`items
    ensures got == value && err == None
  {
    var setErr := c.Set(key, value, options);
    got, err := c.Get(key);
  }
}
