/**
 * Cache patterns (pattern.go). A Pattern composes Cacher and Persister
 * calls. ReadAside is the only pattern defined in cache.go and pattern.go;
 * CacheAside is named by the facade's default (cache.go:100) but defined in
 * neither file, so here it is a tag without operations.
 */
module Patterns {
  import opened Wrappers
  import opened Contracts

  /** What ReadAside.Get returns, with the cache state it leaves behind. */
  datatype GetOutcome = GetOutcome(value: Any, err: Option<Error>, cache: CacheState)

  /** The persister's state, or None for a nil persister. */
  function StoreOf(p: PersisterContract?): (store: Option<StoreState>)
    reads p
    ensures store.Some? <==> p != null
  {
    if p == null then None else Some(p.State())
  }

  /**
   * A nil persister is dereferenced on a cache miss, so ReadAside.Get needs
   * one unless the cache read fails or hits.
   */
  predicate StoreNeeded(cache: CacheState, key: string)
  {
    CacheGet !in cache.faults && Lookup(cache.entries, key) == Nil
  }

  /**
   * ReadAside.Get as a function of the two stores' states: read the cache;
   * on error return it; on a miss select from the store; on a store error
   * return it; on a store hit backfill the cache, returning the value
   * together with the backfill's error.
   */
  function ReadAsideGet(key: string, cache: CacheState, store: Option<StoreState>): (r: GetOutcome)
    requires StoreNeeded(cache, key) ==> store.Some?
    // The only write is a backfill of the value returned.
    ensures r.cache == cache || (r.value != Nil && r.cache == AfterSet(cache, key, r.value))
    // A value comes from the cache or, on a miss, from the store.
    ensures r.value == Nil || r.value == Lookup(cache.entries, key)
            || (StoreNeeded(cache, key) && r.value == Lookup(store.value.rows, key))
    // A value returned without error is in the cache afterwards.
    ensures r.err.None? && r.value != Nil ==> Lookup(r.cache.entries, key) == r.value
  {
    var cached := Read(cache, key);
    if cached.err.Some? then GetOutcome(Nil, cached.err, cache)
    else if cached.value != Nil then GetOutcome(cached.value, None, cache)
    else
      var selected := Select(store.value, key);
      if selected.err.Some? then GetOutcome(Nil, selected.err, cache)
      else if selected.value == Nil then GetOutcome(Nil, None, cache)
      else GetOutcome(selected.value, Fault(cache, CacheSet), AfterSet(cache, key, selected.value))
  }

  datatype Pattern = CacheAside | ReadAside {

    /** Set writes to the cache only and returns the cache's error unchanged. */
    method Set(key: string, value: Any, c: CacherContract, p: PersisterContract?) returns (err: Option<Error>)
      requires ReadAside?
      modifies c`entries
      ensures err == Fault(old(c.State()), CacheSet)
      ensures c.State() == AfterSet(old(c.State()), key, value)
    {
      err := c.Set(key, value);
      if err.Some? {
        return err;
      }
      return None;
    }

    /** Get reads through the cache to the persister, backfilling the cache. */
    method Get(key: string, c: CacherContract, p: PersisterContract?) returns (value: Any, err: Option<Error>)
      requires ReadAside?
      requires StoreNeeded(c.State(), key) ==> p != null
      modifies c`entries
      ensures GetOutcome(value, err, c.State()) == ReadAsideGet(key, old(c.State()), StoreOf(p))
    {
      value, err := c.Get(key);
      if err.Some? {
        return Nil, err;
      }
      if value == Nil {
        value, err := p.SelectOne(key);
        if err.Some? {
          return Nil, err;
        }
        if value != Nil {
          var setErr := c.Set(key, value);
          if setErr.Some? {
            return value, setErr;
          }
        }
      }
      return value, None;
    }

    /** Delete removes the key from the cache only and returns the cache's error unchanged. */
    method Delete(key: string, c: CacherContract, p: PersisterContract?) returns (err: Option<Error>)
      requires ReadAside?
      modifies c`entries
      ensures err == Fault(old(c.State()), CacheDelete)
      ensures c.State() == AfterDelete(old(c.State()), key)
    {
      err := c.Delete(key);
      if err.Some? {
        return err;
      }
      return None;
    }
  }

  /** A failing cache read is returned as is; nothing else is consulted or written. */
  lemma GetCacheErrorReturned(key: string, cache: CacheState, store: Option<StoreState>)
    requires CacheGet in cache.faults
    ensures ReadAsideGet(key, cache, store) == GetOutcome(Nil, Some(CacheFailure(CacheGet)), cache)
  {
  }

  /** A cache hit is returned without consulting the store: any two stores give the same outcome. */
  lemma GetHitIgnoresStore(key: string, cache: CacheState, store1: Option<StoreState>, store2: Option<StoreState>)
    requires CacheGet !in cache.faults && key in cache.entries && cache.entries[key] != Nil
    ensures ReadAsideGet(key, cache, store1) == ReadAsideGet(key, cache, store2)
                                            == GetOutcome(cache.entries[key], None, cache)
  {
  }

  /** On a miss, a failing store read is returned as is and the cache is left alone. */
  lemma GetStoreErrorReturned(key: string, cache: CacheState, store: StoreState)
    requires StoreNeeded(cache, key) && StoreSelectOne in store.faults
    ensures ReadAsideGet(key, cache, Some(store)) == GetOutcome(Nil, Some(StoreFailure(StoreSelectOne)), cache)
  {
  }

  /** A miss in both stores is (nil, nil) and writes nothing. */
  lemma GetMissEverywhere(key: string, cache: CacheState, store: StoreState)
    requires StoreNeeded(cache, key) && StoreSelectOne !in store.faults && Lookup(store.rows, key) == Nil
    ensures ReadAsideGet(key, cache, Some(store)) == GetOutcome(Nil, None, cache)
  {
  }

  /**
   * A store hit is backfilled: the value is returned, with no error when the
   * backfill succeeds and with the cache's error (the value still returned)
   * when it fails.
   */
  lemma GetBackfills(key: string, cache: CacheState, store: StoreState)
    requires StoreNeeded(cache, key) && StoreSelectOne !in store.faults
    requires key in store.rows && store.rows[key] != Nil
    ensures var out := ReadAsideGet(key, cache, Some(store));
      && out.value == store.rows[key]
      && (CacheSet !in cache.faults ==> out.err == None && out.cache.entries == cache.entries[key := store.rows[key]])
      && (CacheSet in cache.faults ==> out.err == Some(CacheFailure(CacheSet)) && out.cache == cache)
  {
  }

  /** After a successful backfill the next Get is a hit, whatever the store holds then. */
  lemma BackfillThenHit(key: string, cache: CacheState, store: StoreState, later: Option<StoreState>)
    requires StoreNeeded(cache, key) && StoreSelectOne !in store.faults && CacheSet !in cache.faults
    requires key in store.rows && store.rows[key] != Nil
    ensures var first := ReadAsideGet(key, cache, Some(store));
      ReadAsideGet(key, first.cache, later) == GetOutcome(store.rows[key], None, first.cache)
  {
  }

  /** With a non-failing cache, Set(k, v) then Get(k) returns (v, nil) for any non-nil v. */
  lemma SetThenGet(key: string, value: Any, cache: CacheState, store: Option<StoreState>)
    requires CacheSet !in cache.faults && CacheGet !in cache.faults && value != Nil
    ensures var written := AfterSet(cache, key, value);
      ReadAsideGet(key, written, store) == GetOutcome(value, None, written)
  {
  }

  /**
   * Setting nil is not a round trip: the stored nil reads as a miss, so Get
   * falls through to the store and returns whatever the store holds.
   */
  lemma SetNilThenGetReadsStore(key: string, cache: CacheState, store: StoreState)
    requires CacheSet !in cache.faults && CacheGet !in cache.faults && StoreSelectOne !in store.faults
    requires key in store.rows && store.rows[key] != Nil
    ensures ReadAsideGet(key, AfterSet(cache, key, Nil), Some(store)).value == store.rows[key]
  {
  }

  /** After a successful Delete, Get no longer sees the old entry and asks the store. */
  lemma DeleteThenGetReadsStore(key: string, cache: CacheState, store: StoreState)
    requires CacheDelete !in cache.faults && CacheGet !in cache.faults && StoreSelectOne !in store.faults
    ensures ReadAsideGet(key, AfterDelete(cache, key), Some(store)).value == Lookup(store.rows, key)
  {
  }
}
