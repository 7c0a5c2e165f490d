/**
 * The shared vocabulary of the cache package: values, errors, per-call set
 * options, and the two collaborator contracts (Cacher and Persister) that
 * every pattern composes. A collaborator is modelled as a key-to-value map
 * plus the set of its operations that currently fail, so that every
 * success and failure path of a pattern can be stated deterministically.
 */
module Contracts {
  import opened Wrappers

  /** time.Duration: a signed count of nanoseconds. */
  type Duration = int

  const Second: Duration := 1_000_000_000
  const Minute: Duration := 60 * Second

  /** A cached value (Go's `any`); `Nil` is how every store says "not found". */
  datatype Any = Nil | Str(s: string)

  /** The operations of a Cacher and of a Persister that can be made to fail. */
  datatype CacheOp = CacheSet | CacheGet | CacheDelete
  datatype StoreOp = StoreSelectOne

  /** Every error value the modelled code can return. */
  datatype Error =
    | ErrCacherNil                   // New was given a nil cacher
    | CacheFailure(cacheOp: CacheOp)  // a Cacher call failed
    | StoreFailure(storeOp: StoreOp)  // a Persister call failed
    | ErrClosed                      // go-redis: the client is closed
    | RedisNil                       // go-redis: the key does not exist

  /** SetConfiguration: the configuration one Set call resolves. */
  class SetConfiguration {
    var ttl: Duration

    constructor (ttl: Duration)
      ensures this.ttl == ttl
    {
      this.ttl := ttl;
    }
  }

  /** SetOption: the only option defined is WithTTL. */
  datatype SetOption = WithTTL(ttl: Duration) {

    /** Applying WithTTL(d) overrides the TTL whatever it was before. */
    method Apply(config: SetConfiguration)
      modifies config
      ensures config.ttl == ttl
    {
      config.ttl := ttl;
    }
  }

  /**
   * The TTL that folding `options` over a configuration whose TTL is `base`
   * leaves behind: the last option wins, and no option keeps `base`.
   */
  function ResolveTTL(base: Duration, options: seq<SetOption>): (ttl: Duration)
    ensures options == [] ==> ttl == base
    ensures options != [] ==> ttl == options[|options| - 1].ttl
    decreases |options|
  {
    if options == [] then base else ResolveTTL(options[0].ttl, options[1..])
  }

  /** Later options override earlier ones: folding in two steps is folding once. */
  lemma {:induction false} ResolveTTLAppend(base: Duration, first: seq<SetOption>, second: seq<SetOption>)
    ensures ResolveTTL(base, first + second) == ResolveTTL(ResolveTTL(base, first), second)
  {
    if second != [] {
      assert (first + second)[|first + second| - 1] == second[|second| - 1];
    } else {
      assert first + second == first;
    }
  }

  /**
   * The loop each adapter's Set runs: start from the adapter's global TTL and
   * apply the per-call options in order.
   */
  method ResolveSetConfiguration(base: Duration, options: seq<SetOption>) returns (config: SetConfiguration)
    ensures fresh(config)
    ensures config.ttl == ResolveTTL(base, options)
  {
    config := new SetConfiguration(base);
    for i := 0 to |options|
      invariant ResolveTTL(config.ttl, options[i..]) == ResolveTTL(base, options)
    {
      assert options[i..][1..] == options[i + 1..];
      options[i].Apply(config);
    }
    assert options[|options|..] == [];
  }

  /** The value a map holds for `key`, `Nil` when it holds none. */
  function Lookup(m: map<string, Any>, key: string): (v: Any)
    ensures key !in m ==> v == Nil
  {
    if key in m then m[key] else Nil
  }

  /** A Cacher as its callers see it: its entries and its failing operations. */
  datatype CacheState = CacheState(entries: map<string, Any>, faults: set<CacheOp>)

  /** A Persister as its callers see it: its rows and its failing operations. */
  datatype StoreState = StoreState(rows: map<string, Any>, faults: set<StoreOp>)

  /** A `(value, error)` pair as Get-like calls return it. */
  datatype Reply = Reply(value: Any, err: Option<Error>)

  /** The error a Cacher call `op` returns in state `s`: it fails exactly when `op` is faulty. */
  function Fault(s: CacheState, op: CacheOp): (err: Option<Error>)
    ensures err.Some? <==> op in s.faults
    ensures err.Some? ==> err.value == CacheFailure(op)
  {
    if op in s.faults then Some(CacheFailure(op)) else None
  }

  /** Cacher.Get in state `s`: the entry for `key` (`Nil` if absent), or the failure. */
  function Read(s: CacheState, key: string): (r: Reply)
    ensures r.err == Fault(s, CacheGet)
    ensures r.err.Some? ==> r.value == Nil
    ensures r.err.None? ==> r.value == Lookup(s.entries, key)
  {
    if CacheGet in s.faults then Reply(Nil, Fault(s, CacheGet)) else Reply(Lookup(s.entries, key), None)
  }

  /** The state Cacher.Set leaves: `key` now maps to `value`, or nothing changed if the call failed. */
  function AfterSet(s: CacheState, key: string, value: Any): (t: CacheState)
    ensures t.faults == s.faults
    ensures CacheSet in s.faults ==> t == s
    ensures CacheSet !in s.faults ==> t.entries.Keys == s.entries.Keys + {key}
    ensures CacheSet !in s.faults ==> Lookup(t.entries, key) == value
    ensures forall k | k != key :: Lookup(t.entries, k) == Lookup(s.entries, k)
  {
    if CacheSet in s.faults then s else s.(entries := s.entries[key := value])
  }

  /** A successful Set is seen by the next successful Get. */
  lemma ReadAfterSet(s: CacheState, key: string, value: Any)
    requires CacheSet !in s.faults && CacheGet !in s.faults
    ensures Read(AfterSet(s, key, value), key) == Reply(value, None)
  {
  }

  /** The state Cacher.Delete leaves: `key` is gone, or nothing changed if the call failed. */
  function AfterDelete(s: CacheState, key: string): (t: CacheState)
    ensures t.faults == s.faults
    ensures CacheDelete in s.faults ==> t == s
    ensures CacheDelete !in s.faults ==> t.entries.Keys == s.entries.Keys - {key}
    ensures forall k | k != key :: Lookup(t.entries, k) == Lookup(s.entries, k)
  {
    if CacheDelete in s.faults then s else s.(entries := s.entries - {key})
  }

  /** After a successful Delete, a successful Get finds nothing. */
  lemma ReadAfterDelete(s: CacheState, key: string)
    requires CacheDelete !in s.faults && CacheGet !in s.faults
    ensures Read(AfterDelete(s, key), key) == Reply(Nil, None)
  {
  }

  /** Persister.SelectOne in state `s`: the row for `key` (`Nil` if absent), or the failure. */
  function Select(s: StoreState, key: string): (r: Reply)
    ensures StoreSelectOne in s.faults ==> r == Reply(Nil, Some(StoreFailure(StoreSelectOne)))
    ensures StoreSelectOne !in s.faults ==> r == Reply(Lookup(s.rows, key), None)
  {
    if StoreSelectOne in s.faults then Reply(Nil, Some(StoreFailure(StoreSelectOne)))
    else Reply(Lookup(s.rows, key), None)
  }

  /**
   * The Cacher interface: any cache implementation, seen through its
   * contract. The patterns call Set without options, so TTLs play no part
   * here.
   */
  class CacherContract {
    var entries: map<string, Any>
    var faults: set<CacheOp>

    constructor (entries: map<string, Any>, faults: set<CacheOp>)
      ensures this.entries == entries && this.faults == faults
    {
      this.entries := entries;
      this.faults := faults;
    }

    function State(): (s: CacheState)
      reads this
    {
      CacheState(entries, faults)
    }

    method Set(key: string, value: Any) returns (err: Option<Error>)
      modifies this`entries
      ensures err == Fault(old(State()), CacheSet)
      ensures State() == AfterSet(old(State()), key, value)
    {
      err := Fault(State(), CacheSet);
      if err.None? {
        entries := entries[key := value];
      }
    }

    method Get(key: string) returns (value: Any, err: Option<Error>)
      ensures Reply(value, err) == Read(State(), key)
    {
      err := Fault(State(), CacheGet);
      value := if err.None? then Lookup(entries, key) else Nil;
    }

    method Delete(key: string) returns (err: Option<Error>)
      modifies this`entries
      ensures err == Fault(old(State()), CacheDelete)
      ensures State() == AfterDelete(old(State()), key)
    {
      err := Fault(State(), CacheDelete);
      if err.None? {
        entries := entries - {key};
      }
    }
  }

  /** The Persister interface: any durable store, seen through its contract. */
  class PersisterContract {
    var rows: map<string, Any>
    var faults: set<StoreOp>

    constructor (rows: map<string, Any>, faults: set<StoreOp>)
      ensures this.rows == rows && this.faults == faults
    {
      this.rows := rows;
      this.faults := faults;
    }

    function State(): (s: StoreState)
      reads this
    {
      StoreState(rows, faults)
    }

    method SelectOne(key: string) returns (value: Any, err: Option<Error>)
      ensures Reply(value, err) == Select(State(), key)
    {
      if StoreSelectOne in faults {
        value, err := Nil, Some(StoreFailure(StoreSelectOne));
      } else {
        value, err := Lookup(rows, key), None;
      }
    }
  }
}
