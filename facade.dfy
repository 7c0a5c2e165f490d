/**
 * The facade (cache.go): PatternedCache binds one cacher, an optional
 * persister and one pattern at construction, and forwards every Set, Get
 * and Delete to the pattern with its cacher and persister.
 */
module Facade {
  import opened Wrappers
  import opened Contracts
  import opened Patterns

  /** Option: the only facade option defined is WithPattern (whose pattern may be nil). */
  datatype CacheOption = WithPattern(pattern: Option<Pattern>) {

    method Apply(c: PatternedCache)
      modifies c`pattern
      ensures c.pattern == pattern
    {
      c.pattern := pattern;
    }
  }

  /**
   * The pattern field after applying `options` in order to a cache whose
   * pattern was `initial`: the last option's pattern (nil included), or
   * `initial` when there is no option.
   */
  function BoundPattern(initial: Option<Pattern>, options: seq<CacheOption>): (p: Option<Pattern>)
    ensures options == [] ==> p == initial
    ensures options != [] ==> p == options[|options| - 1].pattern
    decreases |options|
  {
    if options == [] then initial else BoundPattern(options[0].pattern, options[1..])
  }

  /** The pattern New binds: that of the last WithPattern if it is not nil, else CacheAside. */
  function SelectedPattern(options: seq<CacheOption>): (p: Pattern)
    ensures p == CacheAside || exists i | 0 <= i < |options| :: options[i].pattern == Some(p)
  {
    match BoundPattern(None, options)
    case Some(p) => p
    case None => CacheAside
  }

  /** Without any WithPattern option, or when the last one is nil, New binds CacheAside. */
  lemma DefaultPatternIsCacheAside(options: seq<CacheOption>)
    requires options == [] || options[|options| - 1].pattern == None
    ensures SelectedPattern(options) == CacheAside
  {
  }

  /** Otherwise the last WithPattern wins, whatever the earlier ones said. */
  lemma LastPatternWins(options: seq<CacheOption>, p: Pattern)
    requires options != [] && options[|options| - 1].pattern == Some(p)
    ensures SelectedPattern(options) == p
  {
  }

  class PatternedCache {
    var cacher: CacherContract
    var persister: PersisterContract?
    var pattern: Option<Pattern>

    /** The struct literal New starts from: no pattern yet. */
    constructor (cacher: CacherContract, persister: PersisterContract?)
      ensures this.cacher == cacher && this.persister == persister && pattern == None
    {
      this.cacher := cacher;
      this.persister := persister;
      pattern := None;
    }

    /** defaults installs CacheAside when no pattern is set and never replaces a set one. */
    method Defaults()
      modifies this`pattern
      ensures old(pattern).Some? ==> pattern == old(pattern)
      ensures old(pattern).None? ==> pattern == Some(CacheAside)
    {
      if pattern.None? {
        pattern := Some(CacheAside);
      }
    }

    /**
     * New fails with ErrCacherNil on a nil cacher; otherwise it holds exactly
     * the given cacher and persister (nil accepted) and the selected pattern.
     */
    static method New(cacher: CacherContract?, persister: PersisterContract?, options: seq<CacheOption>)
      returns (cache: PatternedCache?, err: Option<Error>)
      ensures cacher == null ==> cache == null && err == Some(ErrCacherNil)
      ensures cacher != null ==> err == None && cache != null && fresh(cache)
      ensures cacher != null ==> cache.cacher == cacher && cache.persister == persister
      ensures cacher != null ==> cache.pattern == Some(SelectedPattern(options))
    {
      if cacher == null {
        return null, Some(ErrCacherNil);
      }
      cache := new PatternedCache(cacher, persister);
      for i := 0 to |options|
        invariant cache.cacher == cacher && cache.persister == persister
        invariant BoundPattern(cache.pattern, options[i..]) == BoundPattern(None, options)
      {
        assert options[i..][1..] == options[i + 1..];
        options[i].Apply(cache);
      }
      assert options[|options|..] == [];
      cache.Defaults();
      err := None;
    }

    /**
     * Set forwards to the pattern with the bound cacher and persister. The
     * per-call options are accepted but not forwarded: the Pattern interface
     * has no parameter for them.
     */
    method Set(key: string, value: Any, options: seq<SetOption>) returns (err: Option<Error>)
      requires pattern == Some(ReadAside)
      modifies cacher`entries
      ensures err == Fault(old(cacher.State()), CacheSet)
      ensures cacher.State() == AfterSet(old(cacher.State()), key, value)
    {
      err := pattern.value.Set(key, value, cacher, persister);
    }

    /** Get forwards to the pattern and returns exactly what it returns. */
    method Get(key: string) returns (value: Any, err: Option<Error>)
      requires pattern == Some(ReadAside)
      requires StoreNeeded(cacher.State(), key) ==> persister != null
      modifies cacher`entries
      ensures GetOutcome(value, err, cacher.State()) == ReadAsideGet(key, old(cacher.State()), StoreOf(persister))
    {
      value, err := pattern.value.Get(key, cacher, persister);
    }

    /** Delete forwards to the pattern and returns exactly what it returns. */
    method Delete(key: string) returns (err: Option<Error>)
      requires pattern == Some(ReadAside)
      modifies cacher`entries
      ensures err == Fault(old(cacher.State()), CacheDelete)
      ensures cacher.State() == AfterDelete(old(cacher.State()), key)
    {
      err := pattern.value.Delete(key, cacher, persister);
    }
  }
}
