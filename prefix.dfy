/**
 * Key namespacing (internal/prefix.go): a KeyPrefix either leaves keys
 * alone or puts "<name>." in front of them.
 */
module Internal {
  import opened Wrappers

  datatype KeyPrefix = NoPrefix | WithPrefix(name: string) {

    /** The key as stored: `name`, a dot, then `key`; or `key` itself for NoPrefix. */
    function Prefix(key: string): (r: string)
      ensures NoPrefix? ==> r == key
      ensures WithPrefix? ==> |r| == |name| + 1 + |key|
      ensures WithPrefix? ==> r[..|name| + 1] == name + "." && r[|name| + 1..] == key
    {
      match this
      case NoPrefix => key
      case WithPrefix(n) => n + "." + key
    }

    /** The partner of Prefix: the key a stored key came from, if it carries this prefix. */
    function Unprefix(stored: string): (key: Option<string>)
      ensures key.Some? ==> Prefix(key.value) == stored
    {
      match this
      case NoPrefix => Some(stored)
      case WithPrefix(n) =>
        if |n| + 1 <= |stored| && stored[..|n| + 1] == n + "." then
          assert stored == stored[..|n| + 1] + stored[|n| + 1..];
          Some(stored[|n| + 1..])
        else None
    }
  }

  /** Unprefix undoes Prefix. */
  lemma UnprefixPrefix(p: KeyPrefix, key: string)
    ensures p.Unprefix(p.Prefix(key)) == Some(key)
  {
  }

  /** Under one prefix, distinct keys are stored under distinct names. */
  lemma PrefixInjective(p: KeyPrefix, k1: string, k2: string)
    requires p.Prefix(k1) == p.Prefix(k2)
    ensures k1 == k2
  {
    UnprefixPrefix(p, k1);
    UnprefixPrefix(p, k2);
  }

  /** NoPrefix is the identity, so applying it twice is applying it once. */
  lemma NoPrefixIdempotent(key: string)
    ensures NoPrefix.Prefix(NoPrefix.Prefix(key)) == NoPrefix.Prefix(key) == key
  {
  }

  /**
   * Injectivity holds only for one name: because names may contain dots,
   * two different names can map two different keys to the same stored key.
   */
  lemma DistinctNamesCanCollide()
    ensures WithPrefix("a").Prefix("b.c") == WithPrefix("a.b").Prefix("c") == "a.b.c"
  {
  }
}
