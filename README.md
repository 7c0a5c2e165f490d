# albinzx/cache in Dafny

A model of a small Go caching library. Its parts:

- **The facade** (`PatternedCache`, cache.go) binds three things at construction: one `Cacher`, an optional `Persister` and a `Pattern`. It then forwards `Set`, `Get` and `Delete` to that pattern.
- **The `ReadAside` pattern** (pattern.go) writes and deletes in the cache only. It reads the cache first. On a miss it selects from the persister and backfills the cache.
- **Key prefixing** (internal/prefix.go).
- **Two `Cacher` adapters**: an in-memory one over go-cache (memory/memory.go) and a Redis one over go-redis (redis/redis.go).

Modules, by source file. cache.go yields two modules, `Contracts` and `Facade`. `Wrappers` holds the `Option` type and comes from no source file:

| module | file | source |
|---|---|---|
| `Wrappers` | wrappers.dfy | Go's nil-able results (`Option`) |
| `Contracts` | contracts.dfy | cache.go: values, errors, `SetOption`, `SetConfiguration`, and the `Cacher` and `Persister` contracts |
| `Patterns` | pattern.dfy | pattern.go |
| `Facade` | facade.dfy | cache.go: `PatternedCache`, `New`, `defaults`, `WithPattern` |
| `Internal` | prefix.dfy | internal/prefix.go |
| `Memory` | memory.dfy | memory/memory.go over a model of go-cache |
| `Redis` | redis.dfy | redis/redis.go over a model of a go-redis client |

## How the model is built

- **Cacher and Persister contracts.** The patterns see each collaborator only through its interface. Each is modelled as a map from key to value plus a `faults` set naming the operations that currently fail. A failing call returns `CacheFailure(op)` or `StoreFailure(op)` and changes nothing. So every branch of `ReadAside` can be reached and stated deterministically.
- **Spec function for `ReadAside.Get`.** `Patterns.ReadAsideGet` computes what `Get` does, as a function of the two stores' states. The method `Patterns.Pattern.Get` and the facade's `Get` are both proved equal to it. The lemmas beside it state each row of its branching table and the round trips.
- **Error values.** A Go `error` is `Option<Error>`, where `None` is nil.
- **Values.** A value (`any`) is `Nil` or a string.
- **Durations.** `time.Duration` is an unbounded `int` of nanoseconds.
- **Functional options.** Go's functional options become datatypes whose `Apply` method updates the struct, exactly as the closures do. The option folds in `New` and in `Set` are `for` loops. Each loop is proved against a function that folds the options from the front. Lemmas then prove that the last option touching a field wins, against an independent scan from the back (`Redis.LastWhere`).
- **Go-cache and the Redis server.** Both are classes holding a map.
  - Go-cache maps key to `(value, ttl)`.
  - Redis maps key to `(string, ttl)` and has a `closed` flag.
  - Sharing one Redis client between cachers (`WithSharedRedisClient`) is aliasing of one `RedisClient` object.
- **What the model assumes of go-redis.** `SET` and `DEL` on a closed client write nothing and fail with `ErrClosed`. `GET` on a closed client yields `""` with `ErrClosed`. `GET` of an absent key yields `""` with `redis.Nil`. A second `Close` returns `ErrClosed`. Closing a client deletes no server data. The `Str("")` clause of `Redis.Cacher.Get` rests on the `GET` assumptions.
- **What the model assumes of go-cache.** `Set`, `Get`, `Delete` and `Flush` act on one map and never fail. `Get` reports whether the key is present.
- **The adapters and the Cacher contract.** `ReadAside` is proved against `Contracts.CacherContract`. The memory adapter meets that contract with no faults: `Get` is `Read`, `Set` is `AfterSet` and `Delete` is `AfterDelete` on its items' values. The Redis adapter departs from it in two ways. `Set(k, nil)` reads back as `Str("")`, not nil. A closed client's `Get` returns `("", nil)`, which `ReadAside.Get` takes for a hit.

These behaviours of the code are proved as written, and left as they are:

- **A cache read error is returned.** `ReadAside.Get` returns the error; it does not treat it as a miss (pattern.go:31-34).
- **A nil persister is dereferenced on a miss.** So `Get` requires a persister whenever the cache read neither fails nor hits (pattern.go:37).
- **A failed backfill returns the value and the error together** (pattern.go:43-45).
- **`Set(k, nil)` is not a round trip through `ReadAside`.** A stored nil reads as a miss, and `Get` falls through to the persister (`Patterns.SetNilThenGetReadsStore`).
- **The Redis `Get` never returns an error without a marshaller.** Any reply error other than `redis.Nil` comes back as `("", nil)`. On a closed client, for example, `Get` yields `Str("")` with a nil error (redis/redis.go:74-92).
- **Key prefixes can collide across names.** For one name, `WithPrefix.Prefix` is injective. Because names may contain dots, two different names can still produce the same stored key (`Internal.DistinctNamesCanCollide`).

## Model

| member | source | states |
|---|---|---|
| Contracts.SetOption.Apply | cache.go:33-38 | `WithTTL(d)` sets the configuration's TTL to `d` whatever it was before |
| Contracts.ResolveTTL | cache.go:31-38 | folding set options over a base TTL yields the last option's TTL, or the base when there is none |
| Contracts.ResolveTTLAppend | cache.go:31-38 | later options override earlier ones: folding `a + b` is folding `b` over the result of folding `a` |
| Contracts.ResolveSetConfiguration | memory/memory.go:45-49 | the loop both adapters' `Set` runs (also redis/redis.go:52-56) yields a fresh configuration whose TTL is `ResolveTTL(global ttl, options)` |
| Contracts.Read | cache.go:45-46 | a Cacher `Get` returns the entry (nil when absent) with no error, or nil and the failure when the read fails |
| Contracts.AfterSet | cache.go:43-44 | a successful Cacher `Set` makes the key map to the value and leaves every other key alone; a failing one changes nothing |
| Contracts.AfterDelete | cache.go:47-48 | a successful Cacher `Delete` removes exactly the key; a failing one changes nothing |
| Contracts.ReadAfterSet | cache.go:43-46 | with `Set` and `Get` not failing, a `Get` after `Set(k, v)` returns `(v, nil)` |
| Contracts.ReadAfterDelete | cache.go:45-48 | with `Delete` and `Get` not failing, a `Get` after `Delete(k)` returns `(nil, nil)` |
| Contracts.Select | cache.go:60-61 | `SelectOne` returns the row (nil when absent) with no error, or nil and the failure |
| Contracts.CacherContract.Set | cache.go:43-44 | the Cacher contract's `Set` returns its fault and leaves the state `AfterSet` describes |
| Contracts.CacherContract.Get | cache.go:45-46 | the Cacher contract's `Get` returns what `Read` describes and changes nothing |
| Contracts.CacherContract.Delete | cache.go:47-48 | the Cacher contract's `Delete` returns its fault and leaves the state `AfterDelete` describes |
| Contracts.PersisterContract.SelectOne | cache.go:60-61 | the Persister contract's `SelectOne` returns what `Select` describes and changes nothing |
| Patterns.ReadAsideGet | pattern.go:30-50 | the only cache write is a backfill of the value returned; a returned value comes from the cache or, on a miss, from the store; a value returned without error is in the cache afterwards |
| Patterns.Pattern.Set | pattern.go:18-24 | `ReadAside.Set` writes `(key, value)` to the cache only; the persister is not in its frame; it returns the cache's error unchanged |
| Patterns.Pattern.Get | pattern.go:30-50 | `ReadAside.Get` returns exactly `ReadAsideGet`'s value and error and leaves its cache state; it may change only the cache's entries; it needs a persister only on a miss |
| Patterns.Pattern.Delete | pattern.go:53-59 | `ReadAside.Delete` removes the key from the cache only, leaves other keys unchanged, and returns the cache's error |
| Patterns.GetCacheErrorReturned | pattern.go:31-34 | a failing cache read yields `(nil, err)` with that same error, and the cache is not written |
| Patterns.GetHitIgnoresStore | pattern.go:31-49 | a cache hit returns the cached value with no error, whatever the store holds (or if there is none) |
| Patterns.GetStoreErrorReturned | pattern.go:36-40 | on a miss, a failing `SelectOne` yields `(nil, err)` with the store's error, and the cache is unchanged |
| Patterns.GetMissEverywhere | pattern.go:36-49 | a miss in both stores yields `(nil, nil)` and performs no cache write |
| Patterns.GetBackfills | pattern.go:42-49 | a store hit returns its value. The value is written into the cache with no error, or, if that write fails, returned together with the cache's error and the cache is unchanged |
| Patterns.BackfillThenHit | pattern.go:36-49 | after a successful backfill, the next `Get` is a cache hit with the same value, whatever the store then holds |
| Patterns.SetThenGet | pattern.go:18-35 | with a non-failing cache, `Set(k, v)` then `Get(k)` returns `(v, nil)` for every non-nil `v` |
| Patterns.SetNilThenGetReadsStore | pattern.go:36-37 | after `Set(k, nil)`, `Get(k)` treats the stored nil as a miss and returns the store's value |
| Patterns.DeleteThenGetReadsStore | pattern.go:30-40 | after a successful `Delete(k)`, `Get(k)` returns what the store holds for `k` |
| Facade.CacheOption.Apply | cache.go:104-109 | `WithPattern(p)` sets the pattern field to `p`, nil included |
| Facade.BoundPattern | cache.go:86-88 | folding the options over the pattern field leaves the last option's pattern, or the initial one when there is no option |
| Facade.SelectedPattern | cache.go:86-101 | the bound pattern is `CacheAside` or the pattern of one of the `WithPattern` options |
| Facade.DefaultPatternIsCacheAside | cache.go:98-102 | with no option, or with a nil last `WithPattern`, `New` binds `CacheAside` |
| Facade.LastPatternWins | cache.go:86-89 | otherwise the pattern of the last `WithPattern` is bound |
| Facade.PatternedCache.constructor | cache.go:81-84 | the struct literal holds the given cacher and persister and no pattern |
| Facade.PatternedCache.Defaults | cache.go:98-102 | `defaults` installs `CacheAside` when no pattern is set and never replaces a set one |
| Facade.PatternedCache.New | cache.go:76-92 | a nil cacher yields no cache and `ErrCacherNil`. Otherwise `New` returns a fresh cache holding exactly that cacher and that persister (nil accepted) and `SelectedPattern(options)` |
| Facade.PatternedCache.Set | cache.go:112-114 | forwards to the pattern with the stored cacher and persister and returns exactly its error and effect; the facade's fields are outside its frame |
| Facade.PatternedCache.Get | cache.go:117-119 | returns exactly what the bound pattern's `Get` returns, with the same effect on the cache |
| Facade.PatternedCache.Delete | cache.go:122-124 | returns exactly what the bound pattern's `Delete` returns, with the same effect on the cache |
| Internal.KeyPrefix.Prefix | internal/prefix.go:16-27 | `NoPrefix` is the identity. `WithPrefix{n}` gives a key of length `\|n\| + 1 + \|k\|`, starting with `n + "."` and ending with `k` |
| Internal.KeyPrefix.Unprefix | internal/prefix.go:16-18 | the inverse of `Prefix`: whatever key it recovers prefixes back to the stored key |
| Internal.UnprefixPrefix | internal/prefix.go:16-18 | `Unprefix(Prefix(k)) == Some(k)` for both prefixes |
| Internal.PrefixInjective | internal/prefix.go:17 | for a fixed prefix, distinct keys never collide |
| Internal.NoPrefixIdempotent | internal/prefix.go:25-27 | `NoPrefix.Prefix` applied twice equals applying it once, and equals the key |
| Internal.DistinctNamesCanCollide | internal/prefix.go:17 | names `a` and `a.b` store keys `b.c` and `c` under the same name `a.b.c` |
| Memory.CacherOption.Apply | memory/memory.go:83-88 | `WithTTL(d)` sets the global TTL to `d` |
| Memory.GlobalTTL | memory/memory.go:35-37 | folding the options yields the last `WithTTL`, or the starting TTL when there is none |
| Memory.DefaultExpirationFor | memory/memory.go:20-24 | the store's default expiration is the global TTL exactly when that is above one second, and no-expiration otherwise |
| Memory.Cacher.constructor | memory/memory.go:33 | `New` starts from a cacher with no store and a zero TTL |
| Memory.Cacher.Defaults | memory/memory.go:18-26 | creates an empty store with `DefaultExpirationFor(ttl)` and the 10-minute cleanup interval when there is none; keeps an existing one |
| Memory.Cacher.New | memory/memory.go:32-42 | applies the options in order, so the last `WithTTL` wins. It then creates an empty store with the matching default expiration |
| Memory.Cacher.Set | memory/memory.go:44-54 | maps the key to the value with TTL `ResolveTTL(global ttl, options)`, leaves other keys alone, and returns nil |
| Memory.Cacher.Get | memory/memory.go:56-62 | returns `(v, nil)` for a present key and `(nil, nil)` for an absent one; it never errors |
| Memory.Cacher.Delete | memory/memory.go:64-68 | removes the key, leaves every other key unchanged, and returns nil |
| Memory.Cacher.Load | memory/memory.go:70-76 | every key of `data` maps to its value with the global TTL; other keys are unchanged; the result is nil |
| Memory.Cacher.Close | memory/memory.go:78-81 | empties the store and returns nil |
| Memory.SetThenGet | memory/memory.go:44-62 | `Set(k, v)` then `Get(k)` returns `(v, nil)` |
| Redis.ToLower | redis/redis.go:178-179 | the lower-cased name has the same length; each upper-case ASCII letter becomes its lower-case counterpart; every other character is unchanged |
| Redis.ToLowerIdempotent | redis/redis.go:178-179 | lower-casing a name twice is lower-casing it once |
| Redis.NamePrefix | redis/redis.go:172-184 | `WithName` selects no prefix exactly for the empty name; otherwise a prefix as long as the name with no upper-case letter |
| Redis.NamePrefixKeys | redis/redis.go:172-184 | `WithName("")` stores keys as they are. `WithName(n)` stores them as `lower(n) + "." + k` |
| Redis.NamePrefixIgnoresCase | redis/redis.go:178-179 | names that agree after lower-casing select the same prefix |
| Redis.CacherOption.ApplyTo | redis/redis.go:146-184 | each option leaves every field it does not set unchanged; `WithName` always sets a prefix |
| Redis.CacherOption.Apply | redis/redis.go:146-184 | each option sets exactly the fields its closure sets; `WithSharedRedisClient` sets both the client and `closeClient` |
| Redis.Folded | redis/redis.go:39-47 | folding no options changes nothing; a field that no option sets keeps its starting value |
| Redis.FoldedSnoc | redis/redis.go:42-44 | folding one more option applies it to the settings folded so far |
| Redis.FoldedTTL | redis/redis.go:163-168 | after the options, the global TTL is that of the last `WithTTL`, else unchanged |
| Redis.FoldedPrefix | redis/redis.go:170-184 | after the options, the prefix is the one chosen by the last `WithName`, else unchanged |
| Redis.FoldedClient | redis/redis.go:146-161 | after the options, the client is that of the last `WithRedisClient` or `WithSharedRedisClient` (nil included), else unchanged |
| Redis.FoldedCloseClient | redis/redis.go:153-161 | after the options, `closeClient` is the flag of the last `WithSharedRedisClient`, else unchanged |
| Redis.Cacher.constructor | redis/redis.go:40 | `New` starts from `closeClient = true` and every other field zero |
| Redis.Cacher.Defaults | redis/redis.go:25-33 | fills a nil client with a fresh, open default client over the given server contents and a nil prefix with `NoPrefix`; leaves set fields unchanged |
| Redis.Cacher.New | redis/redis.go:39-49 | the result is never nil. Its TTL, `closeClient`, prefix and client are the options folded over `closeClient = true`, with nil client and prefix filled in by `defaults` |
| Redis.Cacher.Set | redis/redis.go:51-69 | writes the value under `prefix.Prefix(k)` with TTL `ResolveTTL(global ttl, options)`; on a closed client it writes nothing and returns `ErrClosed` |
| Redis.Cacher.Get | redis/redis.go:71-93 | returns `(nil, nil)` when the prefixed key is absent and the stored string otherwise; the error is always nil |
| Redis.Cacher.Delete | redis/redis.go:95-97 | removes exactly `prefix.Prefix(k)` and returns the client's error |
| Redis.Cacher.Load | redis/redis.go:125-135 | writes every entry under its prefixed key with the global TTL and leaves other keys alone. On a closed client it writes nothing and fails unless `data` is empty |
| Redis.Cacher.Close | redis/redis.go:138-144 | closes the client if `closeClient` is set, returning its error. Otherwise it returns nil and leaves the client untouched. The server's keys are kept either way |
| Redis.SetThenGet | redis/redis.go:51-92 | on an open client, `Set(k, v)` then `Get(k)` returns the encoding of `v`: `v` itself for a string, `""` for nil |

## Left out

- Facade.PatternedCache.Set: requires the bound pattern to be `ReadAside`. `CacheAside`, the default chosen at cache.go:100, is defined in neither cache.go nor pattern.go. It is therefore a tag without behaviour here, and a facade bound to it has no modelled operations.
- Facade.PatternedCache.Get: requires the bound pattern to be `ReadAside`, for the same reason.
- Facade.PatternedCache.Delete: requires the bound pattern to be `ReadAside`, for the same reason.
- Facade.PatternedCache.Set: accepts per-call set options but does not forward them. cache.go:113 passes `options...` to `pattern.Set`, but the `Pattern` interface at pattern.go:6 has no such parameter.
- Facade options: a caller can write any function of type `Option`. Only `WithPattern` is modelled.
- Other strategies (write-through, write-behind, write-around) are not part of this model: neither cache.go nor pattern.go defines them.
- Contracts.CacherContract: `Load`, `Close` and per-call set options are not part of the abstract contract. The patterns never call them, and the abstract cache keeps no TTLs. Both adapters model them.
- Contracts.PersisterContract: only `SelectOne` is modelled. `Save`, `SelectAll`, `Delete` and `Close` are called by no modelled code, and none of the modelled files implements the interface.
- Collaborator failures: a faulty operation fails on every call and leaves the store unchanged. Intermittent failures and partial writes are not modelled.
- `context.Context`: no modelled code reads it, so it is dropped.
- Marshaller: `WithMarshaller` and every marshaller path of the Redis cacher (redis/redis.go:58-66, 78-89, 101-123) belong to a foreign library and are not modelled.
- Values: a value is nil or a string. go-redis writes other Go types (byte slices, numbers) as their string forms; those conversions are not modelled.
- Memory: go-cache's expiry, its janitor, and its reading of zero or negative durations are not modelled. An item keeps the TTL it was stored with, as metadata only.
- Redis server: network round trips and server-side expiry are not modelled. The only client failure is a closed client (`ErrClosed`).
- Redis.Cacher.Load: the pipeline (one batched round trip) is modelled as one `SET` per entry, keeping the first error. With a closed client as the only failure, the outcome is the same: nothing written and `ErrClosed` when there is at least one entry; everything written otherwise.
- Redis.Cacher.Defaults: the default client (`goredis.NewClient` with empty options) is modelled as a fresh, open client. The contents of the server it reaches are a parameter (`server`) of `Defaults` and `New`, since the cacher cannot see them.
- Redis.ToLower: lower-cases ASCII letters only. Go's `strings.ToLower` also maps non-ASCII upper-case letters, which the model leaves unchanged.
