# dcache: the local TTL cache and the cache pool's miss resolution

This project models the two stateful pieces of the `dcache` distributed read-through cache, and proves properties of them.

- **The local cache** (`pkg/cache/cache.go`) maps keys to entries. Each entry holds its own key, a byte value and an absolute expiry time. `Set` writes `expire = now + ttl`. `Get` evicts lazily: it deletes the entry and reports a miss only when the expiry is non-zero and strictly before `now`. `Delete` removes the key unconditionally.
- **The cache pool** (`pkg/cachepool/cachepool.go`) resolves a key in four ordered stages: a local hit; the peer the consistent-hash ring names; the origin fetcher; and a backfill of the fetched bytes into the local cache with the pool's ttl.

Layout:

- `wrappers.dfy`: `Option` and `Result`.
- `cache.dfy` (module `Cache`):
  - `Lookup`, `Stored` and `Removed` are value-level specifications of `Get`, `Set` and `Delete`. Their contracts state what each returns and exactly which keys change.
  - The lemmas relate several calls.
  - The class `Cache` has a `data: map<string, Entry>` field. Its methods are proved against the three functions.
- `cachepool.dfy` (module `CachePool`):
  - `AddPeers` specifies `SetPeers`.
  - `Resolve` specifies `Get`. It returns the reply, the local store afterwards, and a trace of the oracle calls made (`RingLookup`, `PeerFetch(peer)`, `OriginFetch`).
  - The lemmas state each stage's behaviour and what happens on a second lookup.
  - In the class `CachePool`, `SetPeers` is a loop and `Get` is the straight-line pipeline. Both are proved against those functions.
- `scenarios.dfy` (module `Scenarios`): client methods that allocate fresh objects. They replay the cache's test scenarios and a fresh pool's end-to-end behaviour, using only the classes' contracts.

Modelling decisions:

- **Time.** A `time.Time` is `Zero | At(nanos)`. `Expired(e, now)` is `!IsZero(e.expire) && Before(e.expire, now)`, exactly as in the code. `Before` is strict, so an entry expiring at `now` is still a hit. A zero expiry never expires. Only a directly stored entry can carry one, because `Set` always writes `At(now + ttl)`.
- **The clock** becomes a parameter `now`. One pool `Get` uses a single `now` for both the local lookup and the backfill.
- **The oracles.** The ring, the peer client and the fetcher are function-typed values.
  - `Ring` maps (peer sequence, key) to an optional owner. The sequence's order and duplicates are part of its input. For a given ring and peer sequence it is deterministic, and the model assumes nothing else about it. One ring is meant per pool, but each call to `CachePool.Get` takes it as a parameter, so nothing stops two calls from being given different rings.
  - `PeerClient` maps (peer, the pool's port, key) to bytes or an error.
  - `Fetcher` maps a key to bytes or an error. The pool keeps it as a field, as the source does.
  - The ring and the peer client are parameters of `Get`.
- **Behaviour as the code has it** (a distributed cache could reasonably do otherwise at each point):
  - a successful peer answer is returned without backfill; it is not also written to the local cache;
  - a fetcher error is returned to the caller; it is not turned into a plain miss;
  - `NewCachePool` sets neither `ttl` nor `port`, so they are `0` and `""`; there is no default port such as `"9929"`;
  - `Set` gives `ttl <= 0` no special meaning, so such an entry is not treated as "never expires".

  One consequence, proved in `ZeroTtlBackfillExpiresAtOnce` and replayed in `Scenarios.FreshPoolBackfill`: a pool built by `NewCachePool` backfills entries that expire at the instant they are written. A second `Get` at that instant is a local hit. Any later `Get` misses locally and evicts the entry. Unless the ring names a peer that answers, it then calls the fetcher again.

## Model

| member | source | states |
|---|---|---|
| `Cache.Lookup` | pkg/cache/cache.go:28-38 | a hit exactly when the key is present and not expired (non-zero expiry strictly before now); a hit returns the stored value, a miss returns nil; only an expired entry is removed, and every remaining entry is unchanged |
| `Cache.Stored` | pkg/cache/cache.go:23-26 | Set files `Entry(key, value, now + ttl)` under `key`, adds no key but `key`, overwrites any previous entry and leaves every other key unchanged; it keeps every entry filed under its own key |
| `Cache.Removed` | pkg/cache/cache.go:40-42 | Delete leaves `key` absent, removes no other key, changes no other entry, and changes nothing when the key was missing |
| `Cache.SetThenGetHits` | pkg/cache/cache.go:23-35 | a Get at any time up to `now + ttl` after `Set(key, v, ttl)` returns `(v, true)` and leaves the map unchanged |
| `Cache.SetThenGetAfterExpiryMisses` | pkg/cache/cache.go:23-33 | a Get later than `now + ttl` after a Set misses, and the map is what Delete of that key would have left |
| `Cache.ExpiryInstantIsHit` | pkg/cache/cache.go:31 | an entry whose expiry equals now is still a hit and is not evicted |
| `Cache.ZeroExpiryNeverExpires` | pkg/cache/cache.go:31 | an entry with the zero expiry is a hit at every time and is never evicted |
| `Cache.SetNeverStoresZeroExpiry` | pkg/cache/cache.go:24 | Set never stores the zero expiry, whatever the ttl |
| `Cache.GetAbsentMisses` | pkg/cache/cache.go:28-37 | the Get of an absent key returns `(nil, false)` and leaves the map unchanged |
| `Cache.DeleteThenGetMisses` | pkg/cache/cache.go:40-42 | after Delete, a Get of that key misses at every time, whatever expiry the entry had |
| `Cache.DeleteIdempotent` | pkg/cache/cache.go:40-42 | a second Delete of the same key changes nothing |
| `Cache.GetIdempotent` | pkg/cache/cache.go:28-38 | a second Get of a key at the same instant gives the same answer and changes nothing more |
| `Cache.GetKeepsEntriesKeyed` | pkg/cache/cache.go:12-16 | Get keeps every entry's `key` field equal to the key it is filed under |
| `Cache.Cache.constructor` | pkg/cache/cache.go:18-21 | NewCache starts with an empty map |
| `Cache.Cache.Set` | pkg/cache/cache.go:23-26 | the new map is `Stored` of the old one |
| `Cache.Cache.Get` | pkg/cache/cache.go:28-38 | the value, the hit flag and the new map are those `Lookup` gives for the old map |
| `Cache.Cache.Delete` | pkg/cache/cache.go:40-42 | the new map is `Removed` of the old one |
| `CachePool.AddPeers` | pkg/cachepool/cachepool.go:47-51 | adding the arguments one ring insertion at a time gives the old peers followed by every argument in argument order |
| `CachePool.Resolve` | pkg/cachepool/cachepool.go:53-74 | one Get: no oracle is called exactly on a local hit; the fetcher is called exactly when both the local cache and the peer path missed; the only error returned is the fetcher's; no key other than `key` is added, removed or changed; `key` is present afterwards exactly when it was live or was fetched and backfilled (the stage lemmas below state each branch in full) |
| `CachePool.LocalHit` | pkg/cachepool/cachepool.go:53-57 | on a live local entry, Get returns its value, makes no oracle call and leaves the store unchanged |
| `CachePool.LocalHitIgnoresOracles` | pkg/cachepool/cachepool.go:53-57 | on a live local entry, the ring, peer client and fetcher cannot influence the outcome |
| `CachePool.PeerSuccess` | pkg/cachepool/cachepool.go:59-63 | on a local miss where the owning peer answers, Get returns that answer, calls only the ring and that peer and never the fetcher, and writes nothing to the store (the key stays absent) |
| `CachePool.PeerSuccessIgnoresFetcher` | pkg/cachepool/cachepool.go:59-63 | when the owning peer answers, the fetcher cannot influence the outcome |
| `CachePool.FallThroughFetchesOnce` | pkg/cachepool/cachepool.go:59-66 | on a local miss with no owner or a failed peer fetch, the fetcher is called exactly once, last; the whole trace is the ring, then, when the ring names an owner, that one peer and no other, then the fetcher |
| `CachePool.FetchError` | pkg/cachepool/cachepool.go:66-69 | a fetcher error is returned as the error, and the store is only what the local Get left (unchanged when the key was absent) |
| `CachePool.FetchSuccess` | pkg/cachepool/cachepool.go:71-73 | the fetched bytes are returned and backfilled under the key with expiry `now + ttl`; every other entry is unchanged |
| `CachePool.ReplyHasASource` | pkg/cachepool/cachepool.go:53-74 | every reply is the live local value, the answer of a peer Get called, or the answer of the fetcher Get called |
| `CachePool.ResolveKeepsEntriesKeyed` | pkg/cachepool/cachepool.go:71 | Get keeps every local entry filed under its own key |
| `CachePool.BackfillServesLocally` | pkg/cachepool/cachepool.go:53-74 | after a backfill, a second Get no later than `now + ttl` hits locally with no oracle call and changes nothing |
| `CachePool.PeerAnswerIsRefetched` | pkg/cachepool/cachepool.go:59-63 | a peer's answer is not cached: a second Get at the same instant asks the ring and the same peer again |
| `CachePool.ZeroTtlBackfillExpiresAtOnce` | pkg/cachepool/cachepool.go:71-73 | with ttl 0, a backfilled entry misses and is evicted at every later instant |
| `CachePool.CachePool.constructor` | pkg/cachepool/cachepool.go:37-45 | NewCachePool starts with no peers, a fresh empty local cache, the given fetcher, port `""` and ttl 0 |
| `CachePool.CachePool.SetPeers` | pkg/cachepool/cachepool.go:47-51 | the new peer sequence is `AddPeers` of the old one |
| `CachePool.CachePool.Get` | pkg/cachepool/cachepool.go:53-74 | the reply, the new local store and the oracle-call trace are those `Resolve` gives for the old store |
| `Scenarios.SetStoresEntry` | pkg/cache/cache_test.go:10-22 | after Set, the key is present with an entry carrying that key and value |
| `Scenarios.GetOnEmptyMisses` | pkg/cache/cache_test.go:24-32 | a Get on a new cache misses with nil |
| `Scenarios.GetAfterDelay` | pkg/cache/cache_test.go:34-64 | a directly stored entry read `delay` after storing hits, with its value, exactly when `delay <= ttl`; otherwise it is evicted |
| `Scenarios.DeleteRemovesEntry` | pkg/cache/cache_test.go:66-79 | after Delete the key is absent and a Get misses |
| `Scenarios.FreshPoolBackfill` | pkg/cachepool/cachepool.go:37-74 | a new pool whose fetcher answers and whose ring names nobody: the first Get returns the bytes with trace ring-then-fetcher and backfills; a second Get at that instant returns them with an empty trace; a Get one nanosecond later returns them with trace ring-then-fetcher again, because the ttl is 0 |
| `Scenarios.FreshPoolFetchError` | pkg/cachepool/cachepool.go:66-69 | a new pool whose fetcher fails returns that error and stores nothing |
| `Scenarios.SetPeersOnFreshPool` | pkg/cachepool/cachepool.go:37-51 | SetPeers on a new pool leaves exactly its arguments, in order |

## Left out

- Concurrency: the cache's `sync.Map` is a plain `map` field, and every operation is one atomic step.
- The wall clock: `time.Now()` becomes the parameter `now`. One pool `Get` reads it once, so the lookup and the backfill happen at the same instant.
- Integer widths: times and durations are unbounded integers. The `int64` range of `time.Duration` and Go's time arithmetic at its limits are not modelled.
- Byte slices: a nil slice and an empty slice are both `[]`.
- Slice sharing: values are immutable `seq<bv8>`. In Go, `Set` stores the caller's own slice (pkg/cache/cache.go:24) and `Get` returns that same slice (pkg/cache/cache.go:35). `CachePool.Get` returns the slice it just backfilled (pkg/cachepool/cachepool.go:71-73). A caller that later mutates one of these slices changes the cached bytes. `Cache.SetThenGetHits`, `CachePool.FetchSuccess` and `CachePool.BackfillServesLocally` hold only if no caller mutates a slice after handing it over or receiving it.
- Ring internals: the go-zero ring's 40 virtual replicas per peer, its hash function and its successor search are a foreign library. Ownership is an arbitrary function of the peer sequence and the key.
- `CachePool.AddPeers`: a peer that is added twice appears twice in the peer sequence. The model does not capture how go-zero treats a re-added node.
- `getFromPeer` (HTTP request, body read and close, `url.QueryEscape`) is the `PeerClient` oracle.
- A `Failure` from the `PeerClient` oracle stands only for what `getFromPeer` reports as an error: a transport error, or a failed body read or close (pkg/cachepool/cachepool.go:96-109). `http.Get` reports no error for a non-2xx status. So a peer's 500 reply carrying its fetcher's error text (pkg/cachepool/cachepool.go:81), or its JSON-encoded body (pkg/cachepool/cachepool.go:85-90), counts as a peer success. `Get` then returns that body as the value and never calls the fetcher. The oracle is unconstrained, so it covers these cases.
- `PeerClient` is a pure function, so a peer fetch cannot touch this pool. `SetPeers` accepts any address, and nothing stops a node from naming itself. In that case `getFromPeer` reaches this node's `Serve`, which calls the same pool's `Get` (pkg/cachepool/cachepool.go:79). That inner call can backfill the local store or forward again. `CachePool.PeerSuccess` (in particular `key !in r.store`) and `CachePool.PeerAnswerIsRefetched` hold only for a peer other than this node.
- `Serve` (HTTP handling, JSON encoding, status codes) is transport plumbing and is not part of this model.
- `context.Context` is not modelled, so cancellation is not modelled either.
- The fetcher is a fixed function of the key. A fetcher with changing state of its own is not captured.
- A nil fetcher, on which `Get` would panic, is not modelled: the pool always has a fetcher.
- `pkg/cachepool/cachepool_test.go` targets an API that `cachepool.go` does not have (a configuration struct, a fetch-enabled flag, a `"9929"` default port). It is not used as a description of behaviour.
