/**
 * The cache pool of pkg/cachepool/cachepool.go: a local cache, a peer set
 * kept on a consistent-hash ring, and an origin fetcher, combined by `Get`
 * into a four-stage fallback (local hit, owning peer, fetcher, backfill).
 *
 * The ring's choice of owner, the HTTP peer client and the fetcher are
 * oracles: function-typed values that the model does not look inside.
 * Every call `Get` makes to one of them is recorded in a trace.
 */
module CachePool {
  import opened Wrappers
  import Cache

  /** A Go `error`, known by its message. */
  datatype Error = Error(message: string)

  /** `Fetcher.Fetch`: the origin's answer for a key. */
  type Fetcher = string -> Result<Cache.Bytes, Error>

  /** `ConsistentHash.Get`: the owner the ring names for a key, given the peers added so far. */
  type Ring = (seq<string>, string) -> Option<string>

  /** `getFromPeer`: a peer's answer, given the peer, the pool's port and the key. */
  type PeerClient = (string, string, string) -> Result<Cache.Bytes, Error>

  /** One call into an oracle. */
  datatype Call = RingLookup | PeerFetch(peer: string) | OriginFetch

  /** What `Get` returns, the local store it leaves behind, and the oracle calls it made. */
  datatype Resolution = Resolution(reply: Result<Cache.Bytes, Error>, store: map<string, Cache.Entry>, calls: seq<Call>)

  /** The peer set after `SetPeers(added...)`: one ring insertion per argument, in order. */
  function AddPeers(peers: seq<string>, added: seq<string>): (r: seq<string>)
    ensures r == peers + added
    decreases |added|
  {
    if added == [] then peers
    else
      var r := AddPeers(peers + [added[0]], added[1..]);
      assert peers + added == peers + [added[0]] + added[1..];
      r
  }

  /** Neither the owning peer nor a peer-less ring answered `key`. */
  predicate PeerMissed(peers: seq<string>, port: string, ring: Ring, fromPeer: PeerClient, key: string) {
    ring(peers, key).None? || fromPeer(ring(peers, key).value, port, key).Failure?
  }

  /** Stages 3 and 4 of `Get`: call the fetcher after the calls `asked`, and backfill on success. */
  function FromOrigin(store: map<string, Cache.Entry>, now: int, ttl: int, fetcher: Fetcher,
                      key: string, asked: seq<Call>): Resolution
  {
    match fetcher(key)
    case Failure(err) => Resolution(Failure(err), store, asked + [OriginFetch])
    case Success(bytes) => Resolution(Success(bytes), Cache.Stored(store, key, bytes, now, ttl), asked + [OriginFetch])
  }

  /**
   * `CachePool.Get(key)` at time `now` over a local store `store`, for a pool
   * whose peer set, port, ttl and fetcher are the next four parameters.
   */
  function Resolve(store: map<string, Cache.Entry>, now: int, peers: seq<string>, port: string, ttl: int,
                   fetcher: Fetcher, ring: Ring, fromPeer: PeerClient, key: string): (r: Resolution)
    // no oracle is called exactly on a local hit
    ensures r.calls == [] <==> Cache.Live(store, key, now)
    // the fetcher is called exactly when both the local cache and the peer path missed
    ensures OriginFetch in r.calls <==> !Cache.Live(store, key, now) && PeerMissed(peers, port, ring, fromPeer, key)
    // the only error returned is the fetcher's
    ensures r.reply.Failure? ==> OriginFetch in r.calls && r.reply == fetcher(key)
    // no other key is touched
    ensures forall k | k != key :: (k in r.store <==> k in store) && (k in store ==> r.store[k] == store[k])
    // the key is present afterwards exactly when it was live, or was fetched and backfilled
    ensures key in r.store <==> Cache.Live(store, key, now) || (OriginFetch in r.calls && fetcher(key).Success?)
  {
    var probe := Cache.Lookup(store, key, now);
    if probe.hit then
      Resolution(Success(probe.value), probe.data, [])
    else
      var owner := ring(peers, key);
      if owner.Some? then
        var answer := fromPeer(owner.value, port, key);
        if answer.Success? then
          Resolution(Success(answer.value), probe.data, [RingLookup, PeerFetch(owner.value)])
        else
          FromOrigin(probe.data, now, ttl, fetcher, key, [RingLookup, PeerFetch(owner.value)])
      else
        FromOrigin(probe.data, now, ttl, fetcher, key, [RingLookup])
  }

  /** Stage 1: a live local entry is returned as it is, no oracle is called and the store is untouched. */
  lemma LocalHit(store: map<string, Cache.Entry>, now: int, peers: seq<string>, port: string, ttl: int,
                 fetcher: Fetcher, ring: Ring, fromPeer: PeerClient, key: string)
    requires Cache.Live(store, key, now)
    ensures var r := Resolve(store, now, peers, port, ttl, fetcher, ring, fromPeer, key);
            r.reply == Success(store[key].value) && r.store == store && r.calls == []
  {
  }

  /** Stage 1, as non-interference: on a local hit the oracles cannot change the outcome. */
  lemma LocalHitIgnoresOracles(store: map<string, Cache.Entry>, now: int, peers: seq<string>, port: string, ttl: int,
                               fetcher: Fetcher, ring: Ring, fromPeer: PeerClient,
                               fetcher': Fetcher, ring': Ring, fromPeer': PeerClient, key: string)
    requires Cache.Live(store, key, now)
    ensures Resolve(store, now, peers, port, ttl, fetcher, ring, fromPeer, key)
         == Resolve(store, now, peers, port, ttl, fetcher', ring', fromPeer', key)
  {
  }

  /**
   * Stage 2: on a local miss, an answer from the owning peer is returned, the
   * fetcher is not called, and nothing is written to the store (only the
   * expired entry, if any, is gone).
   */
  lemma PeerSuccess(store: map<string, Cache.Entry>, now: int, peers: seq<string>, port: string, ttl: int,
                    fetcher: Fetcher, ring: Ring, fromPeer: PeerClient, key: string, peer: string, value: Cache.Bytes)
    requires !Cache.Live(store, key, now)
    requires ring(peers, key) == Some(peer) && fromPeer(peer, port, key) == Success(value)
    ensures var r := Resolve(store, now, peers, port, ttl, fetcher, ring, fromPeer, key);
            && r.reply == Success(value)
            && r.store == Cache.Lookup(store, key, now).data
            && key !in r.store
            && r.calls == [RingLookup, PeerFetch(peer)]
            && OriginFetch !in r.calls
  {
  }

  /** Stage 2, as non-interference: when the owning peer answers, the fetcher cannot change the outcome. */
  lemma PeerSuccessIgnoresFetcher(store: map<string, Cache.Entry>, now: int, peers: seq<string>, port: string, ttl: int,
                                  fetcher: Fetcher, fetcher': Fetcher, ring: Ring, fromPeer: PeerClient, key: string)
    requires !PeerMissed(peers, port, ring, fromPeer, key)
    ensures Resolve(store, now, peers, port, ttl, fetcher, ring, fromPeer, key)
         == Resolve(store, now, peers, port, ttl, fetcher', ring, fromPeer, key)
  {
  }

  /**
   * Stage 3: on a local miss with no owner or a failed peer fetch, the fetcher
   * is called exactly once, as the last call, after the ring and, when the ring
   * names an owner, that one peer and no other.
   */
  lemma FallThroughFetchesOnce(store: map<string, Cache.Entry>, now: int, peers: seq<string>, port: string, ttl: int,
                               fetcher: Fetcher, ring: Ring, fromPeer: PeerClient, key: string)
    requires !Cache.Live(store, key, now)
    requires PeerMissed(peers, port, ring, fromPeer, key)
    ensures var r := Resolve(store, now, peers, port, ttl, fetcher, ring, fromPeer, key);
            && multiset(r.calls)[OriginFetch] == 1
            && r.calls[|r.calls| - 1] == OriginFetch
            && r.calls == (if ring(peers, key).Some? then [RingLookup, PeerFetch(ring(peers, key).value)] else [RingLookup])
                          + [OriginFetch]
  {
  }

  /** Stage 3, failing: the fetcher's error is returned and the pool writes nothing to the store. */
  lemma FetchError(store: map<string, Cache.Entry>, now: int, peers: seq<string>, port: string, ttl: int,
                   fetcher: Fetcher, ring: Ring, fromPeer: PeerClient, key: string, err: Error)
    requires !Cache.Live(store, key, now)
    requires PeerMissed(peers, port, ring, fromPeer, key)
    requires fetcher(key) == Failure(err)
    ensures var r := Resolve(store, now, peers, port, ttl, fetcher, ring, fromPeer, key);
            && r.reply == Failure(err)
            && r.store == Cache.Lookup(store, key, now).data
            && key !in r.store
            && (key !in store ==> r.store == store)
  {
  }

  /** Stage 4: the fetched bytes are returned and backfilled under `key` with the pool's ttl. */
  lemma FetchSuccess(store: map<string, Cache.Entry>, now: int, peers: seq<string>, port: string, ttl: int,
                     fetcher: Fetcher, ring: Ring, fromPeer: PeerClient, key: string, bytes: Cache.Bytes)
    requires !Cache.Live(store, key, now)
    requires PeerMissed(peers, port, ring, fromPeer, key)
    requires fetcher(key) == Success(bytes)
    ensures var r := Resolve(store, now, peers, port, ttl, fetcher, ring, fromPeer, key);
            && r.reply == Success(bytes)
            && r.store == Cache.Stored(Cache.Lookup(store, key, now).data, key, bytes, now, ttl)
            && r.store[key] == Cache.Entry(key, bytes, Cache.At(now + ttl))
            && (forall k | k in store && k != key :: k in r.store && r.store[k] == store[k])
  {
  }

  /** Every reply is a hit on the local store, a peer's answer, or the fetcher's answer. */
  lemma ReplyHasASource(store: map<string, Cache.Entry>, now: int, peers: seq<string>, port: string, ttl: int,
                        fetcher: Fetcher, ring: Ring, fromPeer: PeerClient, key: string)
    ensures var r := Resolve(store, now, peers, port, ttl, fetcher, ring, fromPeer, key);
            || (Cache.Live(store, key, now) && r.reply == Success(store[key].value))
            || (exists p :: PeerFetch(p) in r.calls && r.reply == fromPeer(p, port, key))
            || (OriginFetch in r.calls && r.reply == fetcher(key))
  {
  }

  /** `Get` keeps every local entry filed under its own key. */
  lemma ResolveKeepsEntriesKeyed(store: map<string, Cache.Entry>, now: int, peers: seq<string>, port: string, ttl: int,
                                 fetcher: Fetcher, ring: Ring, fromPeer: PeerClient, key: string)
    requires Cache.KeyedByOwnKey(store)
    ensures Cache.KeyedByOwnKey(Resolve(store, now, peers, port, ttl, fetcher, ring, fromPeer, key).store)
  {
  }

  /** After a backfill, a second `Get` at an instant no later than `now + ttl` hits locally with no oracle call. */
  lemma BackfillServesLocally(store: map<string, Cache.Entry>, now: int, peers: seq<string>, port: string, ttl: int,
                              fetcher: Fetcher, ring: Ring, fromPeer: PeerClient, key: string, bytes: Cache.Bytes, t: int)
    requires !Cache.Live(store, key, now)
    requires PeerMissed(peers, port, ring, fromPeer, key)
    requires fetcher(key) == Success(bytes)
    requires t <= now + ttl
    ensures var first := Resolve(store, now, peers, port, ttl, fetcher, ring, fromPeer, key);
            var second := Resolve(first.store, t, peers, port, ttl, fetcher, ring, fromPeer, key);
            second.reply == Success(bytes) && second.calls == [] && second.store == first.store
  {
  }

  /**
   * A peer's answer is not backfilled: a second `Get` at the same instant goes
   * back to the ring and the same peer.
   */
  lemma PeerAnswerIsRefetched(store: map<string, Cache.Entry>, now: int, peers: seq<string>, port: string, ttl: int,
                              fetcher: Fetcher, ring: Ring, fromPeer: PeerClient, key: string, peer: string, value: Cache.Bytes)
    requires !Cache.Live(store, key, now)
    requires ring(peers, key) == Some(peer) && fromPeer(peer, port, key) == Success(value)
    ensures var first := Resolve(store, now, peers, port, ttl, fetcher, ring, fromPeer, key);
            var second := Resolve(first.store, now, peers, port, ttl, fetcher, ring, fromPeer, key);
            second.calls == [RingLookup, PeerFetch(peer)] && second.reply == Success(value)
  {
  }

  /**
   * With the ttl `NewCachePool` leaves (zero), a backfilled entry expires at
   * the instant it was written: any later `Get` misses and evicts it.
   */
  lemma ZeroTtlBackfillExpiresAtOnce(store: map<string, Cache.Entry>, now: int, peers: seq<string>, port: string,
                                     fetcher: Fetcher, ring: Ring, fromPeer: PeerClient, key: string, bytes: Cache.Bytes, t: int)
    requires !Cache.Live(store, key, now)
    requires PeerMissed(peers, port, ring, fromPeer, key)
    requires fetcher(key) == Success(bytes)
    requires now < t
    ensures var first := Resolve(store, now, peers, port, 0, fetcher, ring, fromPeer, key);
            var p := Cache.Lookup(first.store, key, t);
            !p.hit && key !in p.data
  {
  }

  /** The pool object. */
  class CachePool {
    var peers: seq<string>
    const localCache: Cache.Cache
    const fetcher: Fetcher
    var port: string
    var ttl: int

    /** `NewCachePool(f)`: only the ring, the local cache and the fetcher are set. */
    constructor (f: Fetcher)
      ensures fresh(localCache) && localCache.data == map[]
      ensures peers == [] && fetcher == f
      ensures port == "" && ttl == 0
    {
      peers := [];
      localCache := new Cache.Cache();
      fetcher := f;
      port := "";
      ttl := 0;
    }

    method SetPeers(added: seq<string>)
      modifies this`peers
      ensures peers == AddPeers(old(peers), added)
    {
      for i := 0 to |added|
        invariant peers == old(peers) + added[..i]
      {
        peers := peers + [added[i]];
      }
      assert added[..|added|] == added;
    }

    method Get(key: string, now: int, ring: Ring, fromPeer: PeerClient) returns (reply: Result<Cache.Bytes, Error>, ghost calls: seq<Call>)
      modifies localCache
      ensures var r := Resolve(old(localCache.data), now, peers, port, ttl, fetcher, ring, fromPeer, key);
              reply == r.reply && localCache.data == r.store && calls == r.calls
    {
      var value, hit := localCache.Get(key, now);
      if hit {
        return Success(value), [];
      }

      calls := [RingLookup];
      var owner := ring(peers, key);
      if owner.Some? {
        calls := calls + [PeerFetch(owner.value)];
        var answer := fromPeer(owner.value, port, key);
        if answer.Success? {
          return Success(answer.value), calls;
        }
      }

      var fetched := fetcher(key);
      calls := calls + [OriginFetch];
      if fetched.Failure? {
        return Failure(fetched.error), calls;
      }

      localCache.Set(key, fetched.value, ttl, now);
      return Success(fetched.value), calls;
    }
  }
}
