/**
 * Client code over the two classes: the cache's test scenarios of
 * pkg/cache/cache_test.go, and a pool built by `NewCachePool` answering
 * from its fetcher. Each method builds its own objects, so what it promises
 * follows from the classes' contracts alone.
 */
module Scenarios {
  import opened Wrappers
  import Cache
  import CachePool

  /** `Set` files the entry under its own key, with the value given. */
  method SetStoresEntry(key: string, value: Cache.Bytes, now: int) returns (e: Cache.Entry, hit: bool)
    ensures hit && e.key == key && e.value == value
  {
    var c := new Cache.Cache();
    c.Set(key, value, 0, now);
    hit := key in c.data;
    e := c.data[key];
  }

  /** A `Get` on an empty cache misses with a nil value. */
  method GetOnEmptyMisses(key: string, now: int) returns (value: Cache.Bytes, hit: bool)
    ensures !hit && value == []
  {
    var c := new Cache.Cache();
    value, hit := c.Get(key, now);
  }

  /** An entry stored with an expiry `ttl` after `stored`, read `delay` later. */
  method GetAfterDelay(key: string, value: Cache.Bytes, stored: int, ttl: int, delay: int)
    returns (got: Cache.Bytes, hit: bool, kept: bool)
    ensures hit <==> delay <= ttl
    ensures got == if delay <= ttl then value else []
    ensures kept <==> delay <= ttl
  {
    var c := new Cache.Cache();
    c.data := c.data[key := Cache.Entry(key, value, Cache.At(stored + ttl))];
    got, hit := c.Get(key, stored + delay);
    kept := key in c.data;
  }

  /** `Delete` removes a stored entry whatever its expiry. */
  method DeleteRemovesEntry(key: string, value: Cache.Bytes, expire: Cache.Time, now: int) returns (present: bool, hit: bool)
    ensures !present && !hit
  {
    var c := new Cache.Cache();
    c.data := c.data[key := Cache.Entry(key, value, expire)];
    c.Delete(key);
    present := key in c.data;
    var _, h := c.Get(key, now);
    hit := h;
  }

  /**
   * A fresh pool whose fetcher answers `bytes`, with a ring that names nobody
   * for `key`: the first `Get` calls the ring and the fetcher and backfills,
   * a second `Get` at the same instant hits locally, and a third one a
   * nanosecond later misses again, because the pool's ttl is zero.
   */
  method FreshPoolBackfill(key: string, bytes: Cache.Bytes, now: int, ring: CachePool.Ring, fromPeer: CachePool.PeerClient)
    returns (first: Result<Cache.Bytes, CachePool.Error>, ghost firstCalls: seq<CachePool.Call>,
             second: Result<Cache.Bytes, CachePool.Error>, ghost secondCalls: seq<CachePool.Call>,
             third: Result<Cache.Bytes, CachePool.Error>, ghost thirdCalls: seq<CachePool.Call>,
             presentAfterThird: bool)
    requires ring([], key) == None
    ensures first == Success(bytes) && firstCalls == [CachePool.RingLookup, CachePool.OriginFetch]
    ensures second == Success(bytes) && secondCalls == []
    ensures third == Success(bytes) && thirdCalls == [CachePool.RingLookup, CachePool.OriginFetch]
    ensures presentAfterThird
  {
    var pool := new CachePool.CachePool(k => Success(bytes));
    first, firstCalls := pool.Get(key, now, ring, fromPeer);
    second, secondCalls := pool.Get(key, now, ring, fromPeer);
    third, thirdCalls := pool.Get(key, now + 1, ring, fromPeer);
    presentAfterThird := key in pool.localCache.data;
  }

  /** A fresh pool whose fetcher fails returns that error and stores nothing. */
  method FreshPoolFetchError(key: string, err: CachePool.Error, now: int, ring: CachePool.Ring, fromPeer: CachePool.PeerClient)
    returns (reply: Result<Cache.Bytes, CachePool.Error>, stored: bool)
    requires ring([], key) == None
    ensures reply == Failure(err) && !stored
  {
    var pool := new CachePool.CachePool(k => Failure(err));
    ghost var calls;
    reply, calls := pool.Get(key, now, ring, fromPeer);
    stored := key in pool.localCache.data;
  }

  /** `SetPeers` on a fresh pool leaves exactly the arguments, in order. */
  method SetPeersOnFreshPool(f: CachePool.Fetcher, added: seq<string>) returns (peers: seq<string>)
    ensures peers == added
  {
    var pool := new CachePool.CachePool(f);
    pool.SetPeers(added);
    peers := pool.peers;
  }
}
