/**
 * The node-local TTL cache of pkg/cache/cache.go: a map from key to entry,
 * where every entry carries an absolute expiry and is evicted lazily, by the
 * read that finds it expired.
 *
 * The wall clock is not read here: every operation that consults it takes
 * the current time `now`, in nanoseconds, as a parameter.
 */
module Cache {

  /** A Go byte slice; a nil slice and an empty one are both `[]`. */
  type Bytes = seq<bv8>

  /** A `time.Time` as the cache uses it: the zero value, or an instant in nanoseconds. */
  datatype Time = Zero | At(nanos: int)

  /** The `entry` record: its own key, the stored bytes and the absolute expiry. */
  datatype Entry = Entry(key: string, value: Bytes, expire: Time)

  predicate IsZero(t: Time) {
    t.Zero?
  }

  /** `t.Before(now)`. The zero time lies before every reading of the clock. */
  predicate Before(t: Time, now: int) {
    match t
    case Zero => true
    case At(nanos) => nanos < now
  }

  /** The eviction test of `Get`: a non-zero expiry strictly before `now`. */
  predicate Expired(e: Entry, now: int) {
    !IsZero(e.expire) && Before(e.expire, now)
  }

  /** `key` has an entry that a `Get` at `now` returns. */
  predicate Live(data: map<string, Entry>, key: string, now: int) {
    key in data && !Expired(data[key], now)
  }

  /** Every entry records the key it is stored under. */
  ghost predicate KeyedByOwnKey(data: map<string, Entry>) {
    forall k | k in data :: data[k].key == k
  }

  /** What a `Get` returns, and the map it leaves behind. */
  datatype Probe = Probe(value: Bytes, hit: bool, data: map<string, Entry>)

  /** The effect of `Cache.Get(key)` at time `now` on the map `data`. */
  function Lookup(data: map<string, Entry>, key: string, now: int): (r: Probe)
    ensures r.hit <==> Live(data, key, now)
    ensures r.value == if r.hit then data[key].value else []
    ensures r.data.Keys == if key in data && Expired(data[key], now) then data.Keys - {key} else data.Keys
    ensures forall k | k in r.data :: r.data[k] == data[k]
  {
    if key in data then
      var e := data[key];
      if !IsZero(e.expire) && Before(e.expire, now) then Probe([], false, data - {key})
      else Probe(e.value, true, data)
    else
      Probe([], false, data)
  }

  /** The map after `Cache.Set(key, value, ttl)` at time `now`. */
  function Stored(data: map<string, Entry>, key: string, value: Bytes, now: int, ttl: int): (r: map<string, Entry>)
    ensures key in r && r[key] == Entry(key, value, At(now + ttl))
    ensures r.Keys == data.Keys + {key}
    ensures forall k | k in data && k != key :: r[k] == data[k]
    ensures KeyedByOwnKey(data) ==> KeyedByOwnKey(r)
  {
    data[key := Entry(key, value, At(now + ttl))]
  }

  /** The map after `Cache.Delete(key)`. */
  function Removed(data: map<string, Entry>, key: string): (r: map<string, Entry>)
    ensures key !in r
    ensures r.Keys == data.Keys - {key}
    ensures forall k | k in r :: r[k] == data[k]
    ensures key !in data ==> r == data
  {
    data - {key}
  }

  /** A `Get` no later than `ttl` after a `Set` returns what was set, and changes nothing. */
  lemma SetThenGetHits(data: map<string, Entry>, key: string, value: Bytes, now: int, ttl: int, t: int)
    requires t <= now + ttl
    ensures var s := Stored(data, key, value, now, ttl);
            Lookup(s, key, t) == Probe(value, true, s)
  {
  }

  /** A `Get` later than `ttl` after a `Set` misses and evicts the entry, and only it. */
  lemma SetThenGetAfterExpiryMisses(data: map<string, Entry>, key: string, value: Bytes, now: int, ttl: int, t: int)
    requires now + ttl < t
    ensures var s := Stored(data, key, value, now, ttl);
            Lookup(s, key, t) == Probe([], false, Removed(data, key))
  {
  }

  /** An entry that expires exactly at `now` is still a hit: `Before` is strict. */
  lemma ExpiryInstantIsHit(data: map<string, Entry>, key: string, now: int)
    requires key in data && data[key].expire == At(now)
    ensures Lookup(data, key, now) == Probe(data[key].value, true, data)
  {
  }

  /** An entry with the zero expiry is returned at every time and never evicted. */
  lemma ZeroExpiryNeverExpires(data: map<string, Entry>, key: string, now: int)
    requires key in data && data[key].expire == Zero
    ensures Lookup(data, key, now) == Probe(data[key].value, true, data)
  {
  }

  /** `Set` never produces the zero expiry, whatever `ttl` is. */
  lemma SetNeverStoresZeroExpiry(data: map<string, Entry>, key: string, value: Bytes, now: int, ttl: int)
    ensures Stored(data, key, value, now, ttl)[key].expire != Zero
  {
  }

  /** A `Get` of an absent key misses and leaves the map as it was. */
  lemma GetAbsentMisses(data: map<string, Entry>, key: string, now: int)
    requires key !in data
    ensures Lookup(data, key, now) == Probe([], false, data)
  {
  }

  /** After `Delete(key)` no `Get` finds `key`, whatever expiry it had. */
  lemma DeleteThenGetMisses(data: map<string, Entry>, key: string, now: int)
    ensures var d := Removed(data, key);
            Lookup(d, key, now) == Probe([], false, d)
  {
  }

  /** `Delete` is idempotent. */
  lemma DeleteIdempotent(data: map<string, Entry>, key: string)
    ensures Removed(Removed(data, key), key) == Removed(data, key)
  {
  }

  /** Two `Get`s of one key at one instant answer alike; the second changes nothing. */
  lemma GetIdempotent(data: map<string, Entry>, key: string, now: int)
    ensures var p := Lookup(data, key, now);
            Lookup(p.data, key, now) == p
  {
  }

  /** `Get` keeps every entry filed under its own key. */
  lemma GetKeepsEntriesKeyed(data: map<string, Entry>, key: string, now: int)
    requires KeyedByOwnKey(data)
    ensures KeyedByOwnKey(Lookup(data, key, now).data)
  {
  }

  /** The cache object; `data` stands for the `sync.Map` it owns. */
  class Cache {
    var data: map<string, Entry>

    /** `NewCache`: an empty store. */
    constructor ()
      ensures data == map[]
      ensures KeyedByOwnKey(data)
    {
      data := map[];
    }

    method Set(key: string, value: Bytes, ttl: int, now: int)
      modifies this
      ensures data == Stored(old(data), key, value, now, ttl)
    {
      var e := Entry(key, value, At(now + ttl));
      data := data[key := e];
    }

    method Get(key: string, now: int) returns (value: Bytes, hit: bool)
      modifies this
      ensures var p := Lookup(old(data), key, now);
              value == p.value && hit == p.hit && data == p.data
    {
      if key in data {
        var e := data[key];
        if !IsZero(e.expire) && Before(e.expire, now) {
          data := data - {key};
          return [], false;
        }
        return e.value, true;
      }
      return [], false;
    }

    method Delete(key: string)
      modifies this
      ensures data == Removed(old(data), key)
    {
      data := data - {key};
    }
  }
}
