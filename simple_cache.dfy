/** `SimpleCache` (utils/cache.js): a key/value map with one time-to-live for
    every entry. `Date.now()` is the `now` parameter of each operation. */
module SimpleCacheClass {
  import opened Wrappers
  import opened TtlStore

  /** The seconds-to-milliseconds factor of the constructor. */
  const MillisPerSecond := 1000
  /** The constructor's default time-to-live, in seconds. */
  const DefaultTtlSeconds := 300

  class SimpleCache<V> {
    var cache: map<string, Entry<V>>
    var ttl: int

    /** `new SimpleCache(ttlSeconds)`: an empty map, `ttl` in milliseconds. */
    constructor (ttlSeconds: int)
      ensures cache == map[] && ttl == ttlSeconds * MillisPerSecond
    {
      cache := map[];
      ttl := ttlSeconds * MillisPerSecond;
    }

    /** `new SimpleCache()`: the default of 300 seconds. */
    constructor Default()
      ensures cache == map[] && ttl == DefaultTtlSeconds * MillisPerSecond
    {
      cache := map[];
      ttl := DefaultTtlSeconds * MillisPerSecond;
    }

    /** `set(key, value)`: the entry expires `ttl` milliseconds after `now`. */
    method Set(key: string, value: V, now: int)
      modifies this`cache
      ensures cache == Store(old(cache), key, value, now, ttl)
    {
      cache := cache[key := Entry(value, now + ttl)];
    }

    /** `get(key)`: the value of a live entry; an expired one is deleted on the way. */
    method Get(key: string, now: int) returns (r: Option<V>)
      modifies this`cache
      ensures r == Lookup(old(cache), key, now)
      ensures cache == AfterLookup(old(cache), key, now)
    {
      if key !in cache {
        return None;
      }
      var item := cache[key];
      if now > item.expiry {
        cache := cache - {key};
        return None;
      }
      return Some(item.value);
    }

    /** `delete(key)`: only `key` goes. */
    method Delete(key: string)
      modifies this`cache
      ensures cache == old(cache) - {key}
    {
      cache := cache - {key};
    }

    /** `clear()`. */
    method Clear()
      modifies this`cache
      ensures cache == map[]
    {
      cache := map[];
    }

    /** `cleanup()`: one pass over the entries, deleting each expired one. */
    method Cleanup(now: int)
      modifies this`cache
      ensures cache == Purge(old(cache), now)
    {
      var pending := cache.Keys;
      while pending != {}
        invariant pending <= old(cache).Keys
        invariant forall k :: k in cache <==> k in old(cache) && (k in pending || Live(old(cache)[k], now))
        invariant forall k :: k in cache ==> cache[k] == old(cache)[k]
        decreases pending
      {
        var k :| k in pending;
        if now > cache[k].expiry {
          cache := cache - {k};
        }
        pending := pending - {k};
      }
      assert cache.Keys == Purge(old(cache), now).Keys;
    }
  }
}
