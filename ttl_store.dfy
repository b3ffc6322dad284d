/** The value-level meaning of a text-keyed map whose entries expire: the common
    semantics of `SimpleCache` (utils/cache.js) and of the analytics cache
    (services/analytics.service.js). Times are milliseconds; an entry is live
    while `now <= expiry` and expired once `now > expiry`. */
module TtlStore {
  import opened Wrappers

  datatype Entry<V> = Entry(value: V, expiry: int)

  /** The entry is still live at time `now`. */
  predicate Live<V>(e: Entry<V>, now: int) {
    now <= e.expiry
  }

  /** What `get(key)` returns at time `now`: the value of a live entry, else nothing. */
  function Lookup<V>(m: map<string, Entry<V>>, key: string, now: int): (r: Option<V>)
    ensures r.Some? <==> key in m && Live(m[key], now)
    ensures r.Some? ==> r.value == m[key].value
  {
    if key in m && Live(m[key], now) then Some(m[key].value) else None
  }

  /** The map after `get(key)` at time `now`: an expired entry for `key` is dropped. */
  function AfterLookup<V>(m: map<string, Entry<V>>, key: string, now: int): (r: map<string, Entry<V>>)
    ensures forall k :: k in r <==> k in m && (k == key ==> Live(m[k], now))
    ensures forall k :: k in r ==> r[k] == m[k]
  {
    if key in m && !Live(m[key], now) then m - {key} else m
  }

  /** The map after `set(key, value)` at time `now` with time-to-live `ttl`. */
  function Store<V>(m: map<string, Entry<V>>, key: string, value: V, now: int, ttl: int): (r: map<string, Entry<V>>)
    ensures key in r && r[key] == Entry(value, now + ttl)
    ensures forall k :: k != key ==> (k in r <==> k in m)
    ensures forall k :: k != key && k in r ==> r[k] == m[k]
  {
    m[key := Entry(value, now + ttl)]
  }

  /** The live part of `m` at time `now`: what a sweep of expired entries leaves. */
  function Purge<V>(m: map<string, Entry<V>>, now: int): (r: map<string, Entry<V>>)
    ensures forall k :: k in r <==> k in m && Live(m[k], now)
    ensures forall k :: k in r ==> r[k] == m[k]
  {
    map k | k in m && Live(m[k], now) :: m[k]
  }

  /** The entries of `m` whose key fails `drop`. */
  function Without<V>(m: map<string, Entry<V>>, drop: string -> bool): (r: map<string, Entry<V>>)
    ensures forall k :: k in r <==> k in m && !drop(k)
    ensures forall k :: k in r ==> r[k] == m[k]
  {
    map k | k in m && !drop(k) :: m[k]
  }

  // ---------------------------------------------------------------------------
  // Properties

  /** After `set(k, v)` at `t0`, `get(k)` at `t` returns `v` exactly while `t <= t0 + ttl`. */
  lemma LookupAfterStore<V>(m: map<string, Entry<V>>, key: string, value: V, t0: int, ttl: int, t: int)
    ensures Lookup(Store(m, key, value, t0, ttl), key, t) ==
      (if t <= t0 + ttl then Some(value) else None)
  {
  }

  /** Storing one key does not change what any other key looks up to. */
  lemma LookupOtherAfterStore<V>(m: map<string, Entry<V>>, key: string, other: string, value: V, t0: int, ttl: int, t: int)
    requires other != key
    ensures Lookup(Store(m, key, value, t0, ttl), other, t) == Lookup(m, other, t)
  {
  }

  /** Dropping an expired entry on `get` is invisible to every later `get`. */
  lemma AfterLookupInvisible<V>(m: map<string, Entry<V>>, key: string, now: int, other: string, later: int)
    requires now <= later
    ensures Lookup(AfterLookup(m, key, now), other, later) == Lookup(m, other, later)
  {
  }

  /** A sweep at `now` is invisible to every `get` from `now` on. */
  lemma PurgeInvisible<V>(m: map<string, Entry<V>>, now: int, key: string, later: int)
    requires now <= later
    ensures Lookup(Purge(m, now), key, later) == Lookup(m, key, later)
  {
  }

  /** Sweeping twice at the same time is the same as sweeping once. */
  lemma PurgeIdempotent<V>(m: map<string, Entry<V>>, now: int)
    ensures Purge(Purge(m, now), now) == Purge(m, now)
  {
  }

  /** Removing keys is invisible to `get` on the keys that are kept. */
  lemma LookupWithout<V>(m: map<string, Entry<V>>, drop: string -> bool, key: string, t: int)
    ensures Lookup(Without(m, drop), key, t) == if drop(key) then None else Lookup(m, key, t)
  {
  }
}
