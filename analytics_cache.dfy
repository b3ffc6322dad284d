/** The analytics module's own cache (services/analytics.service.js): a map from
    text keys to expiring entries, with a per-call time-to-live defaulting to 30 s,
    and a per-user invalidation that removes every key containing the user id. */
module AnalyticsCacheStore {
  import opened Wrappers
  import opened Text
  import opened TtlStore

  /** `CACHE_TTL`: thirty seconds, in milliseconds. */
  const CacheTtl := 30 * 1000

  /** The keys the analytics service files its results under. */
  function OverviewKey(userId: string): string { "overview:" + userId }
  function TrendKey(userId: string, days: int): string { "trend:" + userId + ":" + IntToString(days) }
  function HeatmapKey(userId: string, months: int): string { "heatmap:" + userId + ":" + IntToString(months) }
  function HealthKey(userId: string): string { "health:" + userId }
  function DashboardKey(userId: string): string { "dashboard:" + userId }

  /** The keys `invalidateUser(userId)` removes: those with `userId` as a substring. */
  predicate MentionsUser(userId: string, key: string) {
    Contains(key, userId)
  }

  class AnalyticsCache<V> {
    var entries: map<string, Entry<V>>

    constructor ()
      ensures entries == map[]
    {
      entries := map[];
    }

    /** `get(key)`: null for a missing key; an expired entry is deleted and gives null. */
    method Get(key: string, now: int) returns (r: Option<V>)
      modifies this
      ensures r == Lookup(old(entries), key, now)
      ensures entries == AfterLookup(old(entries), key, now)
    {
      if key !in entries {
        return None;
      }
      var item := entries[key];
      if now > item.expiry {
        entries := entries - {key};
        return None;
      }
      return Some(item.value);
    }

    /** `set(key, value, ttl = CACHE_TTL)`. */
    method Set(key: string, value: V, now: int, ttl: int := CacheTtl)
      modifies this
      ensures entries == Store(old(entries), key, value, now, ttl)
    {
      entries := entries[key := Entry(value, now + ttl)];
    }

    /** `delete(key)`. */
    method Delete(key: string)
      modifies this
      ensures entries == old(entries) - {key}
    {
      entries := entries - {key};
    }

    /** `invalidateUser(userId)`: one pass over the keys, deleting each that contains `userId`. */
    method InvalidateUser(userId: string)
      modifies this
      ensures entries == Without(old(entries), (k: string) => MentionsUser(userId, k))
    {
      var pending := entries.Keys;
      while pending != {}
        invariant pending <= old(entries).Keys
        invariant forall k :: k in entries <==> k in old(entries) && (k in pending || !MentionsUser(userId, k))
        invariant forall k :: k in entries ==> entries[k] == old(entries)[k]
        decreases pending
      {
        var k :| k in pending;
        if MentionsUser(userId, k) {
          entries := entries - {k};
        }
        pending := pending - {k};
      }
      assert entries.Keys == Without(old(entries), (k: string) => MentionsUser(userId, k)).Keys;
    }
  }

  // ---------------------------------------------------------------------------
  // Properties of the invalidation

  /** Every key the service writes for user `u` is removed by `invalidateUser(u)`. */
  lemma {:induction false} OwnKeysInvalidated(u: string, days: int, months: int)
    ensures MentionsUser(u, OverviewKey(u)) && MentionsUser(u, HealthKey(u))
    ensures MentionsUser(u, DashboardKey(u))
    ensures MentionsUser(u, TrendKey(u, days)) && MentionsUser(u, HeatmapKey(u, months))
  {
    assert OverviewKey(u) == "overview:" + u + "";
    ContainsSuffix("overview:", u, "");
    assert HealthKey(u) == "health:" + u + "";
    ContainsSuffix("health:", u, "");
    assert DashboardKey(u) == "dashboard:" + u + "";
    ContainsSuffix("dashboard:", u, "");
    ContainsSuffix("trend:", u, ":" + IntToString(days));
    assert TrendKey(u, days) == "trend:" + u + (":" + IntToString(days));
    ContainsSuffix("heatmap:", u, ":" + IntToString(months));
    assert HeatmapKey(u, months) == "heatmap:" + u + (":" + IntToString(months));
  }

  /** Invalidation is by substring, so it also reaches users whose id contains `u`:
      invalidating user "1" removes user "10"'s overview. */
  lemma {:induction false} InvalidationReachesLongerIds()
    ensures MentionsUser("1", OverviewKey("10"))
  {
    ContainsSuffix("overview:", "1", "0");
    assert OverviewKey("10") == "overview:" + "1" + "0";
  }

  /** An empty user id is contained in every key: `invalidateUser("")` empties the cache. */
  lemma EmptyIdMentionsEveryKey(key: string)
    ensures MentionsUser("", key)
  {
  }
}
