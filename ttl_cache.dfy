/** The TTL cache of src/microshare_client/cache.py (the copy under
    services/integration-api is the same file). Each entry keeps its value,
    the time it was stored and its own TTL; an entry is expired once it is
    strictly older than its TTL, and reading an expired entry deletes it. */
module TtlCache {
  import opened Wire

  datatype CacheEntry<V> = CacheEntry(data: V, timestamp: int, ttl: int)

  /** `CacheEntry.is_expired`: strictly older than the TTL. */
  predicate IsExpired<V>(e: CacheEntry<V>, now: int) {
    now - e.timestamp > e.ttl
  }

  /** An entry aged exactly its TTL is still live; one second later it is not. */
  lemma ExpiryIsStrict<V>(v: V, t: int, ttl: int)
    ensures !IsExpired(CacheEntry(v, t, ttl), t + ttl)
    ensures IsExpired(CacheEntry(v, t, ttl), t + ttl + 1)
  {
  }

  /** `get`: the stored value of a live entry; an expired entry is deleted and
      reads as nothing; an absent key changes nothing. */
  function GetResult<V>(c: map<string, CacheEntry<V>>, key: string, now: int): (r: (map<string, CacheEntry<V>>, Option<V>))
    ensures r.1.Some? <==> key in c && !IsExpired(c[key], now)
    ensures r.1.Some? ==> r.1.value == c[key].data && r.0 == c
    ensures key in c && IsExpired(c[key], now) ==> r.0 == c - {key}
    ensures key !in c ==> r.0 == c
    ensures r.0.Keys <= c.Keys
  {
    if key !in c then (c, None)
    else if !IsExpired(c[key], now) then (c, Some(c[key].data))
    else (c - {key}, None)
  }

  /** The keys whose entries have expired at `now`. */
  function ExpiredKeys<V>(c: map<string, CacheEntry<V>>, now: int): (ks: set<string>)
    ensures ks <= c.Keys
    ensures forall k :: k in c ==> (k in ks <==> IsExpired(c[k], now))
  {
    set k | k in c && IsExpired(c[k], now)
  }

  /** The cache after `cleanup_expired`: exactly the live entries, unchanged. */
  function Pruned<V>(c: map<string, CacheEntry<V>>, now: int): (r: map<string, CacheEntry<V>>)
    ensures r.Keys == c.Keys - ExpiredKeys(c, now)
    ensures forall k :: k in r ==> r[k] == c[k] && !IsExpired(r[k], now)
  {
    map k | k in c && !IsExpired(c[k], now) :: c[k]
  }

  /** A value stored at time `t` with TTL `ttl` reads back unchanged at any
      time up to `t + ttl`, and the entry stays in place. */
  lemma SetThenGet<V>(c: map<string, CacheEntry<V>>, key: string, v: V, ttl: int, t: int, now: int)
    requires now - t <= ttl
    ensures GetResult(c[key := CacheEntry(v, t, ttl)], key, now) == (c[key := CacheEntry(v, t, ttl)], Some(v))
  {
  }

  /** After the TTL has passed, the same read misses and deletes the entry. */
  lemma SetThenGetExpired<V>(c: map<string, CacheEntry<V>>, key: string, v: V, ttl: int, t: int, now: int)
    requires now - t > ttl
    ensures GetResult(c[key := CacheEntry(v, t, ttl)], key, now) == (c - {key}, None)
  {
    assert c[key := CacheEntry(v, t, ttl)] - {key} == c - {key};
  }

  /** A cleanup leaves no expired entry behind and removes no live one. */
  lemma CleanupIsExact<V>(c: map<string, CacheEntry<V>>, now: int)
    ensures forall k :: k in Pruned(c, now) ==> !IsExpired(Pruned(c, now)[k], now)
    ensures forall k :: k in c && !IsExpired(c[k], now) ==> k in Pruned(c, now)
    ensures |Pruned(c, now)| + |ExpiredKeys(c, now)| == |c|
  {
    var live := Pruned(c, now).Keys;
    assert live + ExpiredKeys(c, now) == c.Keys;
    assert live * ExpiredKeys(c, now) == {};
  }

  class SimpleCache<V> {
    var entries: map<string, CacheEntry<V>>

    constructor ()
      ensures entries == map[]
    {
      entries := map[];
    }

    method Get(key: string, now: int) returns (value: Option<V>)
      modifies this
      ensures (entries, value) == GetResult(old(entries), key, now)
    {
      if key in entries {
        var entry := entries[key];
        if !IsExpired(entry, now) {
          return Some(entry.data);
        }
        entries := entries - {key};
      }
      return None;
    }

    method Set(key: string, value: V, now: int, ttl: int := 300)
      modifies this
      ensures entries == old(entries)[key := CacheEntry(value, now, ttl)]
    {
      entries := entries[key := CacheEntry(value, now, ttl)];
    }

    /** `pop(key, None)`: only that key goes; an absent key is no error. */
    method Delete(key: string)
      modifies this
      ensures entries == old(entries) - {key}
      ensures key !in old(entries) ==> entries == old(entries)
    {
      entries := entries - {key};
    }

    method Clear()
      modifies this
      ensures entries == map[]
    {
      entries := map[];
    }

    /** Deletes the expired entries one by one and returns how many it deleted. */
    method CleanupExpired(now: int) returns (removed: nat)
      modifies this
      ensures entries == Pruned(old(entries), now)
      ensures removed == |ExpiredKeys(old(entries), now)|
    {
      var expired := ExpiredKeys(entries, now);
      removed := |expired|;
      var rest := expired;
      while rest != {}
        invariant rest <= expired
        invariant entries == old(entries) - (expired - rest)
        decreases |rest|
      {
        var k :| k in rest;
        entries := entries - {k};
        rest := rest - {k};
      }
      assert entries == Pruned(old(entries), now);
    }
  }
}
