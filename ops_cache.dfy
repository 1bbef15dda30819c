/** The discovery cache of api/devices/operations.py: one TTL for the whole
    cache, entries stamped when stored, and an entry served only while it is
    strictly younger than the TTL. Unlike the client cache in TtlCache, an
    entry aged exactly the TTL is already stale here. */
module OpsCache {
  import opened Wire
  import opened Dicts
  import TtlCache

  const DiscoveryCacheTtl: int := 300

  /** An entry is served while `now - timestamp < ttl`. */
  predicate Fresh(timestamp: int, ttl: int, now: int) {
    now - timestamp < ttl
  }

  /** How many of the entries are still served at `now`. */
  function CountFresh<V>(entries: Dict<(V, int)>, ttl: int, now: int): (n: nat)
    ensures n <= |entries|
    ensures n == |entries| <==> forall i :: 0 <= i < |entries| ==> Fresh(entries[i].1.1, ttl, now)
    ensures n == 0 <==> forall i :: 0 <= i < |entries| ==> !Fresh(entries[i].1.1, ttl, now)
  {
    if entries == [] then 0
    else
      var last := entries[|entries| - 1];
      CountFresh(entries[..|entries| - 1], ttl, now) + (if Fresh(last.1.1, ttl, now) then 1 else 0)
  }

  /** At the boundary the two caches disagree: an entry aged exactly its TTL
      is stale here and still live in the client cache. */
  lemma BoundaryDiffers<V>(v: V, t: int, ttl: int)
    ensures !Fresh(t, ttl, t + ttl)
    ensures !TtlCache.IsExpired(TtlCache.CacheEntry(v, t, ttl), t + ttl)
  {
  }

  class ExpiringCache<V> {
    /** `(value, timestamp)` by key, in insertion order. */
    var entries: Dict<(V, int)>
    const ttl: int

    ghost predicate Valid()
      reads this
    {
      DistinctKeys(entries)
    }

    constructor (ttlSeconds: int := 300)
      ensures Valid() && entries == [] && ttl == ttlSeconds
    {
      entries := [];
      ttl := ttlSeconds;
    }

    /** `get`: the value while it is fresh; a stale entry is deleted. */
    method Get(key: string, now: int) returns (value: Option<V>)
      requires Valid()
      modifies this
      ensures Valid()
      ensures value.Some? <==> Lookup(old(entries), key).Some? && Fresh(Lookup(old(entries), key).value.1, ttl, now)
      ensures value.Some? ==> value.value == Lookup(old(entries), key).value.0 && entries == old(entries)
      ensures value.None? ==> entries == Delete(old(entries), key)
    {
      var i := IndexOf(entries, key);
      if i >= 0 {
        var (data, timestamp) := entries[i].1;
        if now - timestamp < ttl {
          return Some(data);
        }
      }
      DeleteThenLookup(entries, key, key);
      entries := Delete(entries, key);
      return None;
    }

    /** `set`: overwrites and restamps. */
    method Set(key: string, value: V, now: int)
      requires Valid()
      modifies this
      ensures Valid()
      ensures entries == Put(old(entries), key, (value, now))
    {
      PutThenLookup(entries, key, (value, now), key);
      entries := Put(entries, key, (value, now));
    }

    method Clear()
      modifies this
      ensures Valid() && entries == []
    {
      entries := [];
    }

    /** `get_stats`: counts the fresh and the stale entries. */
    method GetStats(now: int) returns (valid: nat, expired: nat)
      ensures valid == CountFresh(entries, ttl, now)
      ensures valid + expired == |entries|
    {
      valid, expired := 0, 0;
      var i := 0;
      while i < |entries|
        invariant 0 <= i <= |entries|
        invariant valid == CountFresh(entries[..i], ttl, now)
        invariant valid + expired == i
      {
        assert entries[..i + 1][..i] == entries[..i];
        if now - entries[i].1.1 < ttl {
          valid := valid + 1;
        } else {
          expired := expired + 1;
        }
        i := i + 1;
      }
      assert entries[..i] == entries;
    }
  }

  /** A value stored at `t` is served by the next read before `t + ttl` and
      dropped by a read at or after it. */
  lemma SetThenGetFresh<V>(entries: Dict<(V, int)>, key: string, v: V, t: int, ttl: int, now: int)
    requires DistinctKeys(entries)
    ensures Lookup(Put(entries, key, (v, t)), key) == Some((v, t))
    ensures Fresh(t, ttl, now) <==> now < t + ttl
    ensures Fresh(Lookup(Put(entries, key, (v, t)), key).value.1, ttl, now) <==> now < t + ttl
    ensures forall o :: o != key ==> Lookup(Put(entries, key, (v, t)), o) == Lookup(entries, o)
  {
    PutThenLookupAll(entries, key, (v, t));
  }
}
