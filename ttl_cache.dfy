/** The per-route response cache: a module-level `Map` from a request key to
    the stored response and the time (in milliseconds) it was stored. An entry
    is served while it is younger than the route's validity window; stale
    entries are never swept, only overwritten by the next successful fetch. */
module TtlCache {
  import opened Wrappers

  /** `Date.now() - entry.timestamp < CACHE_DURATION`. */
  predicate IsFresh(storedAt: int, now: int, ttl: int) {
    now - storedAt < ttl
  }

  /** The value a lookup may serve: present and still fresh. */
  function FreshValue<V>(entries: map<string, (V, int)>, key: string, now: int, ttl: int): (r: Option<V>)
    ensures r.Some? <==> key in entries && IsFresh(entries[key].1, now, ttl)
    ensures r.Some? ==> r.value == entries[key].0
  {
    if key in entries && IsFresh(entries[key].1, now, ttl) then Some(entries[key].0) else None
  }

  class Cache<V> {
    /** The validity window in milliseconds. */
    const ttl: int
    /** Stored value and storing time, per key. */
    var entries: map<string, (V, int)>

    constructor (ttl: int)
      ensures this.ttl == ttl && entries == map[]
    {
      this.ttl := ttl;
      entries := map[];
    }

    /** `cache.get(key)` followed by the freshness test at `now`. */
    function Lookup(key: string, now: int): (r: Option<V>)
      reads this
      ensures r == FreshValue(entries, key, now, ttl)
    {
      FreshValue(entries, key, now, ttl)
    }

    /** `cache.set(key, { data: value, timestamp: now })`. */
    method Store(key: string, value: V, now: int)
      modifies this
      ensures entries == old(entries)[key := (value, now)]
    {
      entries := entries[key := (value, now)];
    }
  }

  /** A value stored at `storedAt` is served, unchanged, to every lookup
      during the window that follows. */
  lemma StoredIsServed<V>(entries: map<string, (V, int)>, key: string, value: V, storedAt: int, now: int, ttl: int)
    requires storedAt <= now < storedAt + ttl
    ensures FreshValue(entries[key := (value, storedAt)], key, now, ttl) == Some(value)
  {
  }

  /** Once the window has passed, the entry is logically absent. */
  lemma ExpiredIsMissed<V>(entries: map<string, (V, int)>, key: string, value: V, storedAt: int, now: int, ttl: int)
    requires now >= storedAt + ttl
    ensures FreshValue(entries[key := (value, storedAt)], key, now, ttl) == None
  {
  }

  /** Storing under one key leaves every other key's lookup as it was. */
  lemma StoreIsolated<V>(entries: map<string, (V, int)>, key: string, other: string, value: V, storedAt: int, now: int, ttl: int)
    requires other != key
    ensures FreshValue(entries[key := (value, storedAt)], other, now, ttl) == FreshValue(entries, other, now, ttl)
  {
  }
}
