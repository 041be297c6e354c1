/** The `userDataCache` map shared by the socket sends, the HTTP route and the presence
    handlers (index.js:128-138): entries `{data, timestamp}` under `user:<id>`, a
    read-through hit test and the periodic sweep. */
module UserCache {
  import opened Wrappers
  import opened Helpers

  /** `5 * 60 * 1000` milliseconds. */
  const CacheTtl: int := 300000

  datatype CacheEntry = CacheEntry(data: UserData, timestamp: int)

  /** `cached && (now - cached.timestamp) < CACHE_TTL`: the read path serves the entry. */
  predicate IsHit(cached: Option<CacheEntry>, now: int) {
    cached.Some? && now - cached.value.timestamp < CacheTtl
  }

  /** `now - value.timestamp > CACHE_TTL`: the sweeper deletes the entry. */
  predicate IsStale(e: CacheEntry, now: int) {
    now - e.timestamp > CacheTtl
  }

  function Get(m: map<string, CacheEntry>, key: string): (r: Option<CacheEntry>)
    ensures r.Some? <==> key in m
    ensures r.Some? ==> r.value == m[key]
  {
    if key in m then Some(m[key]) else None
  }

  /** The cache after one sweep at time `now`. */
  function Swept(m: map<string, CacheEntry>, now: int): (r: map<string, CacheEntry>)
    ensures forall k :: k in r <==> k in m && !IsStale(m[k], now)
    ensures forall k :: k in r ==> r[k] == m[k]
  {
    map k | k in m && !IsStale(m[k], now) :: m[k]
  }

  /** An entry the read path would serve is never removed by a sweep at the same time. */
  lemma HitSurvivesSweep(m: map<string, CacheEntry>, key: string, now: int)
    requires IsHit(Get(m, key), now)
    ensures Get(Swept(m, now), key) == Get(m, key)
  {
  }

  /** At age exactly `CACHE_TTL` an entry survives the sweep, yet the read path no longer
      serves it: the two tests use `>` and `<` around the same bound. */
  lemma BoundaryAge(m: map<string, CacheEntry>, key: string, now: int)
    requires key in m && now - m[key].timestamp == CacheTtl
    ensures key in Swept(m, now)
    ensures !IsHit(Get(Swept(m, now), key), now)
  {
  }

  /** Sweeping twice at the same time is sweeping once. */
  lemma SweepIdempotent(m: map<string, CacheEntry>, now: int)
    ensures Swept(Swept(m, now), now) == Swept(m, now)
  {
  }

  /** The cache as a mutable map. */
  class Cache {
    var entries: map<string, CacheEntry>

    constructor ()
      ensures entries == map[]
    {
      entries := map[];
    }

    function Lookup(key: string): (r: Option<CacheEntry>)
      reads this
      ensures r == Get(entries, key)
    {
      Get(entries, key)
    }

    /** `userDataCache.set(key, entry)`. */
    method Put(key: string, e: CacheEntry)
      modifies this
      ensures entries == old(entries)[key := e]
    {
      entries := entries[key := e];
    }

    /** `userDataCache.delete(key)`. */
    method Delete(key: string)
      modifies this
      ensures entries == old(entries) - {key}
    {
      entries := entries - {key};
    }

    /** The body of the sweeper interval (index.js:131-138): walk the entries and delete
        each one older than the TTL. */
    method Sweep(now: int)
      modifies this
      ensures entries == Swept(old(entries), now)
    {
      var todo := entries.Keys;
      ghost var start := entries;
      while todo != {}
        invariant todo <= start.Keys
        invariant forall k :: k in entries <==> k in start && (k in todo || !IsStale(start[k], now))
        invariant forall k :: k in entries ==> entries[k] == start[k]
        decreases |todo|
      {
        var k :| k in todo;
        if IsStale(entries[k], now) {
          entries := entries - {k};
        }
        todo := todo - {k};
      }
      assert entries.Keys == Swept(start, now).Keys;
    }
  }
}
