/**
 The freshness rule shared by the stock and the fund cache: an entry stamped
 at `timestamp` answers lookups while `now - timestamp < CACHE_DURATION`;
 otherwise the key is treated as absent and the value just generated is stored
 under it with timestamp `now`, replacing the old entry.
 */
module ExpiringCache {

  /** Five minutes, in milliseconds. */
  const CACHE_DURATION: int := 5 * 60 * 1000

  datatype Entry<T> = Entry(data: T, timestamp: int)

  type Cache<T> = map<string, Entry<T>>

  /** The cache holds an entry for `key` that has not yet expired at `now`. */
  predicate IsLive<T>(cache: Cache<T>, key: string, now: int) {
    key in cache && now - cache[key].timestamp < CACHE_DURATION
  }

  /**
   One lookup: the live cached value, or `generated` (the record made on a
   miss) together with the cache that now holds it.
   */
  function Lookup<T>(cache: Cache<T>, key: string, now: int, generated: T): (r: (T, Cache<T>))
    ensures key in r.1 && r.1[key].data == r.0 && IsLive(r.1, key, now)
    ensures IsLive(cache, key, now) ==> r.0 == cache[key].data && r.1 == cache
    ensures !IsLive(cache, key, now) ==> r.0 == generated && r.1[key] == Entry(generated, now)
  {
    if IsLive(cache, key, now) then (cache[key].data, cache)
    else (generated, cache[key := Entry(generated, now)])
  }

  /** A lookup adds at most its own key and leaves every other entry as it was. */
  lemma LookupOtherKeys<T>(cache: Cache<T>, key: string, now: int, generated: T)
    ensures Lookup(cache, key, now, generated).1.Keys == cache.Keys + {key}
    ensures forall k :: k in cache && k != key ==> Lookup(cache, key, now, generated).1[k] == cache[k]
  {
  }

  /** A lookup depends only on the entry under its own key. */
  lemma LookupOwnKeyOnly<T>(c1: Cache<T>, c2: Cache<T>, key: string, now: int, generated: T)
    requires (key in c1) == (key in c2)
    requires key in c1 ==> c1[key] == c2[key]
    ensures Lookup(c1, key, now, generated).0 == Lookup(c2, key, now, generated).0
    ensures Lookup(c1, key, now, generated).1[key] == Lookup(c2, key, now, generated).1[key]
  {
  }

  /** An entry is live exactly while less than CACHE_DURATION has passed since it was stamped. */
  lemma ExpiryBoundary<T>(cache: Cache<T>, key: string, now: int)
    requires key in cache
    ensures IsLive(cache, key, now) <==> now < cache[key].timestamp + 300000
  {
  }

  /**
   A second lookup of the same key within the window of the first one's entry
   returns the same value and changes nothing, whatever it would have generated.
   */
  lemma RepeatWithinWindow<T>(cache: Cache<T>, key: string, t1: int, t2: int, gen1: T, gen2: T)
    requires t2 - Lookup(cache, key, t1, gen1).1[key].timestamp < CACHE_DURATION
    ensures Lookup(Lookup(cache, key, t1, gen1).1, key, t2, gen2)
         == Lookup(cache, key, t1, gen1)
  {
  }

  /** After a miss, the new entry is stamped with the lookup time, so it lives for the whole window. */
  lemma MissStampsNow<T>(cache: Cache<T>, key: string, now: int, generated: T, t: int)
    requires !IsLive(cache, key, now)
    requires now <= t < now + CACHE_DURATION
    ensures Lookup(cache, key, now, generated).1[key].timestamp == now
    ensures IsLive(Lookup(cache, key, now, generated).1, key, t)
  {
  }

  /**
   Once the window of an entry has passed, the next lookup regenerates: it
   returns the generated value with a strictly later timestamp.
   */
  lemma ExpiredRegenerates<T>(cache: Cache<T>, key: string, now: int, generated: T)
    requires key in cache && now - cache[key].timestamp >= CACHE_DURATION
    ensures Lookup(cache, key, now, generated).0 == generated
    ensures Lookup(cache, key, now, generated).1[key].timestamp > cache[key].timestamp
  {
  }

  /** In an empty cache (after a clear) every lookup is a miss. */
  lemma EmptyMisses<T>(key: string, now: int, generated: T)
    ensures Lookup(map[], key, now, generated) == (generated, map[key := Entry(generated, now)])
  {
  }

  /** Lookups of two different keys commute: neither disturbs the other's entry. */
  lemma LookupsCommute<T>(cache: Cache<T>, k1: string, k2: string, now1: int, now2: int, f1: T, f2: T)
    requires k1 != k2
    ensures var (a1, c1) := Lookup(cache, k1, now1, f1);
            var (b2, c2) := Lookup(c1, k2, now2, f2);
            var (b2', c1') := Lookup(cache, k2, now2, f2);
            var (a1', c2') := Lookup(c1', k1, now1, f1);
            a1 == a1' && b2 == b2' && c2 == c2'
  {
    LookupOtherKeys(cache, k1, now1, f1);
    LookupOtherKeys(cache, k2, now2, f2);
  }
}
