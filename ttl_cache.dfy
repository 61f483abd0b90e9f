/** The role cache's expiry rule: a plain mapping whose entries carry an
    absolute expiry time, checked on read and overwritten on a miss. */
module TtlCache {

  /** Entries live five minutes (`5 * 60` seconds). */
  const TTL: int := 5 * 60

  datatype Entry<V> = Entry(value: V, exp: int)

  /** An entry is used without refetching while its expiry is not in the past. */
  predicate Hit<K(==), V>(c: map<K, Entry<V>>, k: K, now: int)
  {
    k in c && c[k].exp >= now
  }

  /** Read `k`, or store `fetched` under it with a fresh expiry. */
  function GetOrFetch<K(==), V>(c: map<K, Entry<V>>, k: K, now: int, fetched: V): (V, map<K, Entry<V>>)
  {
    if Hit(c, k, now) then (c[k].value, c)
    else (fetched, c[k := Entry(fetched, now + TTL)])
  }

  /** A hit returns the stored value and leaves the cache alone, whatever a
      fetch would have returned: the lookup is not repeated. */
  lemma HitIgnoresFetch<K, V>(c: map<K, Entry<V>>, k: K, now: int, a: V, b: V)
    requires Hit(c, k, now)
    ensures GetOrFetch(c, k, now, a) == GetOrFetch(c, k, now, b) == (c[k].value, c)
  {
  }

  /** A miss returns the fetched value and overwrites the entry with expiry
      `now + TTL`; no other key changes. */
  lemma MissStores<K, V>(c: map<K, Entry<V>>, k: K, now: int, fetched: V)
    requires !Hit(c, k, now)
    ensures GetOrFetch(c, k, now, fetched).0 == fetched
    ensures GetOrFetch(c, k, now, fetched).1[k] == Entry(fetched, now + TTL)
    ensures GetOrFetch(c, k, now, fetched).1.Keys == c.Keys + {k}
    ensures forall k' :: k' in c && k' != k ==> GetOrFetch(c, k, now, fetched).1[k'] == c[k']
  {
  }

  /** An entry fetched at `t` is served from the cache at every later time up
      to and including `t + TTL`, and refetched after that. */
  lemma ExpiryWindow<K, V>(c: map<K, Entry<V>>, k: K, t: int, fetched: V, later: int)
    requires !Hit(c, k, t)
    ensures Hit(GetOrFetch(c, k, t, fetched).1, k, later) <==> later <= t + TTL
  {
  }
}
