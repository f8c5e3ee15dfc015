/**
 * The key-value cache as the services use it: a map from key to entry.
 * SET replaces a whole entry (value and expiry); DEL removes one exact key.
 * Expiry is recorded as data and never elapses in this model.
 */
module Redis {
  import opened Base

  /** A cached value and the expiry it was written with, in seconds (None: no expiry). */
  datatype Entry<V> = Entry(value: V, ttl: Option<nat>)

  /** Only the keys in `keys` may differ between the two caches. */
  ghost predicate ChangedOnly<V>(before: map<string, Entry<V>>, after: map<string, Entry<V>>, keys: set<string>)
  {
    forall k {:trigger k in before} {:trigger k in after} ::
      k !in keys ==> (k in before <==> k in after) && (k in after ==> after[k] == before[k])
  }

  /** `SET k v` (ttl None) or `SET k v EX ttl`: the entry under `k` is replaced as a whole. */
  function Set<V>(c: map<string, Entry<V>>, k: string, v: V, ttl: Option<nat>): (r: map<string, Entry<V>>)
    ensures k in r && r[k] == Entry(v, ttl)
    ensures ChangedOnly(c, r, {k})
  {
    c[k := Entry(v, ttl)]
  }

  /** `DEL k`: removes the entry whose key is exactly `k`; characters such as '*' have no special meaning. */
  function Del<V>(c: map<string, Entry<V>>, k: string): (r: map<string, Entry<V>>)
    ensures k !in r
    ensures ChangedOnly(c, r, {k})
  {
    c - {k}
  }
}
