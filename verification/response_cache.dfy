/** The route cache as `cache.tryGet(key, compute)` uses it, run one call after another: a
    lookup by key, and on a miss the computed value is stored under the key. Expiry, the
    storage backend and the sharing of in-flight computations are outside this model; a stored
    value stays. */
module ResponseCache {
  import opened Wrappers

  /** Every entry of m is still in m', unchanged: the cache only grows. */
  predicate Extends<V(==)>(m: map<string, V>, m': map<string, V>) {
    forall key :: key in m ==> key in m' && m'[key] == m[key]
  }

  class Cache<V> {
    var entries: map<string, V>

    constructor (initial: map<string, V>)
      ensures entries == initial
    {
      entries := initial;
    }

    /** The stored value for key, if any. */
    method Get(key: string) returns (v: Option<V>)
      ensures key in entries <==> v.Some?
      ensures v.Some? ==> v.value == entries[key]
    {
      v := if key in entries then Some(entries[key]) else None;
    }

    /** Stores value under key; nothing else changes. */
    method Set(key: string, value: V)
      modifies this
      ensures entries == old(entries)[key := value]
    {
      entries := entries[key := value];
    }
  }
}
