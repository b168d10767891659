/**
 * `memodict(f)`: a dictionary that computes `f(key)` the first time a key is
 * looked up and stores it, so that later lookups of that key reuse the value.
 */
module Memoize {

  class Memo<K(==), V> {
    /** The wrapped function; `get_datetime` in the scanner. */
    const f: K -> V
    /** The dictionary's entries. */
    var cache: map<K, V>

    /** Every stored entry is the wrapped function's value at its key. */
    ghost predicate Valid()
      reads this
    {
      forall k | k in cache :: cache[k] == f(k)
    }

    /** `Memodict()` wrapping `f`, with no entry yet. */
    constructor (f: K -> V)
      ensures Valid()
      ensures this.f == f && cache == map[]
    {
      this.f := f;
      cache := map[];
    }

    /**
     * `__getitem__`, falling back to `__missing__` on an absent key:
     * the value is `f(key)`, the key has its entry afterwards, a key already
     * present leaves the dictionary as it was, and no other key's entry changes.
     */
    method Get(key: K) returns (v: V)
      requires Valid()
      modifies this
      ensures Valid()
      ensures v == f(key)
      ensures key in cache && cache[key] == f(key)
      ensures key in old(cache) ==> cache == old(cache)
      ensures forall k | k != key :: (k in cache <==> k in old(cache)) && (k in cache ==> cache[k] == old(cache)[k])
    {
      if key in cache {
        v := cache[key];
      } else {
        v := f(key);
        cache := cache[key := v];
      }
    }
  }

  /** Two lookups of one key agree, and the second does not touch the dictionary. */
  method LookupTwice<K(==), V>(m: Memo<K, V>, key: K) returns (a: V, b: V)
    requires m.Valid()
    modifies m
    ensures a == b == m.f(key)
    ensures m.cache == old(m.cache)[key := m.f(key)]
  {
    a := m.Get(key);
    ghost var afterFirst := m.cache;
    b := m.Get(key);
    assert m.cache == afterFirst;
  }
}
