/** Insertion-ordered dictionaries.

    The processor keeps its data in .NET `Dictionary` objects from which no
    entry is ever removed.  Such a dictionary enumerates its keys in the order
    they were first added, and `d[k] = v` on a present key keeps that key's
    place.  `OrdMap` models exactly that: the enumeration order plus the map. */
module OrderedMaps {

  datatype Option<T> = None | Some(value: T)

  datatype OrdMap<K(==,!new), V> = OrdMap(keys: seq<K>, vals: map<K, V>) {

    /** Every key is listed once, and the listed keys are the map's domain. */
    ghost predicate Valid() {
      && (forall i, j :: 0 <= i < j < |keys| ==> keys[i] != keys[j])
      && (forall k :: k in vals <==> k in keys)
    }

    /** `d[k] = v`: overwrite in place, or append a new key at the end. */
    function Put(k: K, v: V): (r: OrdMap<K, V>)
      ensures r.vals == vals[k := v]
      ensures k in vals ==> r.keys == keys
      ensures k !in vals ==> r.keys == keys + [k]
      ensures Valid() ==> r.Valid()
    {
      if k in vals then OrdMap(keys, vals[k := v]) else OrdMap(keys + [k], vals[k := v])
    }

    /** `TryGetValue`. */
    function Get(k: K): (r: Option<V>)
      ensures r.Some? <==> k in vals
      ensures r.Some? ==> r.value == vals[k]
    {
      if k in vals then Some(vals[k]) else None
    }
  }

  /** A lookup after `d[k] = v` finds v under k and the old value under any
      other key. */
  lemma GetPut<K(!new), V>(m: OrdMap<K, V>, k: K, v: V, k': K)
    ensures m.Put(k, v).Get(k') == if k' == k then Some(v) else m.Get(k')
  {
  }

  /** `new Dictionary<K, V>()`. */
  function Empty<K(==,!new), V>(): (r: OrdMap<K, V>)
    ensures r.Valid() && r.keys == [] && r.vals == map[]
  {
    OrdMap([], map[])
  }

  /** Writing the same key twice leaves only the second value, in the first write's place. */
  lemma PutPut<K(!new), V>(m: OrdMap<K, V>, k: K, a: V, b: V)
    ensures m.Put(k, a).Put(k, b) == m.Put(k, b)
  {
    assert m.vals[k := a][k := b] == m.vals[k := b];
  }

  /** Sequence concatenation regroups; a helper for the writers' loop proofs. */
  lemma SeqAppendAssoc<T>(a: seq<T>, b: seq<T>, c: seq<T>)
    ensures (a + b) + c == a + (b + c)
  {
  }
}
