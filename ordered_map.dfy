/**
 * An insertion-ordered map with string keys: the shape of a Laravel Collection keyed by
 * string, where put() on an existing key keeps its position and a new key goes last.
 */
module OrderedMap {
  import opened Wrappers

  datatype OMap<V> = OMap(keys: seq<string>, items: map<string, V>)

  /** The keys are listed once each, and exactly the keys of items are listed. */
  ghost predicate Valid<V>(m: OMap<V>) {
    && (forall i, j :: 0 <= i < j < |m.keys| ==> m.keys[i] != m.keys[j])
    && (forall k :: k in m.items <==> k in m.keys)
  }

  function Empty<V>(): (m: OMap<V>)
    ensures Valid(m) && m.keys == [] && m.items == map[]
  {
    OMap([], map[])
  }

  /** $collection->get($k) with null for a missing key. */
  function Lookup<V>(m: OMap<V>, k: string): Option<V> {
    Get(m.items, k)
  }

  /** Collection::put: k now maps to v, every other key keeps its value, the keys that were
      there keep their order, and a new key goes last. */
  function Put<V>(m: OMap<V>, k: string, v: V): (r: OMap<V>)
    requires Valid(m)
    ensures Valid(r)
    ensures Lookup(r, k) == Some(v)
    ensures forall j :: j != k ==> Lookup(r, j) == Lookup(m, j)
    ensures |m.keys| <= |r.keys| <= |m.keys| + 1 && r.keys[..|m.keys|] == m.keys
    ensures k in m.keys ==> r.keys == m.keys
    ensures k !in m.keys ==> r.keys == m.keys + [k]
  {
    if k in m.items then OMap(m.keys, m.items[k := v]) else OMap(m.keys + [k], m.items[k := v])
  }

  /** The values in key order (Collection::values()). */
  function Values<V>(m: OMap<V>): (r: seq<V>)
    requires Valid(m)
    ensures |r| == |m.keys|
    ensures forall i :: 0 <= i < |r| ==> r[i] == m.items[m.keys[i]]
  {
    seq(|m.keys|, i requires 0 <= i < |m.keys| => m.items[m.keys[i]])
  }
}
