/** A JavaScript `Map` with string keys: `get`, `set`, and iteration over
    `values()` in the order in which keys were first inserted. Setting a key
    that is already present replaces its value and keeps its position. */
module JsMap {
  import opened Wrappers

  datatype OrderedMap<V> = OrderedMap(keys: seq<string>, entries: map<string, V>)

  /** Keys are listed once each, and exactly the keys that have entries are listed. */
  ghost predicate Valid<V>(m: OrderedMap<V>)
  {
    && (forall i, j :: 0 <= i < j < |m.keys| ==> m.keys[i] != m.keys[j])
    && (forall i :: 0 <= i < |m.keys| ==> m.keys[i] in m.entries)
    && (forall k :: k in m.entries ==> k in m.keys)
  }

  /** `new Map()` */
  function Empty<V>(): (m: OrderedMap<V>)
    ensures Valid(m)
  {
    OrderedMap([], map[])
  }

  /** `m.get(k)`: the value stored under `k`, or `undefined`. */
  function Get<V>(m: OrderedMap<V>, k: string): Option<V>
  {
    if k in m.entries then Some(m.entries[k]) else None
  }

  /** `m.set(k, v)` */
  function Set<V>(m: OrderedMap<V>, k: string, v: V): (r: OrderedMap<V>)
    requires Valid(m)
    ensures Valid(r)
  {
    OrderedMap(if k in m.entries then m.keys else m.keys + [k], m.entries[k := v])
  }

  /** `Array.from(m.values())` */
  function Values<V>(m: OrderedMap<V>): (vs: seq<V>)
    requires Valid(m)
  {
    seq(|m.keys|, i requires 0 <= i < |m.keys| => m.entries[m.keys[i]])
  }

  function Size<V>(m: OrderedMap<V>): nat
  {
    |m.keys|
  }

  /** After `set`, `get` sees the new value under that key and the old values under every other key. */
  lemma GetSet<V>(m: OrderedMap<V>, k: string, v: V, k': string)
    requires Valid(m)
    ensures Get(Set(m, k, v), k') == if k' == k then Some(v) else Get(m, k')
  {
  }

  /** Setting a fresh key appends exactly one value at the end of the iteration order. */
  lemma {:induction false} SetFresh<V>(m: OrderedMap<V>, k: string, v: V)
    requires Valid(m) && k !in m.entries
    ensures Values(Set(m, k, v)) == Values(m) + [v]
    ensures Size(Set(m, k, v)) == Size(m) + 1
  {
    var r := Set(m, k, v);
    assert r.keys == m.keys + [k];
    forall i | 0 <= i < |m.keys|
      ensures Values(r)[i] == Values(m)[i]
    {
      assert m.keys[i] != k;
    }
  }

  /** Setting a present key changes its value in place and moves nothing. */
  lemma {:induction false} SetPresent<V>(m: OrderedMap<V>, k: string, v: V, i: nat)
    requires Valid(m) && i < |m.keys| && m.keys[i] == k
    ensures Values(Set(m, k, v)) == Values(m)[i := v]
  {
    var r := Set(m, k, v);
    forall j | 0 <= j < |m.keys|
      ensures Values(r)[j] == Values(m)[i := v][j]
    {
      if j != i { assert m.keys[j] != k; }
    }
  }

  /** Each stored value appears in `values()` exactly at the position of its key, and
      every position holds a stored value: every entry is listed exactly once. */
  lemma {:induction false} ValuesListEntries<V>(m: OrderedMap<V>, k: string)
    requires Valid(m) && k in m.entries
    ensures exists i :: 0 <= i < |m.keys| && m.keys[i] == k && Values(m)[i] == m.entries[k]
    ensures forall i, j :: 0 <= i < |m.keys| && 0 <= j < |m.keys| && m.keys[i] == k && m.keys[j] == k ==> i == j
  {
    var i :| 0 <= i < |m.keys| && m.keys[i] == k;
    assert Values(m)[i] == m.entries[k];
  }

  /** A list without repetitions has as many distinct elements as positions. */
  lemma {:induction false} DistinctCardinality(s: seq<string>)
    requires forall i, j :: 0 <= i < j < |s| ==> s[i] != s[j]
    ensures |set x | x in s| == |s|
  {
    if s != [] {
      var n := |s| - 1;
      DistinctCardinality(s[..n]);
      assert (set x | x in s) == (set x | x in s[..n]) + {s[n]};
      assert s[n] !in (set x | x in s[..n]);
    }
  }

  /** The number of listed values is the number of entries. */
  lemma SizeIsCardinality<V>(m: OrderedMap<V>)
    requires Valid(m)
    ensures |Values(m)| == |m.entries|
  {
    DistinctCardinality(m.keys);
    assert m.entries.Keys == set x | x in m.keys;
  }
}
