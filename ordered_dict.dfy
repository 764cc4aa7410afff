/** A Python dict keyed by strings, keeping insertion order: assigning to an
    existing key replaces its value and keeps its position. */
module OrderedDict {

  datatype Dict<V> = Dict(keys: seq<string>, entries: map<string, V>) {

    /** Keys are distinct and are exactly the keys of `entries`. */
    ghost predicate Valid() {
      && (forall i, j :: 0 <= i < j < |keys| ==> keys[i] != keys[j])
      && (forall k :: k in entries <==> k in keys)
    }
  }

  function Empty<V>(): (d: Dict<V>)
    ensures d.Valid() && d.entries == map[] && d.keys == []
  {
    Dict([], map[])
  }

  /** `d[k] = v` */
  function Put<V>(d: Dict<V>, k: string, v: V): (r: Dict<V>)
    requires d.Valid()
    ensures r.Valid()
    ensures r.entries == d.entries[k := v]
    ensures k in d.entries ==> r.keys == d.keys
    ensures k !in d.entries ==> r.keys == d.keys + [k]
  {
    if k in d.entries then Dict(d.keys, d.entries[k := v])
    else Dict(d.keys + [k], d.entries[k := v])
  }

  /** Writing a key twice keeps it where it was first inserted. */
  lemma PutKeepsPosition<V>(d: Dict<V>, k: string, v1: V, v2: V)
    requires d.Valid()
    ensures Put(Put(d, k, v1), k, v2).keys == Put(d, k, v1).keys
    ensures Put(Put(d, k, v1), k, v2).entries[k] == v2
  {
  }

  /** A dict has exactly as many entries as it lists keys. */
  lemma KeysCount<V>(d: Dict<V>)
    requires d.Valid()
    ensures |d.entries| == |d.keys|
  {
    DistinctCount(d.keys);
    assert d.entries.Keys == (set k | k in d.keys);
  }

  lemma {:induction false} DistinctCount(ks: seq<string>)
    requires forall i, j :: 0 <= i < j < |ks| ==> ks[i] != ks[j]
    ensures |(set k | k in ks)| == |ks|
  {
    if ks != [] {
      DistinctCount(ks[1..]);
      assert ks[0] !in ks[1..];
      assert (set k | k in ks) == (set k | k in ks[1..]) + {ks[0]};
    }
  }
}
