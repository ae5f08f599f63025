/**
 * Python's `dict` as the catalog uses it: an association list kept in
 * insertion order. Lookup finds a key's binding; assignment overwrites the
 * binding of a present key where it stands and appends a new key at the end,
 * which is the order in which `d.keys()` and `d.items()` visit them.
 */
module Dict {
  import opened Wrappers

  /** The keys of `d` in iteration order (`list(d.keys())`). */
  function Keys<K, V>(d: seq<(K, V)>): (ks: seq<K>)
    ensures |ks| == |d|
    ensures forall i :: 0 <= i < |d| ==> ks[i] == d[i].0
  {
    if d == [] then [] else [d[0].0] + Keys(d[1..])
  }

  /** No key occurs twice. */
  predicate Distinct<K(==)>(ks: seq<K>) {
    forall i, j :: 0 <= i < j < |ks| ==> ks[i] != ks[j]
  }

  /** `d.get(k)`: the value bound to `k`, if `k` is a key. */
  function Get<K(==), V>(d: seq<(K, V)>, k: K): (r: Option<V>)
    ensures r.Some? <==> k in Keys(d)
  {
    if d == [] then None
    else
      if d[0].0 == k then Some(d[0].1) else Get(d[1..], k)
  }

  /** `k in d`. */
  predicate Contains<K(==), V>(d: seq<(K, V)>, k: K) {
    Get(d, k).Some?
  }

  /** `d[k] = v`: overwrite the binding of a present key where it stands, or append a new one. */
  function Put<K(==), V>(d: seq<(K, V)>, k: K, v: V): seq<(K, V)> {
    if d == [] then [(k, v)]
    else if d[0].0 == k then [(k, v)] + d[1..]
    else [d[0]] + Put(d[1..], k, v)
  }

  /**
   * After `d[k] = v`, `k` is bound to `v`, every other key keeps its binding,
   * and the key order changes only by appending `k` when it was new.
   */
  lemma {:induction false} PutSpec<K(!new), V>(d: seq<(K, V)>, k: K, v: V)
    ensures Get(Put(d, k, v), k) == Some(v)
    ensures forall k' :: k' != k ==> Get(Put(d, k, v), k') == Get(d, k')
    ensures Keys(Put(d, k, v)) == if k in Keys(d) then Keys(d) else Keys(d) + [k]
  {
    var r := Put(d, k, v);
    if d != [] {
      var tail := d[1..];
      if d[0].0 == k {
        assert r[1..] == tail;
      } else {
        PutSpec(tail, k, v);
        assert r[1..] == Put(tail, k, v);
        assert Keys(r) == [d[0].0] + Keys(Put(tail, k, v));
        assert Keys(d) == [d[0].0] + Keys(tail);
      }
    }
  }

  /** Appending a new key to keys without repetitions keeps them without repetitions. */
  lemma AppendKeepsDistinct<K>(ks: seq<K>, k: K)
    requires Distinct(ks) && k !in ks
    ensures Distinct(ks + [k])
  {
    forall i, j | 0 <= i < j < |ks| + 1 ensures (ks + [k])[i] != (ks + [k])[j] {
      if j == |ks| {
        assert (ks + [k])[j] == k && (ks + [k])[i] == ks[i];
      }
    }
  }

  /** Assignment never repeats a key. */
  lemma PutKeepsDistinct<K(!new), V>(d: seq<(K, V)>, k: K, v: V)
    requires Distinct(Keys(d))
    ensures Distinct(Keys(Put(d, k, v)))
  {
    PutSpec(d, k, v);
    if k !in Keys(d) {
      AppendKeepsDistinct(Keys(d), k);
    }
  }

  /** In a dictionary without repeated keys, each entry is what lookup of its key finds. */
  lemma {:induction false} GetAt<K, V>(d: seq<(K, V)>, i: nat)
    requires Distinct(Keys(d))
    requires i < |d|
    ensures Get(d, d[i].0) == Some(d[i].1)
  {
    if i > 0 {
      assert Keys(d)[0] != Keys(d)[i];
      forall a, b | 0 <= a < b < |d| - 1 ensures Keys(d[1..])[a] != Keys(d[1..])[b] {
        assert Keys(d[1..])[a] == Keys(d)[a + 1] && Keys(d[1..])[b] == Keys(d)[b + 1];
      }
      GetAt(d[1..], i - 1);
    }
  }

  /** Assigning the same key twice keeps only the second value: it overwrites and never duplicates. */
  lemma {:induction false} PutPut<K(!new), V>(d: seq<(K, V)>, k: K, v: V, w: V)
    ensures Put(Put(d, k, v), k, w) == Put(d, k, w)
  {
    if d != [] && d[0].0 != k {
      PutPut(d[1..], k, v, w);
    }
  }
}
