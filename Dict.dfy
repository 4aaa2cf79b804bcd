/** Python's `dict`, modelled as its list of entries in insertion order.
    Lookups return the first entry with the key, which is the Python value
    whenever the keys are pairwise distinct (every table of this model is
    proved to be so). */
module Dict {
  import opened Wrappers

  type Dict<K, V> = seq<(K, V)>

  ghost predicate Distinct<T>(s: seq<T>) {
    forall i, j :: 0 <= i < j < |s| ==> s[i] != s[j]
  }

  /** `list(d.keys())` */
  function Keys<K, V>(d: Dict<K, V>): (ks: seq<K>)
    ensures |ks| == |d|
    ensures forall i :: 0 <= i < |d| ==> ks[i] == d[i].0
  {
    seq(|d|, i requires 0 <= i < |d| => d[i].0)
  }

  /** `list(d.values())` */
  function Values<K, V>(d: Dict<K, V>): (vs: seq<V>)
    ensures |vs| == |d|
    ensures forall i :: 0 <= i < |d| ==> vs[i] == d[i].1
  {
    seq(|d|, i requires 0 <= i < |d| => d[i].1)
  }

  /** `d.get(k)`: the value stored under `k`, or None when `k` is not a key. */
  function Get<K(==), V>(d: Dict<K, V>, k: K): Option<V> {
    if d == [] then None
    else if d[0].0 == k then Some(d[0].1)
    else Get(d[1..], k)
  }

  /** `d.get(k)` is None exactly when `k` is not a key, and otherwise a value
      stored under `k`. */
  lemma {:induction false} GetSpec<K, V>(d: Dict<K, V>, k: K)
    ensures Get(d, k).None? <==> k !in Keys(d)
    ensures Get(d, k).Some? ==> exists i :: 0 <= i < |d| && d[i] == (k, Get(d, k).value)
  {
    if d != [] && d[0].0 != k {
      GetSpec(d[1..], k);
      assert Keys(d) == [d[0].0] + Keys(d[1..]);
      if Get(d, k).Some? {
        var i :| 0 <= i < |d[1..]| && d[1..][i] == (k, Get(d, k).value);
        assert d[i + 1] == (k, Get(d, k).value);
      }
    }
  }

  /** `{v: k for k, v in d.items()}` */
  function Invert<K, V>(d: Dict<K, V>): (inv: Dict<V, K>)
    ensures |inv| == |d|
    ensures forall i :: 0 <= i < |d| ==> inv[i] == (d[i].1, d[i].0)
  {
    seq(|d|, i requires 0 <= i < |d| => (d[i].1, d[i].0))
  }

  /** With distinct keys, the value found for `k` is the one of the unique entry holding `k`. */
  lemma {:induction false} GetAt<K, V>(d: Dict<K, V>, i: nat)
    requires Distinct(Keys(d))
    requires i < |d|
    ensures Get(d, d[i].0) == Some(d[i].1)
  {
    if i > 0 {
      assert Keys(d)[0] != Keys(d)[i];
      assert Distinct(Keys(d[1..])) by {
        forall a, b | 0 <= a < b < |d| - 1 ensures Keys(d[1..])[a] != Keys(d[1..])[b] {
          assert Keys(d)[a + 1] != Keys(d)[b + 1];
        }
      }
      GetAt(d[1..], i - 1);
    }
  }

  /** The inverted dict knows exactly the values of the original. */
  lemma InvertKeys<K, V>(d: Dict<K, V>, v: V)
    ensures Get(Invert(d), v).Some? <==> v in Values(d)
  {
    GetSpec(Invert(d), v);
    assert Keys(Invert(d)) == Values(d);
  }

  /** Reading a key back through the inverted dict: the inverse of a dict whose
      keys and values are both distinct undoes every lookup. */
  lemma InvertUndoesGet<K, V>(d: Dict<K, V>, k: K)
    requires Distinct(Keys(d)) && Distinct(Values(d))
    requires Get(d, k).Some?
    ensures Get(Invert(d), Get(d, k).value) == Some(k)
  {
    GetSpec(d, k);
    var i :| 0 <= i < |d| && d[i] == (k, Get(d, k).value);
    assert Distinct(Keys(Invert(d))) by {
      forall a, b | 0 <= a < b < |d| ensures Keys(Invert(d))[a] != Keys(Invert(d))[b] {
        assert Values(d)[a] != Values(d)[b];
      }
    }
    GetAt(Invert(d), i);
  }

  /** And every entry of the inverted dict leads back to where it came from. */
  lemma GetUndoesInvert<K, V>(d: Dict<K, V>, v: V)
    requires Distinct(Keys(d))
    requires Get(Invert(d), v).Some?
    ensures Get(d, Get(Invert(d), v).value) == Some(v)
  {
    var inv := Invert(d);
    GetSpec(inv, v);
    var i :| 0 <= i < |inv| && inv[i] == (v, Get(inv, v).value);
    GetAt(d, i);
  }
}
