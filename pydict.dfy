/**
 * A Python dict literal with distinct keys, as every dict here has, modelled
 * as the list of its (key, value) pairs in insertion order: `d.keys()` keeps
 * that order and `d[k]` finds the pair whose key is `k` or raises KeyError.
 * A literal that repeats a key is not modelled: Python keeps one entry with
 * the last value, where this list would keep both.
 */
module PyDict {
  import opened Wrappers

  type Dict<K, V> = seq<(K, V)>

  /** `list(d.keys())` of a dict with distinct keys: the keys in insertion order. */
  function Keys<K, V>(d: Dict<K, V>): (ks: seq<K>)
    ensures |ks| == |d|
    ensures forall i :: 0 <= i < |d| ==> ks[i] == d[i].0
  {
    if d == [] then [] else [d[0].0] + Keys(d[1..])
  }

  /** No key occurs twice, as in any dict. */
  predicate DistinctKeys<K(==), V>(d: Dict<K, V>) {
    forall i, j :: 0 <= i < j < |d| ==> d[i].0 != d[j].0
  }

  /** `d[k]` of a dict with distinct keys: the value of the pair whose key is `k`; `None` stands for the KeyError. */
  function Get<K(==), V>(d: Dict<K, V>, k: K): Option<V> {
    if |d| == 0 then None
    else if d[0].0 == k then Some(d[0].1)
    else Get(d[1..], k)
  }

  /** `d[k]` raises exactly when `k` is not a key, and otherwise yields a value stored beside `k`. */
  lemma {:induction false} GetSpec<K, V>(d: Dict<K, V>, k: K)
    ensures Get(d, k).Some? <==> k in Keys(d)
    ensures Get(d, k).Some? ==> exists i :: 0 <= i < |d| && d[i] == (k, Get(d, k).value)
  {
    if d != [] && d[0].0 != k {
      GetSpec(d[1..], k);
      assert k in Keys(d) <==> k in Keys(d[1..]) by {
        assert Keys(d) == [d[0].0] + Keys(d[1..]);
      }
      if Get(d, k).Some? {
        var i :| 0 <= i < |d| - 1 && d[1..][i] == (k, Get(d, k).value);
        assert d[i + 1] == (k, Get(d, k).value);
      }
    }
  }

  /** With distinct keys, `d[k]` is the value stored beside `k`. */
  lemma {:induction false} GetAt<K, V>(d: Dict<K, V>, i: nat)
    requires DistinctKeys(d)
    requires i < |d|
    ensures Get(d, d[i].0) == Some(d[i].1)
  {
    if i > 0 {
      assert d[1..][i - 1] == d[i];
      assert DistinctKeys(d[1..]) by {
        forall p, q | 0 <= p < q < |d| - 1 ensures d[1..][p].0 != d[1..][q].0 {
          assert d[1..][p] == d[p + 1] && d[1..][q] == d[q + 1];
        }
      }
      GetAt(d[1..], i - 1);
    }
  }
}
