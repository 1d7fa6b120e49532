/**
 * The shape of the category tables: each was produced by a LabelEncoder,
 * which sorts a column's distinct labels (Python's `str` order) and gives
 * each label its position in that sorted list as its code.
 */
module LabelEncoding {
  import opened Wrappers
  import opened PyDict

  /** Python's `a < b` on str: lexicographic by code point, a proper prefix first. */
  predicate Less(a: string, b: string) {
    if b == [] then false
    else if a == [] then true
    else if a[0] != b[0] then a[0] < b[0]
    else Less(a[1..], b[1..])
  }

  lemma {:induction false} LessIrreflexive(a: string)
    ensures !Less(a, a)
  {
    if a != [] {
      LessIrreflexive(a[1..]);
    }
  }

  lemma {:induction false} LessAsymmetric(a: string, b: string)
    ensures Less(a, b) ==> !Less(b, a)
  {
    if a != [] && b != [] && a[0] == b[0] {
      LessAsymmetric(a[1..], b[1..]);
    }
  }

  lemma {:induction false} LessTransitive(a: string, b: string, c: string)
    requires Less(a, b) && Less(b, c)
    ensures Less(a, c)
  {
    if a != [] && a[0] == b[0] && b[0] == c[0] {
      LessTransitive(a[1..], b[1..], c[1..]);
    }
  }

  /** Every earlier key sorts strictly before every later key. */
  predicate Sorted(ks: seq<string>) {
    forall i, j :: 0 <= i < j < |ks| ==> Less(ks[i], ks[j])
  }

  /** What LabelEncoder yields: the labels in sorted order, each coded by its position. */
  predicate LabelEncoded(d: Dict<string, int>) {
    && Sorted(Keys(d))
    && forall i :: 0 <= i < |d| ==> d[i].1 == i
  }

  /**
   * The same shape checked one neighbour at a time: codes count up from `n`
   * and each label sorts before the next.
   */
  predicate CodedFrom(d: Dict<string, int>, n: int) {
    d == [] || (d[0].1 == n && (|d| > 1 ==> Less(d[0].0, d[1].0)) && CodedFrom(d[1..], n + 1))
  }

  lemma {:induction false} CodedFromSorted(d: Dict<string, int>, n: int)
    requires CodedFrom(d, n)
    ensures Sorted(Keys(d))
    ensures forall i :: 0 <= i < |d| ==> d[i].1 == n + i
  {
    if d != [] {
      CodedFromSorted(d[1..], n + 1);
      var ks, ts := Keys(d), Keys(d[1..]);
      forall i, j | 0 <= i < j < |ks| ensures Less(ks[i], ks[j]) {
        if i > 0 {
          assert Less(ts[i - 1], ts[j - 1]);
        } else if j > 1 {
          assert Less(ts[0], ts[j - 1]);
          LessTransitive(ks[0], ks[1], ks[j]);
        }
      }
      forall i | 1 <= i < |d| ensures d[i].1 == n + i {
        assert d[1..][i - 1] == d[i];
      }
    }
  }

  /** A dict whose neighbours check out has the LabelEncoder shape. */
  lemma CodedFromZero(d: Dict<string, int>)
    requires CodedFrom(d, 0)
    ensures LabelEncoded(d)
  {
    CodedFromSorted(d, 0);
  }

  lemma EncodedDistinct(d: Dict<string, int>)
    requires LabelEncoded(d)
    ensures DistinctKeys(d)
  {
    forall i, j | 0 <= i < j < |d| ensures d[i].0 != d[j].0 {
      assert Less(Keys(d)[i], Keys(d)[j]);
      LessIrreflexive(d[i].0);
    }
  }

  /**
   * In a label-encoded dict the codes are exactly 0..n-1, one per label:
   * the label at position i has code i, and any key present has a code
   * in [0, n-1] and sits at that position.
   */
  lemma CodeOf(d: Dict<string, int>, key: string)
    requires LabelEncoded(d)
    ensures forall i :: 0 <= i < |d| ==> Get(d, d[i].0) == Some(i)
    ensures Get(d, key).Some? ==> 0 <= Get(d, key).value < |d| && d[Get(d, key).value].0 == key
  {
    EncodedDistinct(d);
    GetSpec(d, key);
    forall i | 0 <= i < |d| ensures Get(d, d[i].0) == Some(i) {
      GetAt(d, i);
    }
  }

  /** Distinct labels of one field never share a code. */
  lemma CodesInjective(d: Dict<string, int>, a: string, b: string)
    requires LabelEncoded(d)
    requires Get(d, a).Some? && Get(d, b).Some?
    ensures Get(d, a) == Get(d, b) <==> a == b
  {
    CodeOf(d, a);
    CodeOf(d, b);
  }

  /**
   * The code of a label is its rank: exactly the labels with a smaller code
   * sort before it.
   */
  lemma CodeIsRank(d: Dict<string, int>, key: string)
    requires LabelEncoded(d)
    requires Get(d, key).Some?
    ensures forall i :: 0 <= i < |d| ==> (Less(d[i].0, key) <==> i < Get(d, key).value)
  {
    CodeOf(d, key);
    var c := Get(d, key).value;
    forall i | 0 <= i < |d| ensures Less(d[i].0, key) <==> i < c {
      if i < c {
        assert Less(Keys(d)[i], Keys(d)[c]);
      } else if i == c {
        LessIrreflexive(key);
      } else {
        assert Less(Keys(d)[c], Keys(d)[i]);
        LessAsymmetric(key, d[i].0);
      }
    }
  }
}
