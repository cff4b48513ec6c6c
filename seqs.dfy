/** Facts about sequences of keys shared by the registry and the binder. */
module Seqs {

  /** No element occurs twice. */
  predicate Distinct<T(==)>(s: seq<T>)
  {
    forall i, j :: 0 <= i < j < |s| ==> s[i] != s[j]
  }

  /** Every element of `a` is absent from `b`. */
  predicate Disjoint<T(==)>(a: seq<T>, b: seq<T>)
  {
    forall i :: 0 <= i < |a| ==> a[i] !in b
  }

  /** A concatenation is duplicate-free exactly when both parts are and they share nothing. */
  lemma DistinctAppend<T>(a: seq<T>, b: seq<T>)
    ensures Distinct(a + b) <==> Distinct(a) && Distinct(b) && Disjoint(a, b)
  {
    var s := a + b;
    if Distinct(s) {
      forall i, j | 0 <= i < j < |a| ensures a[i] != a[j] {
        assert a[i] == s[i] && a[j] == s[j];
      }
      forall i, j | 0 <= i < j < |b| ensures b[i] != b[j] {
        assert b[i] == s[|a| + i] && b[j] == s[|a| + j];
      }
      forall i, j | 0 <= i < |a| && 0 <= j < |b| ensures a[i] != b[j] {
        assert a[i] == s[i] && b[j] == s[|a| + j];
      }
    }
    if Distinct(a) && Distinct(b) && Disjoint(a, b) {
      forall i, j | 0 <= i < j < |s| ensures s[i] != s[j] {
        if j < |a| {
          assert s[i] == a[i] && s[j] == a[j];
        } else if i >= |a| {
          assert s[i] == b[i - |a|] && s[j] == b[j - |a|];
        } else {
          assert s[i] == a[i] && s[j] == b[j - |a|];
        }
      }
    }
  }

  /** An element of `ks`, which shares nothing with `a`, is absent from `a + b` when absent from `b`. */
  lemma NotInAppend<T>(k: T, ks: seq<T>, a: seq<T>, b: seq<T>)
    requires k in ks && Disjoint(ks, a) && k !in b
    ensures k !in a + b
  {
    var j :| 0 <= j < |ks| && ks[j] == k;
    assert ks[j] !in a;
  }

  /** In a duplicate-free `a + [k] + b`, the element `k` does not occur in `a`. */
  lemma DistinctMiddle<T>(a: seq<T>, k: T, b: seq<T>)
    requires Distinct(a + [k] + b)
    ensures k !in a
  {
    var s := a + [k] + b;
    forall j | 0 <= j < |a| ensures a[j] != k {
      assert s[j] == a[j] && s[|a|] == k;
    }
  }
}
