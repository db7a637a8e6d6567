/** Sequences without repetition. */
module Sequences {
  predicate Distinct<T(==)>(s: seq<T>) {
    forall i, j :: 0 <= i < j < |s| ==> s[i] != s[j]
  }

  predicate Disjoint<T(==)>(s: seq<T>, t: seq<T>) {
    forall x :: x in s ==> x !in t
  }

  lemma DistinctSplits<T>(s: seq<T>, t: seq<T>)
    ensures Distinct(s + t) <==> Distinct(s) && Distinct(t) && Disjoint(s, t)
  {
    var u := s + t;
    assert forall i :: 0 <= i < |s| ==> u[i] == s[i];
    assert forall j :: |s| <= j < |u| ==> u[j] == t[j - |s|];
    if Distinct(s) && Distinct(t) && Disjoint(s, t) {
      forall i, j | 0 <= i < j < |u|
        ensures u[i] != u[j]
      {
        assert i < |s| <= j ==> s[i] in s && u[j] in t;
      }
    }
    if Distinct(u) {
      forall i, j | 0 <= i < j < |t|
        ensures t[i] != t[j]
      {
        assert u[|s| + i] != u[|s| + j];
      }
      forall i, j | 0 <= i < |s| && 0 <= j < |t|
        ensures s[i] != t[j]
      {
        assert u[i] != u[|s| + j];
      }
    }
  }

  function Without<T>(s: seq<T>, k: nat): seq<T>
    requires k < |s|
  {
    s[..k] + s[k + 1..]
  }

  lemma WithoutOne<T>(s: seq<T>, k: nat)
    requires k < |s| && Distinct(s)
    ensures Distinct(Without(s, k))
    ensures forall x :: x in Without(s, k) <==> x in s && x != s[k]
  {
    var w := Without(s, k);
    assert forall i :: 0 <= i < |w| ==> w[i] == if i < k then s[i] else s[i + 1];
    forall x | x in s && x != s[k]
      ensures x in w
    {
      var i :| 0 <= i < |s| && s[i] == x;
      assert w[if i < k then i else i - 1] == x;
    }
  }
}
