/**
 Lexicographic order, sums that do not depend on order, and a stable sort that is determined by what it sorts.
 */
module Sorting {
  import opened Sequences

  /** Lexicographic order of strings of numbers: bytes, or code points. */
  predicate Less(a: seq<int>, b: seq<int>) {
    if b == [] then false
    else if a == [] then true
    else a[0] < b[0] || (a[0] == b[0] && Less(a[1..], b[1..]))
  }

  /** The strings agree up to `k`, where the first ends or has the smaller number. */
  predicate ComesFirstAt(a: seq<int>, b: seq<int>, k: int) {
    0 <= k <= |a| && k < |b| && a[..k] == b[..k] && (k == |a| || a[k] < b[k])
  }

  /** Lexicographic order is decided at the first place where the strings differ; a prefix comes first. */
  lemma {:induction false} LessMeans(a: seq<int>, b: seq<int>)
    ensures Less(a, b) <==> exists k :: ComesFirstAt(a, b, k)
    decreases |a|
  {
    if a != [] && b != [] {
      LessMeans(a[1..], b[1..]);
      if a[0] == b[0] {
        forall k
          ensures ComesFirstAt(a, b, k + 1) <==> ComesFirstAt(a[1..], b[1..], k)
        {
          if 0 <= k < |a| && k < |b| {
            assert a[..k + 1] == [a[0]] + a[1..][..k] && b[..k + 1] == [b[0]] + b[1..][..k];
          }
        }
        assert !ComesFirstAt(a, b, 0);
        forall k | ComesFirstAt(a, b, k)
          ensures ComesFirstAt(a[1..], b[1..], k - 1)
        {
          assert ComesFirstAt(a, b, (k - 1) + 1);
        }
      } else {
        assert a[0] < b[0] ==> ComesFirstAt(a, b, 0);
        forall k | 0 < k
          ensures !ComesFirstAt(a, b, k)
        {
          if k <= |a| && k < |b| {
            assert a[..k][0] == a[0] && b[..k][0] == b[0];
          }
        }
      }
    } else if b != [] {
      assert ComesFirstAt(a, b, 0);
    }
  }

  lemma {:induction false} LessIsTotal(a: seq<int>, b: seq<int>)
    ensures Less(a, b) || a == b || Less(b, a)
    ensures !(Less(a, b) && Less(b, a)) && !Less(a, a)
    decreases |a|
  {
    if a != [] {
      LessIsTotal(a[1..], a[1..]);
      if b != [] {
        LessIsTotal(a[1..], b[1..]);
        assert a == [a[0]] + a[1..] && b == [b[0]] + b[1..];
      }
    }
  }

  lemma {:induction false} LessIsTransitive(a: seq<int>, b: seq<int>, c: seq<int>)
    requires Less(a, b) && Less(b, c)
    ensures Less(a, c)
    decreases |a|
  {
    if a != [] && a[0] == b[0] == c[0] {
      LessIsTransitive(a[1..], b[1..], c[1..]);
    }
  }

  lemma TakeOut<T>(s: seq<T>, k: nat)
    requires k < |s|
    ensures multiset(s) == multiset{s[k]} + multiset(Without(s, k))
    ensures multiset(Without(s, k)) == multiset(s) - multiset{s[k]}
  {
    assert s == s[..k] + ([s[k]] + s[k + 1..]);
  }

  /** Lists with the same elements keep them when one occurrence of one element is taken out of both. */
  lemma TakeOutOfBoth<T>(s: seq<T>, i: nat, t: seq<T>, j: nat)
    requires i < |s| && j < |t| && s[i] == t[j]
    ensures multiset(s) == multiset(t) <==> multiset(Without(s, i)) == multiset(Without(t, j))
  {
    hide Without;
    TakeOut(s, i);
    TakeOut(t, j);
  }

  lemma SameSize<T>(s: seq<T>, t: seq<T>)
    requires multiset(s) == multiset(t)
    ensures |s| == |t|
  {
    assert |multiset(s)| == |s| && |multiset(t)| == |t|;
  }

  // ---------------------------------------------------------------- sums

  function SumOf<T>(f: T -> int, s: seq<T>): int {
    if s == [] then 0 else f(s[0]) + SumOf(f, s[1..])
  }

  lemma {:induction false} SumOfSplits<T>(f: T -> int, s: seq<T>, t: seq<T>)
    ensures SumOf(f, s + t) == SumOf(f, s) + SumOf(f, t)
  {
    if s == [] {
      assert s + t == t;
    } else {
      assert (s + t)[1..] == s[1..] + t;
      SumOfSplits(f, s[1..], t);
    }
  }

  lemma SumOfLast<T>(f: T -> int, s: seq<T>, i: nat)
    requires i < |s|
    ensures SumOf(f, s[..i + 1]) == SumOf(f, s[..i]) + f(s[i])
  {
    SumOfSplits(f, s[..i], [s[i]]);
    assert s[..i + 1] == s[..i] + [s[i]] && [s[i]][1..] == [];
  }

  lemma SumOfNothing<T>(f: T -> int)
    ensures SumOf(f, []) == 0
  {
  }

  lemma {:induction false} SumOfPermutation<T>(f: T -> int, s: seq<T>, t: seq<T>)
    requires multiset(s) == multiset(t)
    ensures SumOf(f, s) == SumOf(f, t)
    decreases |s|
  {
    SameSize(s, t);
    if s != [] {
      assert s[0] in multiset(t);
      var k :| 0 <= k < |t| && t[k] == s[0];
      TakeOutOfBoth(s, 0, t, k);
      assert s[1..] == Without(s, 0);
      SumOfPermutation(f, s[1..], Without(t, k));
      assert t == t[..k] + t[k..] && t[k..][1..] == t[k + 1..];
      SumOfSplits(f, t[..k], t[k..]);
      SumOfSplits(f, t[..k], t[k + 1..]);
    }
  }

  function Map<T, U>(f: T -> U, s: seq<T>): seq<U> {
    seq(|s|, i requires 0 <= i < |s| => f(s[i]))
  }

  lemma MapWithout<T, U>(f: T -> U, s: seq<T>, k: nat)
    requires k < |s|
    ensures |Map(f, s)| == |s| && Map(f, s)[k] == f(s[k])
    ensures Without(Map(f, s), k) == Map(f, Without(s, k)) && |Without(s, k)| == |s| - 1
  {
  }

  lemma {:induction false} MapPermutes<T, U>(f: T -> U, s: seq<T>, t: seq<T>)
    requires multiset(s) == multiset(t)
    ensures multiset(Map(f, s)) == multiset(Map(f, t))
    decreases |s|
  {
    hide Map, Without;
    SameSize(s, t);
    if s != [] {
      assert s[0] in multiset(t);
      var k :| 0 <= k < |t| && t[k] == s[0];
      MapWithout(f, s, 0);
      MapWithout(f, t, k);
      TakeOutOfBoth(s, 0, t, k);
      MapPermutes(f, Without(s, 0), Without(t, k));
      TakeOutOfBoth(Map(f, s), 0, Map(f, t), k);
    }
  }

  // ---------------------------------------------------------------- sorting

  function InsertBy<T>(before: (T, T) -> bool, x: T, s: seq<T>): seq<T> {
    if s == [] || !before(s[0], x) then [x] + s else [s[0]] + InsertBy(before, x, s[1..])
  }

  /** A stable sort. */
  function SortBy<T>(before: (T, T) -> bool, s: seq<T>): seq<T> {
    if s == [] then [] else InsertBy(before, s[0], SortBy(before, s[1..]))
  }

  predicate Increasing<T>(before: (T, T) -> bool, s: seq<T>) {
    forall i, j :: 0 <= i < j < |s| ==> before(s[i], s[j])
  }

  lemma {:induction false} InsertPermutes<T>(before: (T, T) -> bool, x: T, s: seq<T>)
    ensures multiset(InsertBy(before, x, s)) == multiset(s) + multiset{x}
  {
    if s != [] && before(s[0], x) {
      InsertPermutes(before, x, s[1..]);
      assert s == [s[0]] + s[1..];
    }
  }

  lemma {:induction false} SortPermutes<T>(before: (T, T) -> bool, s: seq<T>)
    ensures multiset(SortBy(before, s)) == multiset(s)
    ensures |SortBy(before, s)| == |s|
    ensures forall x :: x in SortBy(before, s) <==> x in s
  {
    if s != [] {
      SortPermutes(before, s[1..]);
      InsertPermutes(before, s[0], SortBy(before, s[1..]));
      assert s == [s[0]] + s[1..];
    }
    var t := SortBy(before, s);
    assert |multiset(t)| == |t|;
    assert forall x :: x in t <==> x in multiset(t);
    assert forall x :: x in s <==> x in multiset(s);
  }

  /** The relation orders the elements of the list, no two of which tie. */
  ghost predicate Orders<T(!new)>(before: (T, T) -> bool, s: seq<T>) {
    && (forall x, y, z :: x in s && y in s && z in s && before(x, y) && before(y, z) ==> before(x, z))
    && (forall i, j :: 0 <= i < |s| && 0 <= j < |s| && i != j ==> (before(s[i], s[j]) <==> !before(s[j], s[i])))
  }

  lemma {:induction false} InsertIncreases<T(!new)>(before: (T, T) -> bool, x: T, s: seq<T>)
    requires Increasing(before, s)
    requires forall y, z :: y in s && z in s && before(x, y) && before(y, z) ==> before(x, z)
    requires forall y :: y in s ==> (before(x, y) <==> !before(y, x))
    ensures Increasing(before, InsertBy(before, x, s))
  {
    hide Increasing;
    if s == [] {
      OneIncreases(before, x);
      assert InsertBy(before, x, s) == [x];
    } else if before(s[0], x) {
      var tail, rest := s[1..], InsertBy(before, x, s[1..]);
      IncreasingTail(before, s);
      InsertIncreases(before, x, tail);
      InsertPermutes(before, x, tail);
      forall y | y in rest
        ensures before(s[0], y)
      {
        assert y in multiset(rest);
        FirstIsBefore(before, s);
        assert y == x || y in tail;
      }
      PrependIncreases(before, s[0], rest);
    } else {
      FirstIsLeast(before, s);
      PrependIncreases(before, x, s);
    }
  }

  lemma OneIncreases<T>(before: (T, T) -> bool, x: T)
    ensures Increasing(before, [x])
  {
  }

  lemma FirstIsBefore<T>(before: (T, T) -> bool, s: seq<T>)
    requires Increasing(before, s) && s != []
    ensures forall y :: y in s[1..] ==> before(s[0], y)
  {
  }

  lemma PrependIncreases<T>(before: (T, T) -> bool, x: T, s: seq<T>)
    requires Increasing(before, s) && forall y :: y in s ==> before(x, y)
    ensures Increasing(before, [x] + s)
  {
    var t := [x] + s;
    forall i, j | 0 <= i < j < |t|
      ensures before(t[i], t[j])
    {
      assert t[j] == s[j - 1] && (i > 0 ==> t[i] == s[i - 1]);
    }
  }

  /** Where no two elements tie, the sorted list increases. */
  lemma {:induction false} SortIncreases<T(!new)>(before: (T, T) -> bool, s: seq<T>)
    requires Orders(before, s)
    ensures Increasing(before, SortBy(before, s))
  {
    if s != [] {
      var rest := s[1..];
      assert forall i :: 0 <= i < |rest| ==> rest[i] == s[i + 1];
      SortIncreases(before, rest);
      SortPermutes(before, rest);
      var sorted := SortBy(before, rest);
      forall y | y in sorted
        ensures y in s && (before(s[0], y) <==> !before(y, s[0]))
      {
        var i :| 0 <= i < |rest| && rest[i] == y;
        assert s[i + 1] == y;
      }
      InsertIncreases(before, s[0], sorted);
    }
  }

  lemma FirstIsLeast<T>(before: (T, T) -> bool, s: seq<T>)
    requires Increasing(before, s) && s != []
    ensures forall x :: x in s ==> x == s[0] || before(s[0], x)
  {
  }

  lemma IncreasingTail<T>(before: (T, T) -> bool, s: seq<T>)
    requires Increasing(before, s) && s != []
    ensures Without(s, 0) == s[1..] && Increasing(before, s[1..]) && s == [s[0]] + s[1..]
  {
    var t := s[1..];
    forall i, j | 0 <= i < j < |t|
      ensures before(t[i], t[j])
    {
      assert before(s[i + 1], s[j + 1]);
    }
  }

  lemma SameFirst<T(!new)>(before: (T, T) -> bool, s: seq<T>, t: seq<T>)
    requires Increasing(before, s) && Increasing(before, t) && multiset(s) == multiset(t) && s != [] && t != []
    requires forall x, y :: x in s && y in s && before(x, y) ==> !before(y, x)
    ensures s[0] == t[0]
  {
    FirstIsLeast(before, s);
    FirstIsLeast(before, t);
    hide Increasing;
    assert s[0] in multiset(t) && t[0] in multiset(s);
  }

  /** There is one increasing list of given elements. */
  lemma {:induction false} IncreasingIsUnique<T(!new)>(before: (T, T) -> bool, s: seq<T>, t: seq<T>)
    requires Increasing(before, s) && Increasing(before, t) && multiset(s) == multiset(t)
    requires forall x, y :: x in s && y in s && before(x, y) ==> !before(y, x)
    ensures s == t
  {
    hide Increasing, Without;
    SameSize(s, t);
    if s != [] {
      IncreasingTail(before, s);
      IncreasingTail(before, t);
      SameFirst(before, s, t);
      TakeOutOfBoth(s, 0, t, 0);
      IncreasingIsUnique(before, Without(s, 0), Without(t, 0));
      assert s == [s[0]] + Without(s, 0) && t == [t[0]] + Without(t, 0);
    }
  }
}
