/** Counting arguments about sequences without repetition. */
module Pigeonhole {
  ghost predicate Distinct<T>(s: seq<T>) {
    forall i, j :: 0 <= i < j < |s| ==> s[i] != s[j]
  }

  function Elements<T(==)>(s: seq<T>): set<T> {
    set x | x in s
  }

  function Below(n: nat): (r: set<int>)
    ensures |r| == n && forall i :: i in r <==> 0 <= i < n
  {
    if n == 0 then {} else Below(n - 1) + {n - 1}
  }

  /** A sequence repeats nothing exactly when it has as many elements as positions. */
  lemma {:induction false} DistinctByCount<T>(s: seq<T>)
    ensures |Elements(s)| <= |s|
    ensures |Elements(s)| == |s| <==> Distinct(s)
  {
    if s == [] {
    } else {
      var shorter, last := s[..|s| - 1], s[|s| - 1];
      DistinctByCount(shorter);
      assert s == shorter + [last];
      assert Elements(s) == Elements(shorter) + {last};
      if last in shorter {
        var i :| 0 <= i < |shorter| && shorter[i] == last;
        assert s[i] == s[|s| - 1];
        assert Elements(s) == Elements(shorter);
      } else {
        assert Distinct(shorter) ==> Distinct(s);
      }
    }
  }

  lemma {:induction false} SubsetSize<T>(a: set<T>, b: set<T>)
    requires a <= b
    ensures |a| <= |b|
  {
    if a != {} {
      var x :| x in a;
      SubsetSize(a - {x}, b - {x});
    }
  }

  /** At most `n` distinct numbers lie below `n`. */
  lemma AtMost(s: seq<int>, n: nat)
    requires Distinct(s) && forall i :: 0 <= i < |s| ==> 0 <= s[i] < n
    ensures |s| <= n
  {
    DistinctByCount(s);
    SubsetSize(Elements(s), Below(n));
  }

  /** If there are `n` of them, none is left out. */
  lemma AllUsed(s: seq<int>, n: nat, k: int)
    requires Distinct(s) && |s| == n && 0 <= k < n && forall i :: 0 <= i < |s| ==> 0 <= s[i] < n
    ensures k in s
  {
    if k !in s {
      AtMost(s + [k], n);
    }
  }

  /** A set that fills a set of the same size leaves nothing out. */
  lemma SameSizeSubset<T>(a: set<T>, b: set<T>)
    requires a <= b && |a| == |b|
    ensures a == b
  {
    if x :| x in b && x !in a {
      SubsetSize(a, b - {x});
    }
  }

  ghost predicate OccursOnce<T>(s: seq<T>, x: T) {
    x in s && forall i, j :: 0 <= i < j < |s| ==> !(s[i] == x && s[j] == x)
  }

  function Count<T(==)>(s: seq<T>, x: T): nat {
    if s == [] then 0 else Count(s[..|s| - 1], x) + if s[|s| - 1] == x then 1 else 0
  }

  lemma {:induction false} CountMeans<T>(s: seq<T>, x: T)
    ensures Count(s, x) == 0 <==> x !in s
    ensures Count(s, x) == 1 <==> OccursOnce(s, x)
  {
    if s != [] {
      var shorter, last := s[..|s| - 1], s[|s| - 1];
      CountMeans(shorter, x);
      assert s == shorter + [last];
      if x in shorter {
        var i :| 0 <= i < |shorter| && shorter[i] == x;
        assert last == x ==> s[i] == x && s[|s| - 1] == x;
      }
    }
  }
}
