/**
 * The array methods the dashboard's lists are built with, on values:
 * `filter`, `filter(x => x !== v)`, `slice(0, n)` and the test for a
 * repeated element.
 */
module Seqs {

  /**
   * `s.filter(p)`: the elements that pass, each as often as in `s`, and
   * nothing else; the order is kept (see `FilterAppend`).
   */
  function Filter<T>(s: seq<T>, p: T -> bool): (r: seq<T>)
    ensures |r| <= |s|
    ensures forall x | x in r :: x in s && p(x)
    ensures forall x | x in s && p(x) :: multiset(r)[x] == multiset(s)[x]
    decreases |s|
  {
    if |s| == 0 then []
    else
      assert s == [s[0]] + s[1..];
      if p(s[0]) then [s[0]] + Filter(s[1..], p) else Filter(s[1..], p)
  }

  /** Filtering a concatenation filters each part and keeps them in order. */
  lemma {:induction false} FilterAppend<T>(a: seq<T>, b: seq<T>, p: T -> bool)
    ensures Filter(a + b, p) == Filter(a, p) + Filter(b, p)
    decreases |a|
  {
    if |a| > 0 {
      assert (a + b)[1..] == a[1..] + b;
      FilterAppend(a[1..], b, p);
    } else {
      assert a + b == b;
    }
  }

  /** A filter that keeps everything returns the list itself. */
  lemma {:induction false} FilterAll<T>(s: seq<T>, p: T -> bool)
    requires forall x :: x in s ==> p(x)
    ensures Filter(s, p) == s
    decreases |s|
  {
    if |s| > 0 {
      FilterAll(s[1..], p);
    }
  }

  /** Two tests that agree on every element of `s` keep the same elements. */
  lemma {:induction false} FilterSame<T>(s: seq<T>, p: T -> bool, q: T -> bool)
    requires forall x | x in s :: p(x) == q(x)
    ensures Filter(s, p) == Filter(s, q)
    decreases |s|
  {
    if |s| > 0 {
      FilterSame(s[1..], p, q);
    }
  }

  /** `s.filter(x => x !== v)`: every copy of `v` goes, every other element stays as often as it was. */
  function RemoveAll<T(==)>(s: seq<T>, v: T): (r: seq<T>)
    ensures v !in r
    ensures multiset(r) == multiset(s)[v := 0]
    decreases |s|
  {
    if |s| == 0 then []
    else
      assert s == [s[0]] + s[1..];
      if s[0] == v then RemoveAll(s[1..], v) else [s[0]] + RemoveAll(s[1..], v)
  }

  /** No element occurs twice. */
  predicate Distinct<T(==)>(s: seq<T>) {
    forall i, j :: 0 <= i < j < |s| ==> s[i] != s[j]
  }

  /** The elements of a list without repetitions are as many as its length. */
  lemma {:induction false} DistinctCard<T>(s: seq<T>)
    requires Distinct(s)
    ensures |set x | x in s| == |s|
    decreases |s|
  {
    if |s| > 0 {
      var rest := s[1..];
      assert Distinct(rest);
      DistinctCard(rest);
      assert (set x | x in s) == (set x | x in rest) + {s[0]};
      assert s[0] !in rest;
    } else {
      assert (set x | x in s) == {};
    }
  }

  /** A subset as large as its superset is the whole superset. */
  lemma SubsetSameSize<T>(a: set<T>, b: set<T>)
    requires a <= b && |a| == |b|
    ensures a == b
  {
    if a != b {
      var x :| x in b && x !in a;
      assert a <= b - {x};
      SubsetCard(a, b - {x});
    }
  }

  lemma {:induction false} SubsetCard<T>(a: set<T>, b: set<T>)
    requires a <= b
    ensures |a| <= |b|
    decreases b
  {
    if a != {} {
      var x :| x in a;
      SubsetCard(a - {x}, b - {x});
    }
  }

  /** `s.slice(0, n)`: the first `n` elements, or all of them when there are fewer. */
  function Take<T>(s: seq<T>, n: nat): (r: seq<T>)
    ensures |r| == if |s| < n then |s| else n
    ensures forall i :: 0 <= i < |r| ==> r[i] == s[i]
  {
    if |s| < n then s else s[..n]
  }
}
