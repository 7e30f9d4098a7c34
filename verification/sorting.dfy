/**
 * `Array.prototype.sort` as the dashboard uses it: every comparator in the
 * source looks at one property of the two elements and answers "before",
 * "after" or "equal" in ascending or descending order of that property. The
 * property becomes a `SortKey`, the order a `Direction`, and the sort an
 * in-place insertion sort on an array.
 */
module Sorting {
  import opened Text

  /** The value a comparator reads: a JavaScript number (dates as their time value) or a string. */
  datatype SortKey = Num(n: real) | Str(s: string)

  datatype Direction = Asc | Desc

  /**
   * `a < b` as JavaScript evaluates it between two numbers or two strings.
   * No comparator of the dashboard mixes the two kinds (each reads one
   * property); numbers are put first so that the order stays total.
   */
  predicate KeyLess(a: SortKey, b: SortKey) {
    match (a, b)
    case (Num(x), Num(y)) => x < y
    case (Str(x), Str(y)) => LexLess(x, y)
    case (Num(_), Str(_)) => true
    case (Str(_), Num(_)) => false
  }

  /** The comparator puts `a` strictly before `b`. */
  predicate Before(a: SortKey, b: SortKey, dir: Direction) {
    if dir == Asc then KeyLess(a, b) else KeyLess(b, a)
  }

  /** `a` may stand before `b`: the comparator does not put `b` first. */
  predicate InOrder(a: SortKey, b: SortKey, dir: Direction) {
    !Before(b, a, dir)
  }

  /** Keys ascend (`Asc`) or descend (`Desc`) along `s`, ties allowed. */
  predicate SortedBy<T>(s: seq<T>, key: T -> SortKey, dir: Direction) {
    forall i, j :: 0 <= i < j < |s| ==> InOrder(key(s[i]), key(s[j]), dir)
  }

  lemma KeyLessAsymmetric(a: SortKey, b: SortKey)
    ensures !(KeyLess(a, b) && KeyLess(b, a))
  {
    if a.Str? && b.Str? { LexLessAsymmetric(a.s, b.s); }
  }

  lemma KeyLessTransitive(a: SortKey, b: SortKey, c: SortKey)
    requires KeyLess(a, b) && KeyLess(b, c)
    ensures KeyLess(a, c)
  {
    if a.Str? && b.Str? && c.Str? { LexLessTransitive(a.s, b.s, c.s); }
  }

  lemma KeyLessTotal(a: SortKey, b: SortKey)
    requires a != b
    ensures KeyLess(a, b) || KeyLess(b, a)
  {
    if a.Str? && b.Str? { LexLessTotal(a.s, b.s); }
  }

  /** Whatever the comparator puts first may stand first. */
  lemma BeforeInOrder(a: SortKey, b: SortKey, dir: Direction)
    requires Before(a, b, dir)
    ensures InOrder(a, b, dir)
  {
    KeyLessAsymmetric(a, b);
  }

  /** Standing in order is transitive: the comparators describe a total preorder. */
  lemma InOrderTransitive(a: SortKey, b: SortKey, c: SortKey, dir: Direction)
    requires InOrder(a, b, dir) && InOrder(b, c, dir)
    ensures InOrder(a, c, dir)
  {
    if Before(c, a, dir) {
      if b == c {
      } else if b == a {
      } else if dir == Asc {
        KeyLessTotal(b, c);
        KeyLessTotal(a, b);
        KeyLessTransitive(b, c, a);
      } else {
        KeyLessTotal(b, c);
        KeyLessTotal(a, b);
        KeyLessTransitive(a, c, b);
      }
    }
  }

  /**
   * Sorts `a` in place: afterwards its keys are in order and it holds the
   * same elements.
   */
  method SortInPlace<T>(a: array<T>, key: T -> SortKey, dir: Direction)
    modifies a
    ensures SortedBy(a[..], key, dir)
    ensures multiset(a[..]) == multiset(old(a[..]))
  {
    var i := 0;
    while i < a.Length
      invariant 0 <= i <= a.Length
      invariant forall p, q :: 0 <= p < q < i ==> InOrder(key(a[p]), key(a[q]), dir)
      invariant multiset(a[..]) == multiset(old(a[..]))
    {
      InsertLast(a, i, key, dir);
      i := i + 1;
    }
  }

  /** One pass of the insertion sort: moves `a[i]` left into the sorted prefix `a[..i]`. */
  method InsertLast<T>(a: array<T>, i: int, key: T -> SortKey, dir: Direction)
    requires 0 <= i < a.Length
    requires forall p, q :: 0 <= p < q < i ==> InOrder(key(a[p]), key(a[q]), dir)
    modifies a
    ensures forall p, q :: 0 <= p < q <= i ==> InOrder(key(a[p]), key(a[q]), dir)
    ensures multiset(a[..]) == multiset(old(a[..]))
  {
    var j := i;
    while j > 0 && Before(key(a[j]), key(a[j - 1]), dir)
      invariant 0 <= j <= i
      invariant forall p, q :: 0 <= p < q <= i && p != j && q != j ==> InOrder(key(a[p]), key(a[q]), dir)
      invariant forall q :: j < q <= i ==> InOrder(key(a[j]), key(a[q]), dir)
      invariant multiset(a[..]) == multiset(old(a[..]))
      decreases j
    {
      BeforeInOrder(key(a[j]), key(a[j - 1]), dir);
      a[j - 1], a[j] := a[j], a[j - 1];
      j := j - 1;
    }
    forall p | 0 <= p < j
      ensures InOrder(key(a[p]), key(a[j]), dir)
    {
      if p < j - 1 {
        InOrderTransitive(key(a[p]), key(a[j - 1]), key(a[j]), dir);
      }
    }
  }

  /** `[...s].sort(cmp)`: sorts a fresh copy and returns it; `s` itself is a value and stays as it was. */
  method SortedCopy<T>(s: seq<T>, key: T -> SortKey, dir: Direction) returns (r: seq<T>)
    ensures SortedBy(r, key, dir)
    ensures multiset(r) == multiset(s)
  {
    var a := new T[|s|](i requires 0 <= i < |s| => s[i]);
    assert a[..] == s;
    SortInPlace(a, key, dir);
    r := a[..];
  }
}
