/** Sorted listings: the order in which the storage client, Python's `sorted` and SQL's
    ORDER BY hand elements over. */
module Ordering {

  ghost predicate TotalOrder<T(!new)>(leq: (T, T) -> bool) {
    && (forall x :: leq(x, x))
    && (forall x, y :: leq(x, y) || leq(y, x))
    && (forall x, y :: leq(x, y) && leq(y, x) ==> x == y)
    && (forall x, y, z :: leq(x, y) && leq(y, z) ==> leq(x, z))
  }

  /** Every element occurs once, in strictly increasing position. */
  ghost predicate StrictlySorted<T(!new)>(xs: seq<T>, leq: (T, T) -> bool) {
    forall i, j :: 0 <= i < j < |xs| ==> leq(xs[i], xs[j]) && xs[i] != xs[j]
  }

  function Elements<T>(xs: seq<T>): (s: set<T>) {
    set x | x in xs
  }

  ghost predicate IsLeast<T>(m: T, s: set<T>, leq: (T, T) -> bool) {
    m in s && forall y | y in s :: leq(m, y)
  }

  lemma LeastExists<T(!new)>(s: set<T>, leq: (T, T) -> bool)
    requires TotalOrder(leq) && s != {}
    ensures exists m :: IsLeast(m, s, leq)
  {
    var x :| x in s;
    if s == {x} {
      assert IsLeast(x, s, leq) by { assert forall y | y in s :: y == x; }
    } else {
      LeastExists(s - {x}, leq);
      var m :| IsLeast(m, s - {x}, leq);
      LeastOfTwo(m, x, s, leq);
    }
  }

  lemma LeastOfTwo<T(!new)>(m: T, x: T, s: set<T>, leq: (T, T) -> bool)
    requires TotalOrder(leq) && x in s && IsLeast(m, s - {x}, leq)
    ensures IsLeast(if leq(m, x) then m else x, s, leq)
  {
  }

  function Least<T(!new)>(s: set<T>, leq: (T, T) -> bool): (m: T)
    requires TotalOrder(leq) && s != {}
    ensures m in s && forall y | y in s :: leq(m, y)
  {
    LeastExists(s, leq);
    assert exists m :: m in s && forall y | y in s :: leq(m, y) by {
      var m :| IsLeast(m, s, leq);
      assert m in s && forall y | y in s :: leq(m, y);
    }
    var m :| m in s && forall y | y in s :: leq(m, y);
    m
  }

  /** The elements of a finite set in increasing order. */
  function Sorted<T(!new)>(s: set<T>, leq: (T, T) -> bool): (xs: seq<T>)
    requires TotalOrder(leq)
    ensures StrictlySorted(xs, leq)
    ensures forall x :: x in xs <==> x in s
    ensures |xs| == |s|
    decreases |s|
  {
    if s == {} then []
    else
      var m := Least(s, leq);
      var rest := Sorted(s - {m}, leq);
      assert forall y | y in rest :: y in s - {m};
      [m] + rest
  }

  lemma HeadIsLeast<T(!new)>(xs: seq<T>, leq: (T, T) -> bool, y: T)
    requires TotalOrder(leq) && StrictlySorted(xs, leq) && y in xs
    ensures leq(xs[0], y)
  {
  }

  lemma TailElements<T(!new)>(xs: seq<T>, leq: (T, T) -> bool)
    requires StrictlySorted(xs, leq) && xs != []
    ensures StrictlySorted(xs[1..], leq)
    ensures Elements(xs[1..]) == Elements(xs) - {xs[0]}
  {
  }

  lemma NoElements<T>(xs: seq<T>)
    ensures Elements(xs) == {} <==> xs == []
  {
    if xs != [] { assert xs[0] in Elements(xs); }
  }

  /** Two strictly sorted sequences with the same elements are equal. */
  lemma {:induction false} SortedUnique<T(!new)>(xs: seq<T>, ys: seq<T>, leq: (T, T) -> bool)
    requires TotalOrder(leq) && StrictlySorted(xs, leq) && StrictlySorted(ys, leq)
    requires Elements(xs) == Elements(ys)
    ensures xs == ys
  {
    if xs == [] {
      NoElements(ys);
    } else {
      assert xs[0] in Elements(ys);
      NoElements(ys);
      assert ys[0] in Elements(ys);
      assert ys[0] in xs;
      HeadIsLeast(xs, leq, ys[0]);
      HeadIsLeast(ys, leq, xs[0]);
      TailElements(xs, leq);
      TailElements(ys, leq);
      SortedUnique(xs[1..], ys[1..], leq);
      assert xs == [xs[0]] + xs[1..] && ys == [ys[0]] + ys[1..];
    }
  }

  // ----- strings in code-point order -----

  predicate LexLeq(a: string, b: string) {
    a == "" || (b != "" && (a[0] < b[0] || (a[0] == b[0] && LexLeq(a[1..], b[1..]))))
  }

  lemma LexReflexive(a: string)
    ensures LexLeq(a, a)
  {}

  lemma LexTotal(a: string, b: string)
    ensures LexLeq(a, b) || LexLeq(b, a)
  {}

  lemma {:induction false} LexAntisymmetric(a: string, b: string)
    requires LexLeq(a, b) && LexLeq(b, a)
    ensures a == b
  {
    if a != "" {
      LexAntisymmetric(a[1..], b[1..]);
      assert a == [a[0]] + a[1..] && b == [b[0]] + b[1..];
    }
  }

  lemma LexTransitive(a: string, b: string, c: string)
    requires LexLeq(a, b) && LexLeq(b, c)
    ensures LexLeq(a, c)
  {}

  lemma LexTotalOrder()
    ensures TotalOrder(LexLeq)
  {
    forall a, b ensures (LexLeq(a, a)) && (LexLeq(a, b) || LexLeq(b, a)) && (LexLeq(a, b) && LexLeq(b, a) ==> a == b) {
      LexReflexive(a);
      LexTotal(a, b);
      if LexLeq(a, b) && LexLeq(b, a) { LexAntisymmetric(a, b); }
    }
    forall a, b, c | LexLeq(a, b) && LexLeq(b, c) ensures LexLeq(a, c) {
      LexTransitive(a, b, c);
    }
  }

  function SortedStrings(s: set<string>): (xs: seq<string>)
    ensures StrictlySorted(xs, LexLeq)
    ensures forall x :: x in xs <==> x in s
    ensures |xs| == |s|
  {
    LexTotalOrder();
    Sorted(s, LexLeq)
  }
}
