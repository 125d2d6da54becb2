/** Sums over the rows of a table, and the few laws every report rests on. */
module Sums {

  function Sum<T>(s: seq<T>, f: T -> int): int {
    if s == [] then 0 else f(s[0]) + Sum(s[1..], f)
  }

  function RSum<T>(s: seq<T>, f: T -> real): real {
    if s == [] then 0.0 else f(s[0]) + RSum(s[1..], f)
  }

  function Filter<T>(s: seq<T>, p: T -> bool): seq<T> {
    if s == [] then []
    else (if p(s[0]) then [s[0]] else []) + Filter(s[1..], p)
  }

  function Map<T, U>(s: seq<T>, m: T -> U): (r: seq<U>)
    ensures |r| == |s| && forall i :: 0 <= i < |s| ==> r[i] == m(s[i])
  {
    if s == [] then [] else [m(s[0])] + Map(s[1..], m)
  }

  lemma {:induction false} SumConcat<T>(a: seq<T>, b: seq<T>, f: T -> int)
    ensures Sum(a + b, f) == Sum(a, f) + Sum(b, f)
  {
    if a == [] {
      assert a + b == b;
    } else {
      assert (a + b)[1..] == a[1..] + b;
      SumConcat(a[1..], b, f);
    }
  }

  lemma SumAppend<T>(s: seq<T>, x: T, f: T -> int)
    ensures Sum(s + [x], f) == Sum(s, f) + f(x)
  {
    SumConcat(s, [x], f);
    assert [x][1..] == [];
  }

  lemma {:induction false} RSumConcat<T>(a: seq<T>, b: seq<T>, f: T -> real)
    ensures RSum(a + b, f) == RSum(a, f) + RSum(b, f)
  {
    if a == [] {
      assert a + b == b;
    } else {
      assert (a + b)[1..] == a[1..] + b;
      RSumConcat(a[1..], b, f);
    }
  }

  lemma RSumPair<T>(x: T, y: T, f: T -> real)
    ensures RSum([x, y], f) == f(x) + f(y)
  {
    assert [x, y][1..] == [y];
    assert [y][1..] == [];
    assert RSum([y], f) == f(y);
  }

  lemma SumPair<T>(x: T, y: T, f: T -> int)
    ensures Sum([x, y], f) == f(x) + f(y)
  {
    assert [x, y][1..] == [y];
    assert [y][1..] == [];
    assert Sum([y], f) == f(y);
  }

  lemma {:induction false} SumSame<T>(s: seq<T>, f: T -> int, g: T -> int)
    requires forall x :: x in s ==> f(x) == g(x)
    ensures Sum(s, f) == Sum(s, g)
  {
    if s != [] {
      SumSame(s[1..], f, g);
    }
  }

  lemma {:induction false} SumZero<T>(s: seq<T>, f: T -> int)
    requires forall x :: x in s ==> f(x) == 0
    ensures Sum(s, f) == 0
  {
    if s != [] {
      SumZero(s[1..], f);
    }
  }

  lemma {:induction false} SumPlus<T>(s: seq<T>, h: T -> int, f: T -> int, g: T -> int)
    requires forall x :: x in s ==> h(x) == f(x) + g(x)
    ensures Sum(s, h) == Sum(s, f) + Sum(s, g)
  {
    if s != [] {
      SumPlus(s[1..], h, f, g);
    }
  }

  lemma {:induction false} SumCross<T>(s: seq<T>, a: T -> int, b: T -> int, c: T -> int, d: T -> int)
    requires forall x :: x in s ==> a(x) + b(x) == c(x) + d(x)
    ensures Sum(s, a) + Sum(s, b) == Sum(s, c) + Sum(s, d)
  {
    if s != [] {
      SumCross(s[1..], a, b, c, d);
    }
  }

  lemma {:induction false} SumBounded<T>(s: seq<T>, f: T -> int, g: T -> int)
    requires forall x :: x in s ==> f(x) <= g(x)
    ensures Sum(s, f) <= Sum(s, g)
  {
    if s != [] {
      SumBounded(s[1..], f, g);
    }
  }

  lemma {:induction false} SumNonNegative<T>(s: seq<T>, f: T -> int)
    requires forall x :: x in s ==> f(x) >= 0
    ensures Sum(s, f) >= 0
    ensures forall x :: x in s ==> f(x) <= Sum(s, f)
  {
    if s != [] {
      SumNonNegative(s[1..], f);
    }
  }

  lemma {:induction false} SumUpdate<T>(s: seq<T>, i: nat, x: T, f: T -> int)
    requires i < |s|
    ensures Sum(s[i := x], f) == Sum(s, f) - f(s[i]) + f(x)
  {
    if i == 0 {
      assert s[0 := x][1..] == s[1..];
    } else {
      assert s[i := x][1..] == s[1..][i - 1 := x];
      SumUpdate(s[1..], i - 1, x, f);
    }
  }

  lemma {:induction false} SumMap<T, U>(s: seq<T>, m: T -> U, f: U -> int, g: T -> int)
    requires forall x :: x in s ==> g(x) == f(m(x))
    ensures Sum(Map(s, m), f) == Sum(s, g)
  {
    if s != [] {
      SumMap(s[1..], m, f, g);
    }
  }

  /** Only one element contributes: the sum is its value. */
  lemma {:induction false} SumOnly<T>(s: seq<T>, i: nat, f: T -> int)
    requires i < |s|
    requires forall k :: 0 <= k < |s| && k != i ==> f(s[k]) == 0
    ensures Sum(s, f) == f(s[i])
  {
    if i == 0 {
      assert forall x :: x in s[1..] ==> exists k :: 0 < k < |s| && s[k] == x;
      SumZero(s[1..], f);
    } else {
      SumOnly(s[1..], i - 1, f);
    }
  }

  function Along<A, B>(f: (A, B) -> int, a: A): B -> int {
    (b: B) => f(a, b)
  }

  function Across<A, B>(f: (A, B) -> int, b: B): A -> int {
    (a: A) => f(a, b)
  }

  function RowSum<A, B>(bs: seq<B>, f: (A, B) -> int): A -> int {
    (a: A) => Sum(bs, Along(f, a))
  }

  function ColSum<A, B>(xs: seq<A>, f: (A, B) -> int): B -> int {
    (b: B) => Sum(xs, Across(f, b))
  }

  /** Summing a table by rows and by columns gives the same total. */
  lemma {:induction false} SumSwap<A, B>(xs: seq<A>, bs: seq<B>, f: (A, B) -> int)
    ensures Sum(xs, RowSum(bs, f)) == Sum(bs, ColSum(xs, f))
  {
    if xs == [] {
      SumZero(bs, ColSum(xs, f));
    } else {
      SumSwap(xs[1..], bs, f);
      SumPlus(bs, ColSum(xs, f), Along(f, xs[0]), ColSum(xs[1..], f));
    }
  }

  lemma {:induction false} FilterIn<T>(s: seq<T>, p: T -> bool)
    ensures forall x :: x in Filter(s, p) <==> x in s && p(x)
    ensures |Filter(s, p)| <= |s|
  {
    if s != [] {
      FilterIn(s[1..], p);
    }
  }

  lemma {:induction false} FilterSum<T>(s: seq<T>, p: T -> bool, f: T -> int, g: T -> int)
    requires forall x :: x in s ==> g(x) == if p(x) then f(x) else 0
    ensures Sum(Filter(s, p), f) == Sum(s, g)
  {
    if s != [] {
      FilterSum(s[1..], p, f, g);
      SumConcat(if p(s[0]) then [s[0]] else [], Filter(s[1..], p), f);
      assert [s[0]][1..] == [];
    }
  }

  lemma {:induction false} FilterConcat<T>(a: seq<T>, b: seq<T>, p: T -> bool)
    ensures Filter(a + b, p) == Filter(a, p) + Filter(b, p)
  {
    if a == [] {
      assert a + b == b;
    } else {
      var h := if p(a[0]) then [a[0]] else [];
      FilterConcat(a[1..], b, p);
      assert (a + b)[0] == a[0] && (a + b)[1..] == a[1..] + b;
      assert h + (Filter(a[1..], p) + Filter(b, p)) == (h + Filter(a[1..], p)) + Filter(b, p);
    }
  }

  lemma {:induction false} FilterNone<T>(s: seq<T>, p: T -> bool)
    requires forall x :: x in s ==> !p(x)
    ensures Filter(s, p) == []
  {
    if s != [] {
      FilterNone(s[1..], p);
    }
  }

  lemma {:induction false} FilterSame<T>(s: seq<T>, p: T -> bool, q: T -> bool)
    requires forall x :: x in s ==> p(x) == q(x)
    ensures Filter(s, p) == Filter(s, q)
  {
    if s != [] {
      FilterSame(s[1..], p, q);
    }
  }

  /** Filtering twice is filtering by both conditions. */
  lemma {:induction false} FilterTwice<T>(s: seq<T>, p: T -> bool, q: T -> bool, r: T -> bool)
    requires forall x :: x in s ==> r(x) == (p(x) && q(x))
    ensures Filter(Filter(s, p), q) == Filter(s, r)
  {
    if s != [] {
      FilterTwice(s[1..], p, q, r);
      FilterConcat(if p(s[0]) then [s[0]] else [], Filter(s[1..], p), q);
      assert [s[0]][1..] == [];
    }
  }

  function FlatMap<T, U>(s: seq<T>, m: T -> seq<U>): seq<U> {
    if s == [] then [] else m(s[0]) + FlatMap(s[1..], m)
  }

  lemma {:induction false} FlatMapAppend<T, U>(s: seq<T>, x: T, m: T -> seq<U>)
    ensures FlatMap(s + [x], m) == FlatMap(s, m) + m(x)
  {
    if s == [] {
      assert s + [x] == [x] && [x][1..] == [];
    } else {
      assert (s + [x])[1..] == s[1..] + [x];
      FlatMapAppend(s[1..], x, m);
    }
  }
}
