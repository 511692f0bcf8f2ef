/** Shared vocabulary: options, time units, and sums and sizes of finite sets. */
module Base {

  datatype Option<+T> = None | Some(value: T)

  // Time is an integer count of microseconds, the resolution of a stored timestamp.
  const SECOND: int := 1_000_000
  const HOUR: int := 3600 * SECOND

  function Min(a: int, b: int): int { if a <= b then a else b }

  function Max(a: int, b: int): int { if a >= b then a else b }

  function One(b: bool): nat { if b then 1 else 0 }

  /** A counter that starts at zero. */
  function Count(m: map<string, int>, s: string): int { if s in m then m[s] else 0 }

  function Bump(m: map<string, int>, s: string): map<string, int> { m[s := Count(m, s) + 1] }

  function Pow2(n: nat): (r: nat)
    ensures r >= 1
  {
    if n == 0 then 1 else 2 * Pow2(n - 1)
  }

  /** base * 2^n, and base halved n times. */
  function Doubled(base: nat, n: nat): nat { if n == 0 then base else 2 * Doubled(base, n - 1) }

  function Halved(base: nat, n: nat): nat { if n == 0 then base else Halved(base, n - 1) / 2 }

  lemma {:induction false} DoubledIsPower(base: nat, n: nat)
    ensures Doubled(base, n) == base * Pow2(n)
  {
    if n > 0 {
      DoubledIsPower(base, n - 1);
      assert base * (2 * Pow2(n - 1)) == 2 * (base * Pow2(n - 1));
    }
  }

  function Elems<T>(s: seq<T>): set<T> { set x | x in s }

  ghost predicate Distinct<T>(s: seq<T>) {
    forall i, j :: 0 <= i < j < |s| ==> s[i] != s[j]
  }

  lemma {:induction false} DistinctSize<T>(s: seq<T>)
    requires Distinct(s)
    ensures |Elems(s)| == |s|
  {
    if s != [] {
      var front := s[..|s| - 1];
      DistinctSize(front);
      assert s == front + [s[|s| - 1]];
      assert Elems(s) == Elems(front) + {s[|s| - 1]};
    }
  }

  lemma SubsetSize<T>(a: set<T>, b: set<T>)
    requires a <= b
    ensures |a| <= |b|
    ensures |a| == |b| ==> a == b
  {
    assert b == a + (b - a);
    assert |b| == |a| + |b - a|;
  }

  /** One element more, or not. */
  lemma SizeStep(xs: set<nat>, ys: set<nat>, n: nat, more: bool)
    requires n !in xs && forall i :: i in ys <==> i in xs || (i == n && more)
    ensures |ys| == |xs| + if more then 1 else 0
  {
    assert ys == if more then xs + {n} else xs;
  }

  /** The sum of f over a finite set. */
  ghost function Sum<T(!new)>(xs: set<T>, f: T -> int): int {
    if xs == {} then 0
    else
      var x :| x in xs;
      f(x) + Sum(xs - {x}, f)
  }

  /** Any element may be taken out first. */
  lemma {:induction false} SumSplit<T(!new)>(xs: set<T>, f: T -> int, x: T)
    requires x in xs
    ensures Sum(xs, f) == f(x) + Sum(xs - {x}, f)
    decreases xs
  {
    var y :| y in xs && Sum(xs, f) == f(y) + Sum(xs - {y}, f);
    if y != x {
      SumSplit(xs - {y}, f, x);
      SumSplit(xs - {x}, f, y);
      assert xs - {y} - {x} == xs - {x} - {y};
    }
  }

  lemma {:induction false} SumMonotone<T(!new)>(xs: set<T>, f: T -> int, g: T -> int)
    requires forall x :: x in xs ==> f(x) <= g(x)
    ensures Sum(xs, f) <= Sum(xs, g)
    decreases xs
  {
    if xs != {} {
      var x :| x in xs;
      SumSplit(xs, f, x);
      SumSplit(xs, g, x);
      SumMonotone(xs - {x}, f, g);
    }
  }

  lemma SumEqual<T(!new)>(xs: set<T>, f: T -> int, g: T -> int)
    requires forall x :: x in xs ==> f(x) == g(x)
    ensures Sum(xs, f) == Sum(xs, g)
  {
    SumMonotone(xs, f, g);
    SumMonotone(xs, g, f);
  }

  /** If g is smaller by one on the elements of s, its sum is smaller by |s|. */
  lemma {:induction false} SumDrop<T(!new)>(xs: set<T>, s: set<T>, f: T -> int, g: T -> int)
    requires s <= xs && forall x :: x in xs ==> g(x) + One(x in s) <= f(x)
    ensures Sum(xs, g) + |s| <= Sum(xs, f)
    decreases xs
  {
    if xs != {} {
      var x :| x in xs;
      SumSplit(xs, f, x);
      SumSplit(xs, g, x);
      SumDrop(xs - {x}, s - {x}, f, g);
      if x in s {
        assert |s - {x}| == |s| - 1;
      } else {
        assert s - {x} == s;
      }
    }
  }

  lemma {:induction false} DoubledMonotone(a: nat, b: nat, n: nat)
    requires a <= b
    ensures Doubled(a, n) <= Doubled(b, n)
  {
    if n > 0 {
      DoubledMonotone(a, b, n - 1);
    }
  }
}
