/** The list machinery every page shares: optional record fields, the stable
    `Array.prototype.filter`, counting with `filter(...).length`, summing with
    `reduce`, the `'all'`-style selector, and `Array.from(new Set(xs))`. */
module Listing {

  /** An optional record field (`email?: string`). */
  datatype Option<T> = None | Some(value: T)

  /** `field || 0` for an optional number: an absent value reads as zero. */
  function OrZero(o: Option<real>): real
  {
    match o
    case None => 0.0
    case Some(v) => v
  }

  /** `a` is `b` with some elements dropped and the rest kept in order. */
  predicate IsSubseq<T(==)>(a: seq<T>, b: seq<T>)
    decreases |b|
  {
    || |a| == 0
    || (&& |b| > 0
        && ((a[0] == b[0] && IsSubseq(a[1..], b[1..])) || IsSubseq(a, b[1..])))
  }

  /** Number of elements that satisfy `p` (`xs.filter(p).length`). */
  function Count<T(!new)>(xs: seq<T>, p: T -> bool): (n: nat)
    ensures n <= |xs|
    ensures n == 0 <==> forall x :: x in xs ==> !p(x)
    ensures n == |xs| <==> forall x :: x in xs ==> p(x)
  {
    if |xs| == 0 then 0
    else (if p(xs[0]) then 1 else 0) + Count(xs[1..], p)
  }

  /** `xs.filter(keep)`: exactly the elements that satisfy `keep`, in their
      original order. */
  function Filter<T(==,!new)>(xs: seq<T>, keep: T -> bool): (r: seq<T>)
    ensures forall x :: x in r <==> x in xs && keep(x)
    ensures IsSubseq(r, xs)
    ensures |r| == Count(xs, keep)
    ensures (forall x :: x in xs ==> keep(x)) ==> r == xs
  {
    if |xs| == 0 then []
    else if keep(xs[0]) then
      assert xs == [xs[0]] + xs[1..];
      [xs[0]] + Filter(xs[1..], keep)
    else
      Filter(xs[1..], keep)
  }

  /** Appending lists adds their counts. */
  lemma {:induction false} CountAppend<T(!new)>(a: seq<T>, b: seq<T>, p: T -> bool)
    ensures Count(a + b, p) == Count(a, p) + Count(b, p)
  {
    if |a| > 0 {
      assert (a + b)[1..] == a[1..] + b;
      CountAppend(a[1..], b, p);
    } else {
      assert a + b == b;
    }
  }

  /** Two predicates that never hold together count at most the whole list. */
  lemma {:induction false} CountDisjoint<T(!new)>(xs: seq<T>, p: T -> bool, q: T -> bool)
    requires forall x :: x in xs ==> !(p(x) && q(x))
    ensures Count(xs, p) + Count(xs, q) <= |xs|
  {
    if |xs| > 0 {
      CountDisjoint(xs[1..], p, q);
    }
  }

  /** Two predicates of which exactly one holds of each element split the list. */
  lemma {:induction false} CountComplement<T(!new)>(xs: seq<T>, p: T -> bool, q: T -> bool)
    requires forall x :: x in xs ==> p(x) != q(x)
    ensures Count(xs, p) + Count(xs, q) == |xs|
  {
    if |xs| > 0 {
      CountComplement(xs[1..], p, q);
    }
  }

  /** Three predicates of which exactly one holds of each element split the list. */
  lemma {:induction false} CountPartition3<T(!new)>(xs: seq<T>, p: T -> bool, q: T -> bool, s: T -> bool)
    requires forall x :: x in xs ==> (if p(x) then 1 else 0) + (if q(x) then 1 else 0) + (if s(x) then 1 else 0) == 1
    ensures Count(xs, p) + Count(xs, q) + Count(xs, s) == |xs|
  {
    if |xs| > 0 {
      CountPartition3(xs[1..], p, q, s);
    }
  }

  /** `xs.reduce((sum, x) => sum + f(x), 0)`. */
  function SumOf<T>(xs: seq<T>, f: T -> real): real
  {
    if |xs| == 0 then 0.0 else f(xs[0]) + SumOf(xs[1..], f)
  }

  /** Two tests that agree on every element count the same elements. */
  lemma {:induction false} CountCongruent<T(!new)>(xs: seq<T>, p: T -> bool, q: T -> bool)
    requires forall x :: x in xs ==> p(x) == q(x)
    ensures Count(xs, p) == Count(xs, q)
  {
    if |xs| > 0 {
      CountCongruent(xs[1..], p, q);
    }
  }

  /** Filtering first never raises a count. */
  lemma {:induction false} CountOfFilter<T(!new)>(xs: seq<T>, keep: T -> bool, p: T -> bool)
    ensures Count(Filter(xs, keep), p) <= Count(xs, p)
  {
    if |xs| > 0 {
      CountOfFilter(xs[1..], keep, p);
      if keep(xs[0]) {
        var f := Filter(xs, keep);
        assert f == [xs[0]] + Filter(xs[1..], keep);
        assert f[1..] == Filter(xs[1..], keep);
      }
    }
  }

  lemma {:induction false} SumOfNonNegative<T>(xs: seq<T>, f: T -> real)
    requires forall x :: x in xs ==> f(x) >= 0.0
    ensures SumOf(xs, f) >= 0.0
  {
    if |xs| > 0 {
      SumOfNonNegative(xs[1..], f);
    }
  }

  lemma {:induction false} SumOfAppend<T>(a: seq<T>, b: seq<T>, f: T -> real)
    ensures SumOf(a + b, f) == SumOf(a, f) + SumOf(b, f)
  {
    if |a| > 0 {
      assert (a + b)[1..] == a[1..] + b;
      SumOfAppend(a[1..], b, f);
    } else {
      assert a + b == b;
    }
  }

  /** Replacing one element changes the sum by the difference of the two terms. */
  lemma {:induction false} SumOfUpdate<T>(xs: seq<T>, k: nat, v: T, f: T -> real)
    requires k < |xs|
    ensures SumOf(xs[k := v], f) == SumOf(xs, f) - f(xs[k]) + f(v)
  {
    if k > 0 {
      assert xs[k := v][1..] == xs[1..][k - 1 := v];
      SumOfUpdate(xs[1..], k - 1, v, f);
    }
  }

  /** Two functions that agree on every element give the same sum. */
  lemma {:induction false} SumOfCongruent<T>(xs: seq<T>, f: T -> real, g: T -> real)
    requires forall x :: x in xs ==> f(x) == g(x)
    ensures SumOf(xs, f) == SumOf(xs, g)
  {
    if |xs| > 0 {
      SumOfCongruent(xs[1..], f, g);
    }
  }

  function IntSum(xs: seq<int>): int
  {
    if |xs| == 0 then 0 else xs[0] + IntSum(xs[1..])
  }

  /** The arithmetic mean; `None` for an empty list, where the source divides
      0 by 0 and gets NaN. */
  function Mean(xs: seq<int>): (r: Option<real>)
    ensures r.Some? <==> |xs| > 0
    ensures r.Some? ==> r.value * |xs| as real == IntSum(xs) as real
    ensures r.Some? ==> r.value == IntSum(xs) as real / |xs| as real
  {
    if |xs| == 0 then None
    else
      var total := IntSum(xs) as real;
      var n := |xs| as real;
      QuotientTimesDivisor(total, n);
      Some(total / n)
  }

  lemma QuotientTimesDivisor(x: real, n: real)
    requires n != 0.0
    ensures (x / n) * n == x
  {
  }

  lemma {:induction false} IntSumBounds(xs: seq<int>, lo: int, hi: int)
    requires forall i :: 0 <= i < |xs| ==> lo <= xs[i] <= hi
    ensures lo * |xs| <= IntSum(xs) <= hi * |xs|
  {
    if |xs| > 0 {
      var n := |xs|;
      IntSumBounds(xs[1..], lo, hi);
      assert lo * n == lo + lo * (n - 1);
      assert hi * n == hi + hi * (n - 1);
    }
  }

  /** A quotient by a positive number lies within any bounds scaled by it. */
  lemma QuotientWithin(s: real, n: real, lo: real, hi: real)
    requires n > 0.0
    requires lo * n <= s <= hi * n
    ensures lo <= s / n <= hi
  {
    assert s / n - lo == (s - lo * n) / n;
    assert hi - s / n == (hi * n - s) / n;
  }

  lemma ProductAsReal(a: int, b: int)
    ensures (a * b) as real == a as real * b as real
  {
  }

  lemma BoundsAsReal(s: int, n: int, lo: int, hi: int)
    requires lo * n <= s <= hi * n
    ensures lo as real * n as real <= s as real <= hi as real * n as real
  {
    ProductAsReal(lo, n);
    ProductAsReal(hi, n);
  }

  /** The mean of a non-empty list lies between any lower and upper bound of
      its elements. */
  lemma MeanWithin(xs: seq<int>, lo: int, hi: int)
    requires |xs| > 0
    requires forall i :: 0 <= i < |xs| ==> lo <= xs[i] <= hi
    ensures lo as real <= Mean(xs).value <= hi as real
  {
    var n := |xs|;
    var total := IntSum(xs);
    IntSumBounds(xs, lo, hi);
    BoundsAsReal(total, n, lo, hi);
    QuotientWithin(total as real, n as real, lo as real, hi as real);
    assert Mean(xs).value == total as real / n as real;
  }

  /** A select whose `sentinel` value (`'all'`, `'Todas'`) lets everything through
      and whose any other value demands equality. */
  predicate Selects(choice: string, sentinel: string, value: string)
  {
    choice == sentinel || value == choice
  }

  predicate NoDuplicates<T(==)>(xs: seq<T>)
  {
    forall i, j :: 0 <= i < j < |xs| ==> xs[i] != xs[j]
  }

  /** Position of the first occurrence of `x` in `xs`. */
  function FirstIndex<T(==)>(xs: seq<T>, x: T): (k: nat)
    requires x in xs
    ensures k < |xs| && xs[k] == x
    ensures forall m :: 0 <= m < k ==> xs[m] != x
  {
    if xs[0] == x then 0 else 1 + FirstIndex(xs[1..], x)
  }

  /** `Array.from(new Set(xs))`: each distinct element once, in the order of
      its first occurrence. */
  method UniqueInOrder<T(==)>(xs: seq<T>) returns (r: seq<T>)
    ensures NoDuplicates(r)
    ensures forall x :: x in r <==> x in xs
    ensures forall i, j :: 0 <= i < j < |r| ==> FirstIndex(xs, r[i]) < FirstIndex(xs, r[j])
  {
    var seen: set<T> := {};
    r := [];
    var n := 0;
    while n < |xs|
      invariant n <= |xs|
      invariant forall x :: x in seen <==> x in r
      invariant forall x :: x in r <==> x in xs[..n]
      invariant forall x :: x in r ==> x in xs
      invariant NoDuplicates(r)
      invariant forall i :: 0 <= i < |r| ==> FirstIndex(xs, r[i]) < n
      invariant forall i, j :: 0 <= i < j < |r| ==> FirstIndex(xs, r[i]) < FirstIndex(xs, r[j])
    {
      var x := xs[n];
      assert xs[..n + 1] == xs[..n] + [x];
      if x !in seen {
        assert FirstIndex(xs, x) == n by {
          var k := FirstIndex(xs, x);
          assert forall m :: 0 <= m < n ==> xs[m] == xs[..n][m];
        }
        forall i | 0 <= i < |r|
          ensures FirstIndex(xs, r[i]) < n
        {
        }
        seen := seen + {x};
        r := r + [x];
      }
      n := n + 1;
    }
    assert xs[..n] == xs;
  }
}
