/** Numeric helpers shared by the analytics modules: sums and means of
    measurements, Python-style rounding and truncation, a stable sort by key
    and the two kinds of median the source uses. */
module Numeric {

  function Min(a: real, b: real): (r: real)
    ensures r <= a && r <= b && (r == a || r == b)
  {
    if a <= b then a else b
  }

  function Max(a: real, b: real): (r: real)
    ensures r >= a && r >= b && (r == a || r == b)
  {
    if a >= b then a else b
  }

  /** `max(lo, min(hi, x))`, the clamp idiom of the source. */
  function Clamp(x: real, lo: real, hi: real): (r: real)
    requires lo <= hi
    ensures lo <= r <= hi
    ensures lo <= x <= hi ==> r == x
  {
    Max(lo, Min(hi, x))
  }

  /** Sum of a sequence; the last element is added last, as a Python loop does. */
  function Sum(xs: seq<real>): real
  {
    if |xs| == 0 then 0.0 else Sum(xs[..|xs| - 1]) + xs[|xs| - 1]
  }

  lemma {:induction false} SumAppend(xs: seq<real>, x: real)
    ensures Sum(xs + [x]) == Sum(xs) + x
  {
    assert (xs + [x])[..|xs|] == xs;
  }

  lemma {:induction false} SumConcat(a: seq<real>, b: seq<real>)
    ensures Sum(a + b) == Sum(a) + Sum(b)
    decreases |b|
  {
    if |b| == 0 {
      assert a + b == a;
    } else {
      var b' := b[..|b| - 1];
      assert a + b == (a + b') + [b[|b| - 1]];
      SumAppend(a + b', b[|b| - 1]);
      SumConcat(a, b');
      assert b == b' + [b[|b| - 1]];
      SumAppend(b', b[|b| - 1]);
    }
  }

  /** Every element within [lo, hi] bounds the sum by |xs|·lo and |xs|·hi. */
  lemma {:induction false} SumBounds(xs: seq<real>, lo: real, hi: real)
    requires forall i :: 0 <= i < |xs| ==> lo <= xs[i] <= hi
    ensures |xs| as real * lo <= Sum(xs) <= |xs| as real * hi
  {
    if |xs| > 0 {
      SumBounds(xs[..|xs| - 1], lo, hi);
    }
  }

  /** Adding x to one element adds x to the sum. */
  lemma {:induction false} SumBumpAt(a: seq<real>, b: seq<real>, j: nat, x: real)
    requires |a| == |b| && j < |a| && b[j] == a[j] + x
    requires forall i :: 0 <= i < |a| && i != j ==> b[i] == a[i]
    ensures Sum(b) == Sum(a) + x
  {
    var n := |a|;
    if j == n - 1 {
      assert a[..n - 1] == b[..n - 1];
    } else {
      SumBumpAt(a[..n - 1], b[..n - 1], j, x);
    }
  }

  /** Values of at least one add up to at least their number. */
  lemma {:induction false} SumAtLeastCount(xs: seq<real>)
    requires forall i :: 0 <= i < |xs| ==> xs[i] >= 1.0
    ensures Sum(xs) >= |xs| as real
  {
    if |xs| > 0 {
      SumAtLeastCount(xs[..|xs| - 1]);
    }
  }

  lemma {:induction false} SumNonNegative(xs: seq<real>)
    requires forall i :: 0 <= i < |xs| ==> xs[i] >= 0.0
    ensures Sum(xs) >= 0.0
  {
    SumBounds(xs, 0.0, if |xs| == 0 then 0.0 else MaxOf(xs));
  }

  /** Multiplying by a non-negative factor keeps an order. */
  lemma MulLeftMonotone(c: real, a: real, b: real)
    requires c >= 0.0 && a <= b
    ensures c * a <= c * b
  {
  }

  /** Multiplying by a positive factor keeps a strict order. */
  lemma MulLeftStrict(c: real, a: real, b: real)
    requires c > 0.0 && a < b
    ensures c * a < c * b
  {
  }

  /** Multiplying by a non-negative factor keeps an order (factor on the right). */
  lemma MulRightMonotone(a: real, b: real, c: real)
    requires c >= 0.0 && a <= b
    ensures a * c <= b * c
  {
  }

  /** `x · f`: a quantity scaled by a factor, kept as one term. */
  function Scaled(x: real, f: real): real
  {
    x * f
  }

  lemma ScaledPositive(x: real, f: real)
    requires x > 0.0 && f > 0.0
    ensures Scaled(x, f) > 0.0
  {
  }

  /** Scaling by a non-negative factor keeps the order of the quantities. */
  lemma ScaledLeftMonotone(a: real, b: real, f: real)
    requires a <= b && f >= 0.0
    ensures Scaled(a, f) <= Scaled(b, f)
  {
    MulRightMonotone(a, b, f);
  }

  /** Scaling a non-negative quantity keeps the order of the factors. */
  lemma ScaledMonotone(x: real, f: real, g: real)
    requires x >= 0.0 && f <= g
    ensures Scaled(x, f) <= Scaled(x, g)
  {
    MulLeftMonotone(x, f, g);
  }

  /** `x ** n` for a whole exponent. */
  function Power(x: real, n: nat): real
  {
    if n == 0 then 1.0 else x * Power(x, n - 1)
  }

  /** A base in [0, 1] keeps every power in [0, 1]. */
  lemma {:induction false} PowerUnitBounds(x: real, n: nat)
    requires 0.0 <= x <= 1.0
    ensures 0.0 <= Power(x, n) <= 1.0
  {
    if n > 0 {
      PowerUnitBounds(x, n - 1);
      var p := Power(x, n - 1);
      assert Power(x, n) == x * p;
      MulLeftMonotone(x, p, 1.0);
      MulLeftMonotone(p, x, 1.0);
    }
  }

  /** A positive base keeps every power positive. */
  lemma {:induction false} PowerPositive(x: real, n: nat)
    requires x > 0.0
    ensures Power(x, n) > 0.0
  {
    if n > 0 {
      PowerPositive(x, n - 1);
      MulLeftStrict(x, 0.0, Power(x, n - 1));
    }
  }

  /** With a base in [0, 1], a larger exponent never gives a larger power. */
  lemma {:induction false} PowerAntitone(x: real, n: nat, m: nat)
    requires 0.0 <= x <= 1.0 && n <= m
    ensures Power(x, m) <= Power(x, n)
    decreases m
  {
    if m > n {
      PowerAntitone(x, n, m - 1);
      PowerUnitBounds(x, m - 1);
      MulRightMonotone(x, 1.0, Power(x, m - 1));
    }
  }

  /** With a base in [0, 1), a positive exponent gives a power below one. */
  lemma {:induction false} PowerBelowOne(x: real, n: nat)
    requires 0.0 <= x < 1.0 && n >= 1
    ensures Power(x, n) < 1.0
  {
    PowerAntitone(x, 1, n);
  }

  /** `statistics.mean` / `np.mean` of a non-empty list. */
  function Mean(xs: seq<real>): real
    requires |xs| > 0
  {
    Sum(xs) / |xs| as real
  }

  lemma MeanBounds(xs: seq<real>, lo: real, hi: real)
    requires |xs| > 0
    requires forall i :: 0 <= i < |xs| ==> lo <= xs[i] <= hi
    ensures lo <= Mean(xs) <= hi
  {
    SumBounds(xs, lo, hi);
    var n := |xs| as real;
    assert Mean(xs) * n == Sum(xs);
  }

  /** Every element strictly inside (lo, hi) puts the mean strictly inside too. */
  lemma {:induction false} MeanStrictBounds(xs: seq<real>, lo: real, hi: real)
    requires |xs| > 0
    requires forall i :: 0 <= i < |xs| ==> lo < xs[i] < hi
    ensures lo < Mean(xs) < hi
  {
    SumStrictBounds(xs, lo, hi);
    var n := |xs| as real;
    assert Mean(xs) * n == Sum(xs);
  }

  lemma {:induction false} SumStrictBounds(xs: seq<real>, lo: real, hi: real)
    requires |xs| > 0
    requires forall i :: 0 <= i < |xs| ==> lo < xs[i] < hi
    ensures |xs| as real * lo < Sum(xs) < |xs| as real * hi
  {
    if |xs| > 1 {
      SumStrictBounds(xs[..|xs| - 1], lo, hi);
    }
  }

  /** A non-empty list of positive values has a positive sum. */
  lemma {:induction false} SumPositive(xs: seq<real>)
    requires |xs| > 0
    requires forall i :: 0 <= i < |xs| ==> xs[i] > 0.0
    ensures Sum(xs) > 0.0
  {
    if |xs| > 1 {
      SumPositive(xs[..|xs| - 1]);
    }
  }

  /** A list of equal values has that value as its mean. */
  lemma {:induction false} MeanConstant(xs: seq<real>, c: real)
    requires |xs| > 0
    requires forall i :: 0 <= i < |xs| ==> xs[i] == c
    ensures Mean(xs) == c
  {
    SumBounds(xs, c, c);
    var n := |xs| as real;
    assert Mean(xs) * n == Sum(xs);
  }

  function Abs(x: real): (r: real)
    ensures r >= 0.0 && (r == x || r == -x)
  {
    if x >= 0.0 then x else -x
  }

  /** Python's `x // y` on floats with a positive divisor: the floor of x / y. */
  function FloorDiv(x: real, y: real): int
    requires y > 0.0
  {
    (x / y).Floor
  }

  /** Python's `x % y` on floats with a positive divisor: the remainder after
      FloorDiv, which is never negative and below y. */
  function FloorMod(x: real, y: real): (r: real)
    requires y > 0.0
    ensures 0.0 <= r < y
    ensures x == y * FloorDiv(x, y) as real + r
  {
    FloorRemainder(x, y);
    x - y * FloorDiv(x, y) as real
  }

  lemma FloorRemainder(x: real, y: real)
    requires y > 0.0
    ensures 0.0 <= x - y * ((x / y).Floor as real) < y
  {
    var z := x / y;
    var qr := z.Floor as real;
    assert qr <= z < qr + 1.0;
    MulLeftMonotone(y, qr, z);
    MulLeftStrict(y, z, qr + 1.0);
    assert y * z == x;
    assert y * (qr + 1.0) == y * qr + y;
  }

  /** Python's `max(xs)` of a non-empty list. */
  function MaxOf(xs: seq<real>): (r: real)
    requires |xs| > 0
    ensures r in xs
    ensures forall i :: 0 <= i < |xs| ==> xs[i] <= r
  {
    if |xs| == 1 then xs[0] else Max(MaxOf(xs[..|xs| - 1]), xs[|xs| - 1])
  }

  /** Python's `min(xs)` of a non-empty list. */
  function MinOf(xs: seq<real>): (r: real)
    requires |xs| > 0
    ensures r in xs
    ensures forall i :: 0 <= i < |xs| ==> r <= xs[i]
  {
    if |xs| == 1 then xs[0] else Min(MinOf(xs[..|xs| - 1]), xs[|xs| - 1])
  }

  /** Python's `round(x)` on an exact value: the nearest integer, ties to even. */
  function RoundHalfEven(x: real): (r: int)
    ensures x - 0.5 <= r as real <= x + 0.5
  {
    var f := x.Floor;
    var d := x - f as real;
    if d < 0.5 then f
    else if d > 0.5 then f + 1
    else if f % 2 == 0 then f else f + 1
  }

  lemma RoundHalfEvenMonotone(x: real, y: real)
    requires x <= y
    ensures RoundHalfEven(x) <= RoundHalfEven(y)
  {
  }

  /** Shifting by an even whole number shifts the rounded value alike:
      the fraction and the parity of the floor are unchanged. */
  lemma RoundHalfEvenShift(x: real, k: int)
    ensures RoundHalfEven(x + (2 * k) as real) == RoundHalfEven(x) + 2 * k
  {
    var f := x.Floor;
    var y := x + (2 * k) as real;
    assert (f + 2 * k) as real <= y < (f + 2 * k) as real + 1.0;
    assert y.Floor == f + 2 * k;
    assert y - y.Floor as real == x - f as real;
    assert (f + 2 * k) % 2 == f % 2;
  }

  /** `np.argmax`, or `max` with a key: the first index of a largest value. */
  function ArgMax(xs: seq<real>): (k: nat)
    requires |xs| > 0
    ensures k < |xs|
  {
    if |xs| == 1 then 0
    else
      var k := ArgMax(xs[..|xs| - 1]);
      if xs[|xs| - 1] > xs[k] then |xs| - 1 else k
  }

  /** The index holds a largest value, and every earlier value is smaller. */
  lemma {:induction false} ArgMaxMeaning(xs: seq<real>)
    requires |xs| > 0
    ensures forall i :: 0 <= i < |xs| ==> xs[i] <= xs[ArgMax(xs)]
    ensures forall i :: 0 <= i < ArgMax(xs) ==> xs[i] < xs[ArgMax(xs)]
  {
    if |xs| > 1 {
      ArgMaxMeaning(xs[..|xs| - 1]);
    }
  }

  /** `round(x, 1)`. */
  function Round1(x: real): (r: real)
    ensures x - 0.05 <= r <= x + 0.05
  {
    RoundHalfEven(x * 10.0) as real / 10.0
  }

  /** `round(x, 2)`. */
  function Round2(x: real): (r: real)
    ensures x - 0.005 <= r <= x + 0.005
  {
    RoundHalfEven(x * 100.0) as real / 100.0
  }

  lemma Round1Monotone(x: real, y: real)
    requires x <= y
    ensures Round1(x) <= Round1(y)
  {
    RoundHalfEvenMonotone(x * 10.0, y * 10.0);
  }

  lemma Round2Monotone(x: real, y: real)
    requires x <= y
    ensures Round2(x) <= Round2(y)
  {
    RoundHalfEvenMonotone(x * 100.0, y * 100.0);
  }

  /** A share of a positive whole is between 0 and 1. */
  lemma RatioUnit(a: int, b: int)
    requires 0 <= a <= b && 0 < b
    ensures 0.0 <= a as real / b as real <= 1.0
  {
    var x := a as real / b as real;
    assert x * b as real == a as real;
  }

  /** A part of a positive whole is a share in [0, 1], equal to 1 only for
      the whole. */
  lemma RatioUnitReal(a: real, b: real)
    requires 0.0 <= a <= b && b > 0.0
    ensures 0.0 <= a / b <= 1.0
    ensures a / b == 1.0 <==> a == b
  {
    if a == b {
      assert a / b == 1.0;
    } else {
      RatioBelowOne(a, b);
    }
  }

  lemma RatioBelowOne(a: real, b: real)
    requires 0.0 <= a < b
    ensures 0.0 <= a / b < 1.0
  {
    var x := a / b;
    assert x * b == a;
    if x >= 1.0 {
      MulLeftMonotone(b, 1.0, x);
    }
    if x < 0.0 {
      MulLeftStrict(b, x, 0.0);
    }
  }

  /** `(a / b) * 100`: a share in percent. */
  function Percent(a: int, b: int): real
    requires b != 0
  {
    a as real / b as real * 100.0
  }

  /** `x / n`: a total spread over n. */
  function Ratio(x: real, n: int): real
    requires n != 0
  {
    x / n as real
  }

  /** `round((a / b) * 100, 1)` of a share is a percentage. */
  lemma PercentBounds(a: int, b: int)
    requires 0 <= a <= b && 0 < b
    ensures 0.0 <= Round1(Percent(a, b)) <= 100.0
  {
    RatioUnit(a, b);
    var rate := Percent(a, b);
    assert 0.0 <= rate <= 100.0;
    Round1Monotone(0.0, rate);
    Round1Monotone(rate, 100.0);
  }

  lemma Round1Zero()
    ensures Round1(0.0) == 0.0
  {
  }

  /** Python's `int(x)` on a float: truncation toward zero. */
  function Trunc(x: real): (r: int)
    ensures x >= 0.0 ==> 0 <= r && r as real <= x < r as real + 1.0
    ensures x < 0.0 ==> r <= 0 && r as real - 1.0 < x <= r as real
  {
    if x >= 0.0 then x.Floor else -((-x).Floor)
  }

  // ---------------------------------------------------------------- sorting

  ghost predicate SortedBy<T>(s: seq<T>, key: T -> real)
  {
    forall i, j :: 0 <= i < j < |s| ==> key(s[i]) <= key(s[j])
  }

  /** Inserts x before the first element whose key is not smaller. */
  function InsertBy<T>(x: T, s: seq<T>, key: T -> real): (r: seq<T>)
    ensures |r| == |s| + 1
    ensures multiset(r) == multiset(s) + multiset{x}
  {
    if |s| == 0 || key(x) <= key(s[0]) then [x] + s
    else
      assert s == [s[0]] + s[1..];
      [s[0]] + InsertBy(x, s[1..], key)
  }

  /** Python's `sorted(s, key=key)`: a stable insertion sort. */
  function SortBy<T>(s: seq<T>, key: T -> real): (r: seq<T>)
    ensures |r| == |s|
    ensures multiset(r) == multiset(s)
  {
    if |s| == 0 then []
    else
      assert s == [s[0]] + s[1..];
      InsertBy(s[0], SortBy(s[1..], key), key)
  }

  lemma {:induction false} InsertBySorted<T>(x: T, s: seq<T>, key: T -> real)
    requires SortedBy(s, key)
    ensures SortedBy(InsertBy(x, s, key), key)
    ensures |s| > 0 ==> key(InsertBy(x, s, key)[0]) == Min(key(x), key(s[0]))
    decreases |s|
  {
    if |s| > 0 && key(x) > key(s[0]) {
      InsertBySorted(x, s[1..], key);
      var t := InsertBy(x, s[1..], key);
      assert forall k :: 0 <= k < |t| ==> key(s[0]) <= key(t[k]) by {
        forall k | 0 <= k < |t| ensures key(s[0]) <= key(t[k]) {
          assert t[k] in multiset(t);
          assert t[k] in multiset(s[1..]) + multiset{x};
          if t[k] in multiset(s[1..]) {
            var m :| 1 <= m < |s| && s[m] == t[k] by {
              assert t[k] in s[1..];
            }
          }
        }
      }
    }
  }

  /** Sorting a list already in key order changes nothing. */
  lemma {:induction false} SortByIdentity<T>(s: seq<T>, key: T -> real)
    requires SortedBy(s, key)
    ensures SortBy(s, key) == s
    decreases |s|
  {
    if |s| > 0 {
      assert SortedBy(s[1..], key);
      SortByIdentity(s[1..], key);
      assert s == [s[0]] + s[1..];
    }
  }

  /** Sorting twice is sorting once. */
  lemma SortByTwice<T>(s: seq<T>, key: T -> real)
    ensures SortBy(SortBy(s, key), key) == SortBy(s, key)
  {
    SortBySorted(s, key);
    SortByIdentity(SortBy(s, key), key);
  }

  lemma {:induction false} SortBySorted<T>(s: seq<T>, key: T -> real)
    ensures SortedBy(SortBy(s, key), key)
    decreases |s|
  {
    if |s| > 0 {
      SortBySorted(s[1..], key);
      InsertBySorted(s[0], SortBy(s[1..], key), key);
    }
  }

  function Id(x: real): real { x }

  /** `sorted(xs)` of numbers. */
  function Sorted(xs: seq<real>): (r: seq<real>)
    ensures |r| == |xs| && multiset(r) == multiset(xs)
    ensures forall i, j :: 0 <= i < j < |r| ==> r[i] <= r[j]
  {
    SortBySorted(xs, Id);
    SortBy(xs, Id)
  }

  function IntKey(x: int): real { x as real }

  /** `sorted(xs)` of integers. */
  function SortedInts(xs: seq<int>): (r: seq<int>)
    ensures |r| == |xs| && multiset(r) == multiset(xs)
    ensures forall i, j :: 0 <= i < j < |r| ==> r[i] <= r[j]
  {
    SortBySorted(xs, IntKey);
    SortBy(xs, IntKey)
  }

  lemma ElementOfPermutation(a: seq<real>, b: seq<real>, k: nat)
    requires multiset(a) == multiset(b) && k < |a|
    ensures a[k] in b
  {
    assert a[k] in multiset(a);
  }

  /** `sorted(xs)[len(xs) // 2]`: the upper median, an element of xs between its min and max. */
  function UpperMedian(xs: seq<real>): (r: real)
    requires |xs| > 0
    ensures r in xs
    ensures MinOf(xs) <= r <= MaxOf(xs)
  {
    var s := Sorted(xs);
    ElementOfPermutation(s, xs, |xs| / 2);
    s[|xs| / 2]
  }

  /** pandas `Series.median()`: the middle element, or the mean of the two middle ones. */
  function PandasMedian(xs: seq<real>): (r: real)
    requires |xs| > 0
    ensures MinOf(xs) <= r <= MaxOf(xs)
  {
    var s := Sorted(xs);
    var n := |xs|;
    ElementOfPermutation(s, xs, n / 2);
    if n % 2 == 1 then s[n / 2]
    else
      ElementOfPermutation(s, xs, n / 2 - 1);
      (s[n / 2 - 1] + s[n / 2]) / 2.0
  }

  // --------------------------------------------------- distinct sorted days

  /** `sorted(set(days))`: strictly increasing, with exactly the same members. */
  function SortedDistinct(days: seq<int>): (r: seq<int>)
    ensures forall i, j :: 0 <= i < j < |r| ==> r[i] < r[j]
    ensures forall d :: d in r <==> d in days
    decreases |days|
  {
    if |days| == 0 then []
    else
      var m := MinInt(days);
      var rest := Without(days, m);
      [m] + SortedDistinct(rest)
  }

  function MinInt(xs: seq<int>): (r: int)
    requires |xs| > 0
    ensures r in xs && forall i :: 0 <= i < |xs| ==> r <= xs[i]
  {
    if |xs| == 1 then xs[0]
    else var m := MinInt(xs[..|xs| - 1]); if m <= xs[|xs| - 1] then m else xs[|xs| - 1]
  }

  function MaxInt(xs: seq<int>): (r: int)
    requires |xs| > 0
    ensures r in xs && forall i :: 0 <= i < |xs| ==> xs[i] <= r
  {
    if |xs| == 1 then xs[0]
    else var m := MaxInt(xs[..|xs| - 1]); if m >= xs[|xs| - 1] then m else xs[|xs| - 1]
  }

  /** The elements of xs that differ from v, in order. */
  function Without(xs: seq<int>, v: int): (r: seq<int>)
    ensures |r| <= |xs|
    ensures v in xs ==> |r| < |xs|
    ensures forall d :: d in r <==> d in xs && d != v
  {
    if |xs| == 0 then []
    else if xs[0] == v then Without(xs[1..], v)
    else [xs[0]] + Without(xs[1..], v)
  }

  predicate Distinct(xs: seq<int>)
  {
    forall i, j :: 0 <= i < j < |xs| ==> xs[i] != xs[j]
  }

  lemma {:induction false} WithoutDistinct(xs: seq<int>, v: int)
    requires Distinct(xs)
    ensures Distinct(Without(xs, v))
    ensures v in xs ==> |Without(xs, v)| == |xs| - 1
    ensures v !in xs ==> Without(xs, v) == xs
    decreases |xs|
  {
    if |xs| > 0 {
      assert Distinct(xs[1..]);
      WithoutDistinct(xs[1..], v);
      if xs[0] == v {
        assert v !in xs[1..];
      } else {
        assert xs[0] !in Without(xs[1..], v);
        assert xs == [xs[0]] + xs[1..];
      }
    }
  }

  /** Sorting a list without repeats keeps its length. */
  lemma {:induction false} SortedDistinctLength(xs: seq<int>)
    requires Distinct(xs)
    ensures |SortedDistinct(xs)| == |xs|
    decreases |xs|
  {
    if |xs| > 0 {
      var m := MinInt(xs);
      WithoutDistinct(xs, m);
      SortedDistinctLength(Without(xs, m));
    }
  }
}
