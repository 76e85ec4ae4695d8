/**
 * Exact-real stand-ins for the numpy reductions used by the statistics engine:
 * np.mean, the population variance behind np.std, and round(2).
 */
module Numeric {

  /** Sum of a sequence, folded from the left. */
  function Sum(xs: seq<real>): real
  {
    if xs == [] then 0.0 else Sum(xs[..|xs| - 1]) + xs[|xs| - 1]
  }

  /** np.mean of a non-empty sequence. */
  function Mean(xs: seq<real>): real
    requires |xs| > 0
  {
    Sum(xs) / |xs| as real
  }

  /** Sum of squared deviations from `m`. */
  function SquaredDeviations(xs: seq<real>, m: real): real
  {
    if xs == [] then 0.0
    else SquaredDeviations(xs[..|xs| - 1], m) + (xs[|xs| - 1] - m) * (xs[|xs| - 1] - m)
  }

  /** Population variance (divide by N); np.std is its square root. */
  function Variance(xs: seq<real>): real
    requires |xs| > 0
  {
    SquaredDeviations(xs, Mean(xs)) / |xs| as real
  }

  predicate AllWithin(xs: seq<real>, lo: real, hi: real)
  {
    forall i :: 0 <= i < |xs| ==> lo <= xs[i] <= hi
  }

  predicate AllEqual(xs: seq<real>, c: real)
  {
    forall i :: 0 <= i < |xs| ==> xs[i] == c
  }

  lemma {:induction false} SumBounds(xs: seq<real>, lo: real, hi: real)
    requires AllWithin(xs, lo, hi)
    ensures lo * |xs| as real <= Sum(xs) <= hi * |xs| as real
  {
    if xs != [] {
      var init := xs[..|xs| - 1];
      assert AllWithin(init, lo, hi) by {
        forall i | 0 <= i < |init| ensures lo <= init[i] <= hi { assert init[i] == xs[i]; }
      }
      SumBounds(init, lo, hi);
      assert lo * |xs| as real == lo * |init| as real + lo;
      assert hi * |xs| as real == hi * |init| as real + hi;
    }
  }

  /** The mean of values that all lie in [lo, hi] lies in [lo, hi]. */
  lemma MeanBounds(xs: seq<real>, lo: real, hi: real)
    requires |xs| > 0 && AllWithin(xs, lo, hi)
    ensures lo <= Mean(xs) <= hi
  {
    SumBounds(xs, lo, hi);
    var n := |xs| as real;
    assert lo * n / n == lo;
    assert hi * n / n == hi;
    DivMonotone(lo * n, Sum(xs), n);
    DivMonotone(Sum(xs), hi * n, n);
  }

  lemma DivMonotone(a: real, b: real, n: real)
    requires a <= b && n > 0.0
    ensures a / n <= b / n
  {
    assert b / n - a / n == (b - a) / n;
  }

  lemma {:induction false} SumOfConstant(xs: seq<real>, c: real)
    requires AllEqual(xs, c)
    ensures Sum(xs) == c * |xs| as real
  {
    if xs != [] {
      var init := xs[..|xs| - 1];
      assert AllEqual(init, c) by {
        forall i | 0 <= i < |init| ensures init[i] == c { assert init[i] == xs[i]; }
      }
      SumOfConstant(init, c);
    }
  }

  lemma {:induction false} SquaredDeviationsNonNegative(xs: seq<real>, m: real)
    ensures SquaredDeviations(xs, m) >= 0.0
  {
    if xs != [] {
      SquaredDeviationsNonNegative(xs[..|xs| - 1], m);
      var d := xs[|xs| - 1] - m;
      assert d * d >= 0.0;
    }
  }

  lemma ZeroProduct(x: real, y: real)
    requires x * y == 0.0
    ensures x == 0.0 || y == 0.0
  {
  }

  lemma {:induction false} SquaredDeviationsZero(xs: seq<real>, m: real)
    ensures SquaredDeviations(xs, m) == 0.0 <==> AllEqual(xs, m)
  {
    if xs != [] {
      var init := xs[..|xs| - 1];
      var d := xs[|xs| - 1] - m;
      SquaredDeviationsZero(init, m);
      SquaredDeviationsNonNegative(init, m);
      assert d * d >= 0.0;
      if AllEqual(xs, m) {
        assert AllEqual(init, m) by {
          forall i | 0 <= i < |init| ensures init[i] == m { assert init[i] == xs[i]; }
        }
        assert d == 0.0;
        assert d * d == 0.0 * 0.0;
        assert SquaredDeviations(xs, m) == SquaredDeviations(init, m) + d * d;
      }
      if SquaredDeviations(xs, m) == 0.0 {
        assert SquaredDeviations(xs, m) == SquaredDeviations(init, m) + d * d;
        assert d * d == 0.0;
        ZeroProduct(d, d);
        assert SquaredDeviations(init, m) == 0.0;
        forall i | 0 <= i < |xs| ensures xs[i] == m {
          if i < |init| { assert xs[i] == init[i]; }
        }
      }
    }
  }

  /** The population variance is never negative. */
  lemma VarianceNonNegative(xs: seq<real>)
    requires |xs| > 0
    ensures Variance(xs) >= 0.0
  {
    SquaredDeviationsNonNegative(xs, Mean(xs));
  }

  /** The population variance (and so the standard deviation) is zero exactly when all values are equal. */
  lemma VarianceZeroIff(xs: seq<real>)
    requires |xs| > 0
    ensures Variance(xs) == 0.0 <==> AllEqual(xs, xs[0])
  {
    var m := Mean(xs);
    SquaredDeviationsZero(xs, m);
    if AllEqual(xs, xs[0]) {
      SumOfConstant(xs, xs[0]);
      assert m == xs[0];
    }
    if Variance(xs) == 0.0 {
      assert SquaredDeviations(xs, m) == 0.0;
      assert AllEqual(xs, m);
    }
  }

  /** A sequence of one repeated value has that value as its mean and variance zero. */
  lemma ConstantSummary(xs: seq<real>, c: real)
    requires |xs| > 0 && AllEqual(xs, c)
    ensures Mean(xs) == c && Variance(xs) == 0.0
  {
    SumOfConstant(xs, c);
    VarianceZeroIff(xs);
  }

  /** Round half to even to the nearest integer, as numpy's rint does. */
  function RoundHalfEven(y: real): (k: int)
    ensures (k as real - y) <= 0.5 && (y - k as real) <= 0.5
    ensures y.Floor <= k <= y.Floor + 1
  {
    var f := y.Floor;
    var d := y - f as real;
    if d < 0.5 then f
    else if d > 0.5 then f + 1
    else if f % 2 == 0 then f else f + 1
  }

  /** round(2): the nearest multiple of 0.01, ties to the even multiple. */
  function Round2(x: real): (r: real)
    ensures -0.005 <= r - x <= 0.005
  {
    RoundHalfEven(x * 100.0) as real / 100.0
  }

  /** Rounding to two decimals keeps a value inside any band whose ends are whole numbers. */
  lemma Round2Within(x: real, lo: int, hi: int)
    requires lo as real <= x <= hi as real
    ensures lo as real <= Round2(x) <= hi as real
  {
    var y := x * 100.0;
    var k := RoundHalfEven(y);
    assert 100 * lo <= y.Floor;
    if y.Floor == 100 * hi { assert y == (100 * hi) as real; assert k == 100 * hi; }
    assert 100 * lo <= k <= 100 * hi;
  }
}
