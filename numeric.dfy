/** Exact-real arithmetic behind the statistics: sums and means (NaN for an empty input becomes
 *  None), Python's round-half-even `round(x, d)`, the standard deviation over uninterpreted
 *  variance and square-root functions, and the closed-form least-squares slope that replaces `np.polyfit(x, y, 1)[0]`. */
module Numeric {
  import opened Wrappers

  function Abs(x: real): real { if x < 0.0 then -x else x }
  function MinR(a: real, b: real): real { if a <= b then a else b }
  function MaxR(a: real, b: real): real { if a >= b then a else b }

  function Sum(xs: seq<real>): real
  {
    if xs == [] then 0.0 else Sum(xs[..|xs| - 1]) + xs[|xs| - 1]
  }

  lemma {:induction false} SumAppend(xs: seq<real>, ys: seq<real>)
    ensures Sum(xs + ys) == Sum(xs) + Sum(ys)
    decreases |ys|
  {
    if ys == [] {
      assert xs + ys == xs;
    } else {
      assert (xs + ys)[..|xs + ys| - 1] == xs + ys[..|ys| - 1];
      assert (xs + ys)[|xs + ys| - 1] == ys[|ys| - 1];
      SumAppend(xs, ys[..|ys| - 1]);
    }
  }

  /** Sum of one-element-per-step contributions with every term in [lo, hi]. */
  lemma {:induction false} SumBounds(xs: seq<real>, lo: real, hi: real)
    requires forall i :: 0 <= i < |xs| ==> lo <= xs[i] <= hi
    ensures |xs| as real * lo <= Sum(xs) <= |xs| as real * hi
  {
    if xs != [] {
      SumBounds(xs[..|xs| - 1], lo, hi);
    }
  }

  /** The mean of a non-empty sample. */
  function MeanOf(xs: seq<real>): real
    requires |xs| > 0
  {
    Sum(xs) / |xs| as real
  }

  /** `Series.mean()`: None (NaN) for an empty sample. */
  function Mean(xs: seq<real>): (r: Option<real>)
    ensures r.Some? <==> |xs| > 0
  {
    if |xs| == 0 then None else Some(MeanOf(xs))
  }

  /** A mean lies between the smallest and the largest bound of its values. */
  lemma MeanWithin(xs: seq<real>, lo: real, hi: real)
    requires |xs| > 0
    requires forall i :: 0 <= i < |xs| ==> lo <= xs[i] <= hi
    ensures lo <= MeanOf(xs) <= hi
  {
    SumBounds(xs, lo, hi);
    var n := |xs| as real;
    assert n * lo <= Sum(xs) <= n * hi;
    assert lo == (n * lo) / n && hi == (n * hi) / n;
  }

  function Pow10(d: nat): (r: nat)
    ensures r >= 1
  {
    if d == 0 then 1 else 10 * Pow10(d - 1)
  }

  /** Round half to even to an integer (Python's `round(x)`), on exact reals. */
  function RoundHalfEven(x: real): (r: int)
    ensures x - 0.5 <= r as real <= x + 0.5
  {
    var f := x.Floor;
    var frac := x - f as real;
    if frac < 0.5 then f
    else if frac > 0.5 then f + 1
    else if f % 2 == 0 then f else f + 1
  }

  lemma RoundHalfEvenOfInt(n: int)
    ensures RoundHalfEven(n as real) == n
  {
  }

  lemma RoundHalfEvenMonotone(x: real, y: real)
    requires x <= y
    ensures RoundHalfEven(x) <= RoundHalfEven(y)
  {
    var fx, fy := x.Floor, y.Floor;
    assert fx <= fy;
    if fx == fy {
    } else {
      assert fx + 1 <= fy;
    }
  }

  /** `x` shifted `d` decimal places to the left. */
  function Scale(x: real, d: nat): real { x * Pow10(d) as real }

  /** `round(x, d)`: round half to even at `d` decimal places, on exact reals. */
  function Round(x: real, d: nat): real
  {
    RoundHalfEven(Scale(x, d)) as real / Pow10(d) as real
  }
  lemma RealOfProduct(a: int, b: int)
    ensures (a * b) as real == a as real * b as real
  {
  }
  lemma MulMonotone(a: real, b: real, p: real)
    requires p >= 0.0 && a <= b
    ensures a * p <= b * p
  {
  }
  lemma DivWithin(a: real, lo: real, hi: real, p: real)
    requires p > 0.0 && lo * p <= a <= hi * p
    ensures lo <= a / p <= hi
  {
    assert a / p - lo == (a - lo * p) / p;
    assert hi - a / p == (hi * p - a) / p;
  }
  lemma ScaledDown(n: int, p: nat, lo: int, hi: int)
    requires p >= 1 && lo * p <= n <= hi * p
    ensures lo as real <= n as real / p as real <= hi as real
  {
    RealOfProduct(lo, p);
    RealOfProduct(hi, p);
    DivWithin(n as real, lo as real, hi as real, p as real);
  }
  lemma ScaledUp(x: real, p: nat, lo: int, hi: int)
    requires lo as real <= x <= hi as real
    ensures (lo * p) as real <= x * p as real <= (hi * p) as real
  {
    RealOfProduct(lo, p);
    RealOfProduct(hi, p);
    MulMonotone(lo as real, x, p as real);
    MulMonotone(x, hi as real, p as real);
  }
  /** Rounding keeps any interval whose ends are integers, such as [0, 100]. */
  lemma RoundWithin(x: real, d: nat, lo: int, hi: int)
    requires lo as real <= x <= hi as real
    ensures lo as real <= Round(x, d) <= hi as real
  {
    var p := Pow10(d);
    var lp, hp := lo * p, hi * p;
    ScaledUp(x, p, lo, hi);
    var y := Scale(x, d);
    assert lp as real <= y <= hp as real;
    RoundHalfEvenMonotone(lp as real, y);
    RoundHalfEvenMonotone(y, hp as real);
    RoundHalfEvenOfInt(lp);
    RoundHalfEvenOfInt(hp);
    var n := RoundHalfEven(y);
    ScaledDown(n, p, lo, hi);
  }

  /** Rounding is monotone. */
  lemma RoundMonotone(x: real, y: real, d: nat)
    requires x <= y
    ensures Round(x, d) <= Round(y, d)
  {
    var p := Pow10(d) as real;
    MulMonotone(x, y, p);
    RoundHalfEvenMonotone(Scale(x, d), Scale(y, d));
    DivMonotone(RoundHalfEven(Scale(x, d)) as real, RoundHalfEven(Scale(y, d)) as real, p);
  }

  lemma DivMonotone(a: real, b: real, p: real)
    requires p > 0.0 && a <= b
    ensures a / p <= b / p
  {
    assert b / p - a / p == (b - a) / p;
  }

  /** All values equal to one of them. */
  predicate Constant(xs: seq<real>)
  {
    forall i :: 0 <= i < |xs| ==> xs[i] == xs[0]
  }

  lemma {:induction false} SumConstant(xs: seq<real>, c: real)
    requires forall i :: 0 <= i < |xs| ==> xs[i] == c
    ensures Sum(xs) == |xs| as real * c
  {
    if xs != [] {
      SumConstant(xs[..|xs| - 1], c);
    }
  }

  /** The sample variance (`ddof=1`) and the square root, left uninterpreted: only their
   *  signs are fixed, which is all the thresholds of the engines depend on. */
  datatype Dispersion = Dispersion(variance: seq<real> -> real, sqrt: real -> real)

  ghost predicate Lawful(disp: Dispersion)
  {
    && (forall xs :: |xs| >= 2 ==> disp.variance(xs) >= 0.0 && (disp.variance(xs) == 0.0 <==> Constant(xs)))
    && (forall x :: x >= 0.0 ==> disp.sqrt(x) >= 0.0 && (disp.sqrt(x) == 0.0 <==> x == 0.0))
  }

  /** `Series.std()` (`ddof=1`): None (NaN) for fewer than two values. */
  function SampleStd(xs: seq<real>, disp: Dispersion): (r: Option<real>)
    requires Lawful(disp)
    ensures r.Some? <==> |xs| >= 2
    ensures r.Some? ==> r.value >= 0.0 && (r.value > 0.0 <==> !Constant(xs))
  {
    if |xs| < 2 then None else Some(disp.sqrt(disp.variance(xs)))
  }

  /** Sum of `f(i) * ys[i]` terms of the least-squares slope, with x = 0..n-1 centred on `xm`. */
  function CrossDeviations(ys: seq<real>, xm: real, ym: real): real
  {
    if ys == [] then 0.0
    else CrossDeviations(ys[..|ys| - 1], xm, ym) + ((|ys| - 1) as real - xm) * (ys[|ys| - 1] - ym)
  }

  function IndexDeviations(n: nat, xm: real): real
  {
    if n == 0 then 0.0
    else
      IndexDeviations(n - 1, xm) + ((n - 1) as real - xm) * ((n - 1) as real - xm)
  }

  /** The least-squares slope of `ys` against x = 0, 1, …, n-1 (`np.polyfit(range(n), ys, 1)[0]`). */
  function Slope(ys: seq<real>): real
    requires |ys| >= 2
  {
    var xm := (|ys| - 1) as real / 2.0;
    var denom := IndexDeviations(|ys|, xm);
    if denom == 0.0 then 0.0 else CrossDeviations(ys, xm, MeanOf(ys)) / denom
  }

  lemma {:induction false} CrossDeviationsConstant(ys: seq<real>, xm: real, c: real)
    requires forall i :: 0 <= i < |ys| ==> ys[i] == c
    ensures CrossDeviations(ys, xm, c) == 0.0
  {
    if ys != [] {
      CrossDeviationsConstant(ys[..|ys| - 1], xm, c);
    }
  }

  /** A flat series has slope 0. */
  lemma SlopeOfConstant(ys: seq<real>)
    requires |ys| >= 2 && Constant(ys)
    ensures Slope(ys) == 0.0
  {
    SumConstant(ys, ys[0]);
    assert MeanOf(ys) == ys[0];
    CrossDeviationsConstant(ys, (|ys| - 1) as real / 2.0, ys[0]);
  }

  /** With two points the slope is their difference. */
  lemma SlopeOfTwo(a: real, b: real)
    ensures Slope([a, b]) == b - a
  {
    var ys := [a, b];
    assert ys[..1] == [a] && ys[..1][..0] == [];
    assert Sum(ys[..1]) == a by { assert ys[..1][..0] == []; }
    assert Sum(ys) == a + b;
    var m := (a + b) / 2.0;
    assert MeanOf(ys) == m;
    assert IndexDeviations(2, 0.5) == 0.5;
    assert CrossDeviations([a], 0.5, m) == -0.5 * (a - m);
    assert CrossDeviations(ys, 0.5, m) == -0.5 * (a - m) + 0.5 * (b - m);
  }
}
