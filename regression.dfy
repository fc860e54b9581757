/**
 * Ordinary least squares as scipy.stats.linregress computes it, written in its
 * closed form over exact reals: the slope is Sxy/Sxx over the centred samples
 * and the intercept makes the line pass through the means.
 */
module Regression {
  import opened Sums
  import opened Outcomes

  /** The samples minus their mean. */
  function Dev(s: seq<real>): seq<real>
    requires |s| > 0
  {
    Affine(s, 1.0, -Mean(s))
  }

  /** Centred cross product sum, n times the biased covariance. */
  function Sxy(xs: seq<real>, ys: seq<real>): real
    requires |xs| == |ys| > 0
  {
    Dot(Dev(xs), Dev(ys))
  }

  /** Centred sum of squares. */
  function Sxx(xs: seq<real>): real
    requires |xs| > 0
  {
    Dot(Dev(xs), Dev(xs))
  }

  /** Inputs on which linregress returns a finite line. */
  predicate Regressable(xs: seq<real>, ys: seq<real>)
  {
    |xs| >= 2 && |xs| == |ys| && !AllIdentical(xs)
  }

  /** The part of linregress's result the calibration uses: slope, intercept and r squared. */
  datatype Fit = Fit(slope: real, intercept: real, rSquared: real)

  /** Residuals of the line v |-> a*v + b. */
  function Residuals(xs: seq<real>, ys: seq<real>, a: real, b: real): seq<real>
    requires |xs| == |ys|
  {
    Sub(ys, Affine(xs, a, b))
  }

  /** Sum of squared residuals of the line v |-> a*v + b. */
  function SSE(xs: seq<real>, ys: seq<real>, a: real, b: real): real
    requires |xs| == |ys|
  {
    Dot(Residuals(xs, ys, a, b), Residuals(xs, ys, a, b))
  }

  /**
   * scipy.stats.linregress(x, y), in the order in which it rejects its input:
   * empty input, all-identical x (more than one sample), then the covariance of
   * arrays of different lengths.  One sample gives scipy a NaN slope (0/0); here
   * that is the error SingleSample.  r is 0 when either centred sum of squares is
   * 0, and r squared otherwise is Sxy^2/(Sxx*Syy).
   */
  function LinRegress(xs: seq<real>, ys: seq<real>): (r: Result<Fit>)
    ensures r.Ok? <==> Regressable(xs, ys)
  {
    if |xs| == 0 || |ys| == 0 then Err(EmptyInput)
    else if |xs| > 1 && AllIdentical(xs) then Err(IdenticalX)
    else if |xs| != |ys| then Err(LengthMismatch)
    else if |xs| == 1 then Err(SingleSample)
    else Ok(Fit(Slope(xs, ys), Intercept(xs, ys), RSquared(xs, ys)))
  }

  /** linregress's slope, Sxy/Sxx: the solution of slope*Sxx == Sxy. */
  function Slope(xs: seq<real>, ys: seq<real>): (r: real)
    requires |xs| == |ys| > 0 && !AllIdentical(xs)
    ensures Sxx(xs) > 0.0 && r * Sxx(xs) == Sxy(xs, ys)
  {
    SxxPositive(xs);
    Sxy(xs, ys) / Sxx(xs)
  }

  /** linregress's intercept, which puts the point of means on the line. */
  function Intercept(xs: seq<real>, ys: seq<real>): (r: real)
    requires |xs| == |ys| > 0 && !AllIdentical(xs)
    ensures Slope(xs, ys) * Mean(xs) + r == Mean(ys)
  {
    Mean(ys) - Slope(xs, ys) * Mean(xs)
  }

  /**
   * The square of linregress's r value: 0 for constant y, else
   * Sxy^2/(Sxx*Syy), written as (Sxy/Sxx)*(Sxy/Syy).
   */
  function RSquared(xs: seq<real>, ys: seq<real>): real
    requires |xs| == |ys| > 0 && !AllIdentical(xs)
  {
    if Sxx(ys) == 0.0 then 0.0 else Slope(xs, ys) * (Sxy(xs, ys) / Sxx(ys))
  }

  lemma {:induction false} SumDev(s: seq<real>)
    requires |s| > 0
    ensures Sum(Dev(s)) == 0.0
  {
    var n := |s| as real;
    SumAffine(s, 1.0, -Mean(s));
    assert Mean(s) * n == Sum(s);
  }

  /** The centred samples are all zero exactly when all samples are identical. */
  lemma {:induction false} DevZeroIffIdentical(s: seq<real>)
    requires |s| > 0
    ensures (forall i :: 0 <= i < |s| ==> Dev(s)[i] == 0.0) <==> AllIdentical(s)
  {
    var d := Dev(s);
    if AllIdentical(s) {
      SumConstant(s, s[0]);
      assert Mean(s) == s[0];
    } else {
      var i :| 0 <= i < |s| && s[i] != s[0];
      assert d[i] - d[0] == s[i] - s[0];
    }
  }

  /** Sxx is zero for identical samples and positive otherwise. */
  lemma {:induction false} SxxPositive(xs: seq<real>)
    requires |xs| > 0
    ensures Sxx(xs) >= 0.0
    ensures Sxx(xs) == 0.0 <==> AllIdentical(xs)
  {
    var d := Dev(xs);
    DotSelfNonNegative(d);
    DevZeroIffIdentical(xs);
    if Sxx(xs) == 0.0 {
      DotSelfZero(d);
    } else if AllIdentical(xs) {
      DotSelfZeroIfAllZero(d);
    }
  }

  /** The residuals of the fitted line are the centred y minus slope times the centred x. */
  lemma {:induction false} FitResidualsCentred(xs: seq<real>, ys: seq<real>)
    requires Regressable(xs, ys)
    ensures Residuals(xs, ys, Slope(xs, ys), Intercept(xs, ys)) ==
      Sub(Dev(ys), Affine(Dev(xs), Slope(xs, ys), 0.0))
  {
    ResidualsThroughMeans(xs, ys, Slope(xs, ys), Intercept(xs, ys));
  }

  /** Residuals of any line through the point of means, on the centred samples. */
  lemma {:induction false} ResidualsThroughMeans(xs: seq<real>, ys: seq<real>, s: real, b: real)
    requires |xs| == |ys| > 0 && s * Mean(xs) + b == Mean(ys)
    ensures Residuals(xs, ys, s, b) == Sub(Dev(ys), Affine(Dev(xs), s, 0.0))
  {
    forall i | 0 <= i < |xs| ensures Residuals(xs, ys, s, b)[i] == Sub(Dev(ys), Affine(Dev(xs), s, 0.0))[i] {
      CentredResidual(ys[i], xs[i], s, Mean(xs), Mean(ys), b, Dev(ys)[i], Dev(xs)[i]);
    }
  }

  /** One residual of the line through the means, written on the centred values dy and dx. */
  lemma CentredResidual(y: real, x: real, s: real, mx: real, my: real, b: real, dy: real, dx: real)
    requires s * mx + b == my && dy == 1.0 * y + -my && dx == 1.0 * x + -mx
    ensures y - (s * x + b) == dy - (s * dx + 0.0)
  {
    assert s * dx == s * x - s * mx;
  }

  /** Residuals of a line through the origin of centred data whose slope solves s*Sxx == Sxy. */
  lemma {:induction false} CentredNormalEquations(dx: seq<real>, dy: seq<real>, s: real)
    requires |dx| == |dy| && Sum(dx) == 0.0 && Sum(dy) == 0.0
    requires s * Dot(dx, dx) == Dot(dx, dy)
    ensures Sum(Sub(dy, Affine(dx, s, 0.0))) == 0.0
    ensures Dot(dx, Sub(dy, Affine(dx, s, 0.0))) == 0.0
  {
    SumSub(dy, Affine(dx, s, 0.0));
    SumAffine(dx, s, 0.0);
    DotSubRight(dx, dy, Affine(dx, s, 0.0));
    DotAffineRight(dx, dx, s, 0.0);
  }

  /** A sequence orthogonal to u and summing to zero is orthogonal to every affine image of u. */
  lemma {:induction false} OrthogonalToAffine(u: seq<real>, r: seq<real>, k: real, c: real)
    requires |u| == |r| && Sum(r) == 0.0 && Dot(u, r) == 0.0
    ensures Dot(Affine(u, k, c), r) == 0.0
  {
    DotSymmetric(Affine(u, k, c), r);
    DotAffineRight(r, u, k, c);
    DotSymmetric(r, u);
  }

  /** Pythagoras for a sequence orthogonal to every affine image of u. */
  lemma {:induction false} PythagorasAffine(u: seq<real>, r: seq<real>, k: real, c: real)
    requires |u| == |r| && Sum(r) == 0.0 && Dot(u, r) == 0.0
    ensures Dot(Sub(r, Affine(u, k, c)), Sub(r, Affine(u, k, c))) == Dot(r, r) + Dot(Affine(u, k, c), Affine(u, k, c))
  {
    var g := Affine(u, k, c);
    SubSquared(r, g);
    OrthogonalToAffine(u, r, k, c);
    DotSymmetric(r, g);
  }

  /** Undoing the centring. */
  lemma {:induction false} DevShift(s: seq<real>)
    requires |s| > 0
    ensures s == Affine(Dev(s), 1.0, Mean(s))
  {
  }

  /**
   * The normal equations of least squares: the residuals of the fitted line sum
   * to zero and are orthogonal to the x samples.
   */
  lemma {:induction false} NormalEquations(xs: seq<real>, ys: seq<real>)
    requires Regressable(xs, ys)
    ensures var f := LinRegress(xs, ys).value;
      var r := Residuals(xs, ys, f.slope, f.intercept);
      Sum(r) == 0.0 && Dot(xs, r) == 0.0
  {
    var f := LinRegress(xs, ys).value;
    var r := Residuals(xs, ys, f.slope, f.intercept);
    var dx, dy := Dev(xs), Dev(ys);
    FitResidualsCentred(xs, ys);
    SumDev(xs);
    SumDev(ys);
    CentredNormalEquations(dx, dy, f.slope);
    DevShift(xs);
    OrthogonalToAffine(dx, r, 1.0, Mean(xs));
  }

  /**
   * For a line (s, c) whose residuals satisfy the normal equations, the squared
   * error of any other line (a, b) is the squared error of (s, c) plus the squared
   * gap g between the two lines.
   */
  lemma {:induction false} SSEDecomposition(xs: seq<real>, ys: seq<real>, s: real, c: real, a: real, b: real, g: seq<real>)
    requires |xs| == |ys| && g == Affine(xs, a - s, b - c)
    requires Sum(Residuals(xs, ys, s, c)) == 0.0 && Dot(xs, Residuals(xs, ys, s, c)) == 0.0
    ensures SSE(xs, ys, a, b) == SSE(xs, ys, s, c) + Dot(g, g)
  {
    var r := Residuals(xs, ys, s, c);
    ResidualsSplit(xs, ys, s, c, a, b);
    assert SSE(xs, ys, a, b) == Dot(Sub(r, g), Sub(r, g));
    PythagorasAffine(xs, r, a - s, b - c);
  }

  /** The residuals of (a, b) are those of (s, c) minus the gap between the lines. */
  lemma {:induction false} ResidualsSplit(xs: seq<real>, ys: seq<real>, s: real, c: real, a: real, b: real)
    requires |xs| == |ys|
    ensures Residuals(xs, ys, a, b) == Sub(Residuals(xs, ys, s, c), Affine(xs, a - s, b - c))
  {
    var r, g := Residuals(xs, ys, s, c), Affine(xs, a - s, b - c);
    var e := Residuals(xs, ys, a, b);
    forall i | 0 <= i < |xs| ensures e[i] == Sub(r, g)[i] {
      assert e[i] == ys[i] - (a * xs[i] + b);
      assert Sub(r, g)[i] == (ys[i] - (s * xs[i] + c)) - ((a - s) * xs[i] + (b - c));
    }
  }

  /** How far the line v |-> a*v + b is from the fitted one, voxel by voxel. */
  function Gap(xs: seq<real>, ys: seq<real>, a: real, b: real): seq<real>
    requires Regressable(xs, ys)
  {
    var f := LinRegress(xs, ys).value;
    Affine(xs, a - f.slope, b - f.intercept)
  }

  /**
   * Least squares: the squared error of any line is the fitted line's squared
   * error plus the squared gap between the two lines, so no line does better.
   */
  lemma {:induction false} LeastSquares(xs: seq<real>, ys: seq<real>, a: real, b: real)
    requires Regressable(xs, ys)
    ensures var f := LinRegress(xs, ys).value; var g := Gap(xs, ys, a, b);
      SSE(xs, ys, a, b) == SSE(xs, ys, f.slope, f.intercept) + Dot(g, g)
    ensures var f := LinRegress(xs, ys).value;
      SSE(xs, ys, a, b) >= SSE(xs, ys, f.slope, f.intercept)
  {
    var f := LinRegress(xs, ys).value;
    NormalEquations(xs, ys);
    SSEDecomposition(xs, ys, f.slope, f.intercept, a, b, Gap(xs, ys, a, b));
    DotSelfNonNegative(Gap(xs, ys, a, b));
  }

  /** The fitted line is the only line with the least squared error. */
  lemma {:induction false} LeastSquaresUnique(xs: seq<real>, ys: seq<real>, a: real, b: real)
    requires Regressable(xs, ys)
    requires var f := LinRegress(xs, ys).value;
      SSE(xs, ys, a, b) <= SSE(xs, ys, f.slope, f.intercept)
    ensures LinRegress(xs, ys).value.slope == a && LinRegress(xs, ys).value.intercept == b
  {
    var f := LinRegress(xs, ys).value;
    var g := Gap(xs, ys, a, b);
    LeastSquares(xs, ys, a, b);
    DotSelfZero(g);
    LineZeroAtTwoPoints(xs, a - f.slope, b - f.intercept);
  }

  /** A line that vanishes at two distinct abscissae is the zero line. */
  lemma {:induction false} LineZeroAtTwoPoints(xs: seq<real>, k: real, c: real)
    requires !AllIdentical(xs)
    requires forall i :: 0 <= i < |xs| ==> Affine(xs, k, c)[i] == 0.0
    ensures k == 0.0 && c == 0.0
  {
    var i :| 0 <= i < |xs| && xs[i] != xs[0];
    assert Affine(xs, k, c)[i] == 0.0 && Affine(xs, k, c)[0] == 0.0;
    assert k * xs[i] + c == 0.0 && k * xs[0] + c == 0.0;
    assert k * (xs[i] - xs[0]) == 0.0;
    ProductZero(k, xs[i] - xs[0]);
  }

  /** A line through data that lies exactly on v |-> a*v + b is that line. */
  lemma {:induction false} ExactFit(xs: seq<real>, ys: seq<real>, a: real, b: real)
    requires Regressable(xs, ys) && ys == Affine(xs, a, b)
    ensures LinRegress(xs, ys).value.slope == a && LinRegress(xs, ys).value.intercept == b
  {
    var f := LinRegress(xs, ys).value;
    var e := Residuals(xs, ys, a, b);
    assert forall i :: 0 <= i < |e| ==> e[i] == 0.0;
    DotSelfZeroIfAllZero(e);
    DotSelfNonNegative(Residuals(xs, ys, f.slope, f.intercept));
    LeastSquaresUnique(xs, ys, a, b);
  }

  /** Squared error of the centred line through the origin with s*Sxx == Sxy. */
  lemma {:induction false} CentredSSE(dx: seq<real>, dy: seq<real>, s: real, g: seq<real>)
    requires |dx| == |dy| && s * Dot(dx, dx) == Dot(dx, dy) && g == Affine(dx, s, 0.0)
    ensures Dot(Sub(dy, g), Sub(dy, g)) == Dot(dy, dy) - s * Dot(dx, dy)
  {
    SubSquared(dy, g);
    assert Dot(dy, g) == s * Dot(dx, dy) by {
      DotScaledSwap(dy, dx, s);
    }
    ScaledSelfCross(dx, dy, s);
    CrossCancels(Dot(Sub(dy, g), Sub(dy, g)), Dot(dy, dy), Dot(dy, g), Dot(g, g), s * Dot(dx, dy));
  }

  /** With s*Sxx == Sxy, the scaled centred x has squared norm s*Sxy. */
  lemma {:induction false} ScaledSelfCross(dx: seq<real>, dy: seq<real>, s: real)
    requires |dx| == |dy| && s * Dot(dx, dx) == Dot(dx, dy)
    ensures Dot(Affine(dx, s, 0.0), Affine(dx, s, 0.0)) == s * Dot(dx, dy)
  {
    DotScaledSwap(Affine(dx, s, 0.0), dx, s);
    DotScaledSwap(dx, dx, s);
    MulEqual(s, Dot(dx, Affine(dx, s, 0.0)), Dot(dx, dy));
  }

  /** The linear core of CentredSSE: e = a - 2c + c is a - c. */
  lemma CrossCancels(e: real, a: real, b: real, c: real, cross: real)
    requires e == a - 2.0 * b + c && b == cross && c == cross
    ensures e == a - cross
  {
  }

  /** The fitted line leaves the squared error Syy - slope*Sxy. */
  lemma {:induction false} FitSSE(xs: seq<real>, ys: seq<real>)
    requires Regressable(xs, ys)
    ensures SSE(xs, ys, Slope(xs, ys), Intercept(xs, ys)) == Sxx(ys) - Slope(xs, ys) * Sxy(xs, ys)
  {
    BalancedLineSSE(xs, ys, Slope(xs, ys), Intercept(xs, ys));
  }

  /**
   * A line through the point of means whose slope solves s*Sxx == Sxy leaves
   * the squared error Syy - s*Sxy.
   */
  lemma {:induction false} BalancedLineSSE(xs: seq<real>, ys: seq<real>, s: real, b: real)
    requires |xs| == |ys| > 0 && s * Mean(xs) + b == Mean(ys) && s * Sxx(xs) == Sxy(xs, ys)
    ensures SSE(xs, ys, s, b) == Sxx(ys) - s * Sxy(xs, ys)
  {
    ResidualsThroughMeans(xs, ys, s, b);
    CentredSSE(Dev(xs), Dev(ys), s, Affine(Dev(xs), s, 0.0));
  }

  /** The horizontal line through the mean of y leaves the squared error Syy. */
  lemma {:induction false} MeanLineSSE(xs: seq<real>, ys: seq<real>)
    requires |xs| == |ys| > 0
    ensures SSE(xs, ys, 0.0, Mean(ys)) == Sxx(ys)
  {
    var e := Residuals(xs, ys, 0.0, Mean(ys));
    forall i | 0 <= i < |ys| ensures e[i] == Dev(ys)[i] {
      assert e[i] == ys[i] - (0.0 * xs[i] + Mean(ys));
    }
    assert e == Dev(ys);
  }

  /**
   * r squared is the share of the y variation the line explains,
   * 1 - SSE/Syy, and it lies in [0, 1].
   * For constant y, scipy sets r to 0.
   */
  lemma {:induction false} RSquaredExplained(xs: seq<real>, ys: seq<real>)
    requires Regressable(xs, ys)
    ensures var f := LinRegress(xs, ys).value;
      0.0 <= f.rSquared <= 1.0 &&
      (Sxx(ys) != 0.0 ==> f.rSquared == 1.0 - SSE(xs, ys, f.slope, f.intercept) / Sxx(ys)) &&
      (Sxx(ys) == 0.0 ==> f.rSquared == 0.0)
  {
    assert LinRegress(xs, ys).value == Fit(Slope(xs, ys), Intercept(xs, ys), RSquared(xs, ys));
    SxxPositive(ys);
    if Sxx(ys) != 0.0 {
      FitShare(xs, ys);
      FitShareBounded(xs, ys);
    }
  }

  /** RSquaredExplained for y that is not constant, on the fitted line's parts. */
  lemma {:induction false} FitShare(xs: seq<real>, ys: seq<real>)
    requires Regressable(xs, ys) && Sxx(ys) != 0.0
    ensures RSquared(xs, ys) == 1.0 - SSE(xs, ys, Slope(xs, ys), Intercept(xs, ys)) / Sxx(ys)
  {
    FitSSEBounded(xs, ys);
    FitSSE(xs, ys);
    assert RSquared(xs, ys) == Slope(xs, ys) * (Sxy(xs, ys) / Sxx(ys));
    ExplainedShare(RSquared(xs, ys), Slope(xs, ys), Sxy(xs, ys), Sxx(ys),
      SSE(xs, ys, Slope(xs, ys), Intercept(xs, ys)));
  }

  /** r squared of a fit to y that is not constant lies in [0, 1]. */
  lemma {:induction false} FitShareBounded(xs: seq<real>, ys: seq<real>)
    requires Regressable(xs, ys) && Sxx(ys) != 0.0
    ensures 0.0 <= RSquared(xs, ys) <= 1.0
  {
    FitSSEBounded(xs, ys);
    FitSSE(xs, ys);
    assert RSquared(xs, ys) == Slope(xs, ys) * (Sxy(xs, ys) / Sxx(ys));
    ExplainedShare(RSquared(xs, ys), Slope(xs, ys), Sxy(xs, ys), Sxx(ys),
      SSE(xs, ys, Slope(xs, ys), Intercept(xs, ys)));
  }

  /** The fitted line's squared error lies between 0 and that of the mean line, Syy. */
  lemma {:induction false} FitSSEBounded(xs: seq<real>, ys: seq<real>)
    requires Regressable(xs, ys)
    ensures 0.0 <= SSE(xs, ys, Slope(xs, ys), Intercept(xs, ys)) <= Sxx(ys)
  {
    DotSelfNonNegative(Residuals(xs, ys, Slope(xs, ys), Intercept(xs, ys)));
    LeastSquares(xs, ys, 0.0, Mean(ys));
    MeanLineSSE(xs, ys);
  }

  /** The real-number core of RSquaredExplained. */
  lemma ExplainedShare(r2: real, s: real, sxy: real, syy: real, sse: real)
    requires syy != 0.0 && 0.0 <= sse <= syy && sse == syy - s * sxy && r2 == s * (sxy / syy)
    ensures r2 == 1.0 - sse / syy && 0.0 <= r2 <= 1.0
  {
    assert syy > 0.0;
    QuotientIdentity(s, sxy, syy);
    OneMinusQuotient(syy, s * sxy);
    QuotientUnit(sse, syy);
  }

  lemma QuotientIdentity(p: real, q: real, y: real)
    requires y != 0.0
    ensures p * (q / y) == (p * q) / y
  {
  }

  lemma OneMinusQuotient(y: real, q: real)
    requires y != 0.0
    ensures 1.0 - (y - q) / y == q / y
  {
    assert (y - q) / y == y / y - q / y;
    assert y / y == 1.0;
  }

  lemma QuotientUnit(a: real, b: real)
    requires 0.0 <= a <= b && b > 0.0
    ensures 0.0 <= a / b <= 1.0
  {
  }
}
