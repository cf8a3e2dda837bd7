/** The interactive linear-regression demo: the session's two parallel lists
    of coordinates, and the ordinary-least-squares fit computed from them
    (population formulas, with the two degenerate-case policies of the page:
    slope 0 when every x is the same, R² = 1 when every y is the same). */
module Regression {
  import opened Numbers

  /** The fit the page displays; `computeRegression` returns null instead below two points. */
  datatype Fit = Fit(slope: real, intercept: real, mse: real, r2: real)

  /** Arithmetic mean. */
  function Mean(s: seq<real>): real
    requires |s| > 0
  {
    Sum(s) / |s| as real
  }

  /** The elementwise products u[i]·v[i]. */
  function Products(u: seq<real>, v: seq<real>): (p: seq<real>)
    requires |u| == |v|
    ensures |p| == |u|
    ensures forall i :: 0 <= i < |u| ==> p[i] == u[i] * v[i]
  {
    seq(|u|, i requires 0 <= i < |u| => u[i] * v[i])
  }

  /** Σ u[i]·v[i], accumulated from the left. */
  function Dot(u: seq<real>, v: seq<real>): real
    requires |u| == |v|
  {
    Sum(Products(u, v))
  }

  /** The deviations s[i] - m from a centre m. */
  function Deviations(s: seq<real>, m: real): (d: seq<real>)
    ensures |d| == |s|
    ensures forall i :: 0 <= i < |s| ==> d[i] == s[i] - m
  {
    seq(|s|, i requires 0 <= i < |s| => s[i] - m)
  }

  /** Σ(s[i] - mean)², the spread of `s` about its mean. */
  function Spread(s: seq<real>): real
    requires |s| > 0
  {
    var d := Deviations(s, Mean(s));
    Dot(d, d)
  }

  /** The heights slope·xs[i] + intercept of a line above the given abscissae. */
  function Predictions(xs: seq<real>, slope: real, intercept: real): (p: seq<real>)
    ensures |p| == |xs|
    ensures forall i :: 0 <= i < |xs| ==> p[i] == slope * xs[i] + intercept
  {
    seq(|xs|, i requires 0 <= i < |xs| => slope * xs[i] + intercept)
  }

  /** The vertical residuals ys[i] - (slope·xs[i] + intercept) of a line. */
  function Residuals(xs: seq<real>, ys: seq<real>, slope: real, intercept: real): (e: seq<real>)
    requires |xs| == |ys|
    ensures |e| == |xs|
    ensures forall i :: 0 <= i < |xs| ==> e[i] == ys[i] - (slope * xs[i] + intercept)
  {
    seq(|xs|, i requires 0 <= i < |xs| => ys[i] - (slope * xs[i] + intercept))
  }

  /** Sum of squared residuals of the line y = slope·x + intercept. */
  function SquaredError(xs: seq<real>, ys: seq<real>, slope: real, intercept: real): real
    requires |xs| == |ys|
  {
    var e := Residuals(xs, ys, slope, intercept);
    Dot(e, e)
  }

  /** Cov/Var slope, defined as exactly 0 when Σ(dx)² = 0. */
  function Slope(xs: seq<real>, ys: seq<real>): real
    requires |xs| == |ys| > 0
  {
    var dx := Deviations(xs, Mean(xs));
    var dy := Deviations(ys, Mean(ys));
    if Dot(dx, dx) == 0.0 then 0.0 else Dot(dx, dy) / Dot(dx, dx)
  }

  /** The intercept that makes the line pass through the point of means. */
  function Intercept(xs: seq<real>, ys: seq<real>): real
    requires |xs| == |ys| > 0
  {
    Mean(ys) - Slope(xs, ys) * Mean(xs)
  }

  /** The result `computeRegression(xs, ys)` denotes: None for fewer than two points. */
  function Ols(xs: seq<real>, ys: seq<real>): (r: Option<Fit>)
    requires |xs| == |ys|
    ensures r.None? <==> |xs| < 2
  {
    if |xs| < 2 then None
    else
      var ssRes := SquaredError(xs, ys, Slope(xs, ys), Intercept(xs, ys));
      var ssTot := Spread(ys);
      Some(Fit(Slope(xs, ys), Intercept(xs, ys), ssRes / |xs| as real,
               if ssTot == 0.0 then 1.0 else 1.0 - ssRes / ssTot))
  }

  /** Every element of `s` is the same. */
  predicate AllEqual(s: seq<real>)
  {
    forall i, j :: 0 <= i < |s| && 0 <= j < |s| ==> s[i] == s[j]
  }

  /** computeRegression: the means by summation, then one pass accumulating
      Σdx·dy and Σdx², then one pass accumulating the residual and total sums of
      squares. */
  method ComputeRegression(xArr: seq<real>, yArr: seq<real>) returns (r: Option<Fit>)
    requires |xArr| == |yArr|
    ensures r == Ols(xArr, yArr)
  {
    var n := |xArr|;
    if n < 2 {
      return None;
    }
    var meanX := Sum(xArr) / n as real;
    var meanY := Sum(yArr) / n as real;
    var numerator, denominator := CrossSums(xArr, yArr, meanX, meanY);
    var slope := if denominator == 0.0 then 0.0 else numerator / denominator;
    var intercept := meanY - slope * meanX;
    var ssRes, ssTot := ResidualSums(xArr, yArr, meanY, slope, intercept);
    var mse := ssRes / n as real;
    var r2 := if ssTot == 0.0 then 1.0 else 1.0 - ssRes / ssTot;
    r := Some(Fit(slope, intercept, mse, r2));
    OlsFromSums(xArr, yArr, meanX, meanY, numerator, denominator, slope, intercept, ssRes, ssTot);
  }

  /** The first loop of computeRegression: Σ(x - meanX)(y - meanY) and Σ(x - meanX)². */
  method CrossSums(xArr: seq<real>, yArr: seq<real>, meanX: real, meanY: real)
    returns (numerator: real, denominator: real)
    requires |xArr| == |yArr|
    ensures numerator == Dot(Deviations(xArr, meanX), Deviations(yArr, meanY))
    ensures denominator == Dot(Deviations(xArr, meanX), Deviations(xArr, meanX))
  {
    ghost var dxs, dys := Deviations(xArr, meanX), Deviations(yArr, meanY);
    numerator := 0.0;
    denominator := 0.0;
    for i := 0 to |xArr|
      invariant numerator == Dot(dxs[..i], dys[..i])
      invariant denominator == Dot(dxs[..i], dxs[..i])
    {
      var dx := xArr[i] - meanX;
      var dy := yArr[i] - meanY;
      DotPrefixStep(dxs, dys, i, numerator, dx, dy);
      DotPrefixStep(dxs, dxs, i, denominator, dx, dx);
      numerator := numerator + dx * dy;
      denominator := denominator + dx * dx;
    }
    assert dxs[..|xArr|] == dxs && dys[..|xArr|] == dys;
  }

  /** The second loop of computeRegression: the residual sum of squares of the
      line and the total sum of squares about meanY. */
  method ResidualSums(xArr: seq<real>, yArr: seq<real>, meanY: real, slope: real, intercept: real)
    returns (ssRes: real, ssTot: real)
    requires |xArr| == |yArr|
    ensures ssRes == SquaredError(xArr, yArr, slope, intercept)
    ensures ssTot == Dot(Deviations(yArr, meanY), Deviations(yArr, meanY))
  {
    ghost var es, dys := Residuals(xArr, yArr, slope, intercept), Deviations(yArr, meanY);
    ssRes := 0.0;
    ssTot := 0.0;
    for i := 0 to |xArr|
      invariant ssRes == Dot(es[..i], es[..i])
      invariant ssTot == Dot(dys[..i], dys[..i])
    {
      var yPred := slope * xArr[i] + intercept;
      var res, dev := yArr[i] - yPred, yArr[i] - meanY;
      DotPrefixStep(es, es, i, ssRes, res, res);
      DotPrefixStep(dys, dys, i, ssTot, dev, dev);
      ssRes := ssRes + res * res;
      ssTot := ssTot + dev * dev;
    }
    assert es[..|xArr|] == es && dys[..|xArr|] == dys;
  }

  /** The sums the two passes accumulate determine the fit. */
  lemma OlsFromSums(xs: seq<real>, ys: seq<real>, mx: real, my: real, sxy: real, sxx: real,
                    s: real, t: real, ssRes: real, ssTot: real)
    requires |xs| == |ys| >= 2
    requires mx == Sum(xs) / |xs| as real && my == Sum(ys) / |ys| as real
    requires sxy == Dot(Deviations(xs, mx), Deviations(ys, my))
    requires sxx == Dot(Deviations(xs, mx), Deviations(xs, mx))
    requires s == (if sxx == 0.0 then 0.0 else sxy / sxx) && t == my - s * mx
    requires ssRes == SquaredError(xs, ys, s, t)
    requires ssTot == Dot(Deviations(ys, my), Deviations(ys, my))
    ensures Ols(xs, ys) == Some(Fit(s, t, ssRes / |xs| as real, if ssTot == 0.0 then 1.0 else 1.0 - ssRes / ssTot))
  {
    assert mx == Mean(xs) && my == Mean(ys);
    assert s == Slope(xs, ys);
    InterceptOf(xs, ys, mx, my, s, t);
    assert ssTot == Spread(ys);
    OlsOfParts(xs, ys, s, t, ssRes, ssTot);
  }

  lemma InterceptOf(xs: seq<real>, ys: seq<real>, mx: real, my: real, s: real, t: real)
    requires |xs| == |ys| > 0
    requires mx == Mean(xs) && my == Mean(ys) && s == Slope(xs, ys) && t == my - s * mx
    ensures t == Intercept(xs, ys)
  {
  }

  lemma OlsOfParts(xs: seq<real>, ys: seq<real>, s: real, t: real, ssRes: real, ssTot: real)
    requires |xs| == |ys| >= 2
    requires s == Slope(xs, ys) && t == Intercept(xs, ys)
    requires ssRes == SquaredError(xs, ys, s, t) && ssTot == Spread(ys)
    ensures Ols(xs, ys) == Some(Fit(s, t, ssRes / |xs| as real, if ssTot == 0.0 then 1.0 else 1.0 - ssRes / ssTot))
  {
  }

  /** The page's regression data: two parallel lists of coordinates. */
  class Session {
    var xData: seq<real>
    var yData: seq<real>

    ghost predicate Valid()
      reads this
    {
      |xData| == |yData|
    }

    constructor ()
      ensures Valid() && xData == [] && yData == []
    {
      xData := [];
      yData := [];
    }

    /** addPointRegression: a point is recorded only when both fields parse. */
    method AddPoint(x: Option<real>, y: Option<real>)
      requires Valid()
      modifies this
      ensures Valid()
      ensures x.Some? && y.Some? ==> xData == old(xData) + [x.value] && yData == old(yData) + [y.value]
      ensures x.None? || y.None? ==> xData == old(xData) && yData == old(yData)
    {
      if x.Some? && y.Some? {
        xData := xData + [x.value];
        yData := yData + [y.value];
      }
    }

    /** The fit plotRegression computes from the current data; none below two points. */
    method CurrentFit() returns (r: Option<Fit>)
      requires Valid()
      ensures r == Ols(xData, yData)
      ensures r.None? <==> |xData| < 2
    {
      r := ComputeRegression(xData, yData);
    }

    /** resetRegression: forgets every point. */
    method Reset()
      modifies this
      ensures Valid() && xData == [] && yData == []
    {
      xData := [];
      yData := [];
    }
  }

  // ----- Properties of the fit -----

  /** The fit is the least-squares line: no line y = a·x + c has a smaller squared error. */
  lemma OlsMinimizesSquaredError(xs: seq<real>, ys: seq<real>, a: real, c: real)
    requires |xs| == |ys| > 0
    ensures SquaredError(xs, ys, Slope(xs, ys), Intercept(xs, ys)) <= SquaredError(xs, ys, a, c)
  {
    SquaredErrorGap(xs, ys, a, c);
    SumOfSquares(Residuals(xs, Predictions(xs, Slope(xs, ys), Intercept(xs, ys)), a, c));
  }

  /** The least-squares gap: the squared error of any line y = a·x + c is that of
      the fit plus the squared distances between the two lines at the data's x values. */
  lemma SquaredErrorGap(xs: seq<real>, ys: seq<real>, a: real, c: real)
    requires |xs| == |ys| > 0
    ensures SquaredError(xs, ys, a, c)
         == SquaredError(xs, ys, Slope(xs, ys), Intercept(xs, ys))
            + SquaredError(xs, Predictions(xs, Slope(xs, ys), Intercept(xs, ys)), a, c)
  {
    var s, t := Slope(xs, ys), Intercept(xs, ys);
    var e := Residuals(xs, ys, s, t);
    var v := Residuals(xs, Predictions(xs, s, t), a, c);
    ResidualsSplit(xs, ys, s, t, a, c);
    DifferenceOrthogonal(xs, ys, a, c);
    DotSymmetric(v, e);
    DotOfSum(e, v);
  }

  /** A line's residuals split into the fit's residuals and the gap between the two lines. */
  lemma ResidualsSplit(xs: seq<real>, ys: seq<real>, s: real, t: real, a: real, c: real)
    requires |xs| == |ys|
    ensures Residuals(xs, ys, a, c)
         == Add(Residuals(xs, ys, s, t), Residuals(xs, Predictions(xs, s, t), a, c))
  {
    var lhs := Residuals(xs, ys, a, c);
    var rhs := Add(Residuals(xs, ys, s, t), Residuals(xs, Predictions(xs, s, t), a, c));
    forall i | 0 <= i < |xs| ensures lhs[i] == rhs[i] {
      SplitTerm(xs[i], ys[i], s, t, a, c);
    }
    assert lhs == rhs;
  }

  lemma SplitTerm(x: real, y: real, s: real, t: real, a: real, c: real)
    ensures y - (a * x + c) == (y - (s * x + t)) + ((s * x + t) - (a * x + c))
  {
  }

  /** The gap between the fit and any line is, centred at any m, a constant plus a multiple of the deviations. */
  lemma LineDifference(xs: seq<real>, m: real, s: real, t: real, a: real, c: real, g: real, k: real)
    requires g == (s - a) * m + t - c && k == s - a
    ensures Residuals(xs, Predictions(xs, s, t), a, c) == Add(Constant(|xs|, g), Scale(k, Deviations(xs, m)))
  {
    var lhs := Residuals(xs, Predictions(xs, s, t), a, c);
    var rhs := Add(Constant(|xs|, g), Scale(k, Deviations(xs, m)));
    forall i | 0 <= i < |xs| ensures lhs[i] == rhs[i] {
      DifferenceTerm(xs[i], m, s, t, a, c, g, k);
    }
    assert lhs == rhs;
  }

  lemma DifferenceTerm(x: real, m: real, s: real, t: real, a: real, c: real, g: real, k: real)
    requires g == (s - a) * m + t - c && k == s - a
    ensures (s * x + t) - (a * x + c) == g + k * (x - m)
  {
  }

  /** The gap between the fit and any line is orthogonal to the fit's residuals. */
  lemma DifferenceOrthogonal(xs: seq<real>, ys: seq<real>, a: real, c: real)
    requires |xs| == |ys| > 0
    ensures Dot(Residuals(xs, Predictions(xs, Slope(xs, ys), Intercept(xs, ys)), a, c),
                Residuals(xs, ys, Slope(xs, ys), Intercept(xs, ys))) == 0.0
  {
    var s, t := Slope(xs, ys), Intercept(xs, ys);
    var e := Residuals(xs, ys, s, t);
    var dx := Deviations(xs, Mean(xs));
    var g, k := (s - a) * Mean(xs) + t - c, s - a;
    LineDifference(xs, Mean(xs), s, t, a, c, g, k);
    ResidualsOrthogonal(xs, ys);
    OrthogonalToCombination(g, k, dx, e);
  }

  /** A sequence that sums to zero and is orthogonal to d is orthogonal to every g + k·d. */
  lemma OrthogonalToCombination(g: real, k: real, d: seq<real>, e: seq<real>)
    requires |d| == |e| && Sum(e) == 0.0 && Dot(e, d) == 0.0
    ensures Dot(Add(Constant(|d|, g), Scale(k, d)), e) == 0.0
  {
    DotAdd(Constant(|d|, g), Scale(k, d), e);
    OrthogonalToConstant(g, e);
    OrthogonalToMultiple(k, d, e);
  }

  lemma OrthogonalToConstant(g: real, e: seq<real>)
    requires Sum(e) == 0.0
    ensures Dot(Constant(|e|, g), e) == 0.0
  {
    SumScaleOfZero(g, e);
    DotConstant(g, e);
  }

  lemma OrthogonalToMultiple(k: real, d: seq<real>, e: seq<real>)
    requires |d| == |e| && Dot(e, d) == 0.0
    ensures Dot(Scale(k, d), e) == 0.0
  {
    DotScale(k, d, e);
    DotSymmetric(d, e);
    TimesZero(Dot(Scale(k, d), e), k, Dot(d, e));
  }

  lemma SumScaleOfZero(k: real, v: seq<real>)
    requires Sum(v) == 0.0
    ensures Sum(Scale(k, v)) == 0.0
  {
    SumScale(k, v);
    TimesZero(Sum(Scale(k, v)), k, Sum(v));
  }

  lemma TimesZero(w: real, c: real, x: real)
    requires w == c * x && x == 0.0
    ensures w == 0.0
  {
  }

  /** The residuals of the line of slope s through (mx, my) are dy - s·dx about that point. */
  lemma FittedResiduals(xs: seq<real>, ys: seq<real>, mx: real, my: real, s: real, t: real)
    requires |xs| == |ys| && t == my - s * mx
    ensures Residuals(xs, ys, s, t) == Add(Deviations(ys, my), Scale(-s, Deviations(xs, mx)))
  {
    var lhs := Residuals(xs, ys, s, t);
    var rhs := Add(Deviations(ys, my), Scale(-s, Deviations(xs, mx)));
    forall i | 0 <= i < |xs| ensures lhs[i] == rhs[i] {
      FittedTerm(xs[i], ys[i], mx, my, s, t);
    }
    assert lhs == rhs;
  }

  lemma FittedTerm(x: real, y: real, mx: real, my: real, s: real, t: real)
    requires t == my - s * mx
    ensures y - (s * x + t) == (y - my) + -s * (x - mx)
  {
  }

  /** The normal equations: the fit's residuals sum to zero and are orthogonal to dx. */
  lemma ResidualsOrthogonal(xs: seq<real>, ys: seq<real>)
    requires |xs| == |ys| > 0
    ensures Sum(Residuals(xs, ys, Slope(xs, ys), Intercept(xs, ys))) == 0.0
    ensures Dot(Residuals(xs, ys, Slope(xs, ys), Intercept(xs, ys)), Deviations(xs, Mean(xs))) == 0.0
  {
    var s := Slope(xs, ys);
    var dx, dy := Deviations(xs, Mean(xs)), Deviations(ys, Mean(ys));
    FitIsCentred(xs, ys);
    MeanDeviationsSumToZero(xs);
    MeanDeviationsSumToZero(ys);
    SlopeSolvesNormalEquation(xs, ys);
    CentredOrthogonal(dx, dy, s);
  }

  /** The fit's residuals are dy - slope·dx. */
  lemma FitIsCentred(xs: seq<real>, ys: seq<real>)
    requires |xs| == |ys| > 0
    ensures Residuals(xs, ys, Slope(xs, ys), Intercept(xs, ys))
         == Add(Deviations(ys, Mean(ys)), Scale(-Slope(xs, ys), Deviations(xs, Mean(xs))))
  {
    FittedResiduals(xs, ys, Mean(xs), Mean(ys), Slope(xs, ys), Intercept(xs, ys));
  }

  /** For centred data, dy - s·dx sums to zero, and is orthogonal to dx when s solves s·Σdx² = Σdx·dy. */
  lemma CentredOrthogonal(dx: seq<real>, dy: seq<real>, s: real)
    requires |dx| == |dy| && Sum(dx) == 0.0 && Sum(dy) == 0.0
    requires s * Dot(dx, dx) == Dot(dx, dy)
    ensures Sum(Add(dy, Scale(-s, dx))) == 0.0
    ensures Dot(Add(dy, Scale(-s, dx)), dx) == 0.0
  {
    CentredSum(dx, dy, s);
    CentredCross(dx, dy, s);
  }

  lemma CentredSum(dx: seq<real>, dy: seq<real>, s: real)
    requires |dx| == |dy| && Sum(dx) == 0.0 && Sum(dy) == 0.0
    ensures Sum(Add(dy, Scale(-s, dx))) == 0.0
  {
    SumAdd(dy, Scale(-s, dx));
    SumScale(-s, dx);
    Cancel(Sum(Add(dy, Scale(-s, dx))), Sum(dy), Sum(Scale(-s, dx)), Sum(dx), s);
  }

  lemma CentredCross(dx: seq<real>, dy: seq<real>, s: real)
    requires |dx| == |dy|
    requires s * Dot(dx, dx) == Dot(dx, dy)
    ensures Dot(Add(dy, Scale(-s, dx)), dx) == 0.0
  {
    DotAdd(dy, Scale(-s, dx), dx);
    DotScale(-s, dx, dx);
    DotSymmetric(dy, dx);
    Cancel(Dot(Add(dy, Scale(-s, dx)), dx), Dot(dy, dx), Dot(Scale(-s, dx), dx), Dot(dx, dx), s);
  }

  /** The arithmetic closing CentredCross, over plain reals: s·x - s·x = 0. */
  lemma Cancel(w: real, u: real, v: real, x: real, s: real)
    requires w == u + v && v == -s * x && u == s * x
    ensures w == 0.0
  {
  }

  /** Either way the slope solves slope·Σ(dx)² = Σdx·dy: zero spread forces the covariance to zero. */
  lemma SlopeSolvesNormalEquation(xs: seq<real>, ys: seq<real>)
    requires |xs| == |ys| > 0
    ensures Slope(xs, ys) * Spread(xs) == Dot(Deviations(xs, Mean(xs)), Deviations(ys, Mean(ys)))
  {
    var dx, dy := Deviations(xs, Mean(xs)), Deviations(ys, Mean(ys));
    if Dot(dx, dx) == 0.0 {
      SumOfSquares(dx);
      DotZeros(dx, dy);
    } else {
      DivisionTimes(Dot(dx, dy), Dot(dx, dx));
    }
  }

  lemma DivisionTimes(x: real, y: real)
    requires y != 0.0
    ensures x / y * y == x
  {
  }

  /** The total sum of squares is the squared error of the horizontal line through mean(y). */
  lemma TotalIsFlatLineError(xs: seq<real>, ys: seq<real>)
    requires |xs| == |ys| > 0
    ensures Spread(ys) == SquaredError(xs, ys, 0.0, Mean(ys))
  {
    var lhs := Residuals(xs, ys, 0.0, Mean(ys));
    var rhs := Deviations(ys, Mean(ys));
    forall i | 0 <= i < |xs| ensures lhs[i] == rhs[i] {
      FlatTerm(xs[i], ys[i], Mean(ys));
    }
    assert lhs == rhs;
  }

  lemma FlatTerm(x: real, y: real, my: real)
    ensures y - (0.0 * x + my) == y - my
  {
  }

  /** The residual sum of squares lies between zero and the total sum of squares. */
  lemma ResidualsWithinTotal(xs: seq<real>, ys: seq<real>)
    requires |xs| == |ys| > 0
    ensures 0.0 <= SquaredError(xs, ys, Slope(xs, ys), Intercept(xs, ys)) <= Spread(ys)
  {
    SumOfSquares(Residuals(xs, ys, Slope(xs, ys), Intercept(xs, ys)));
    TotalIsFlatLineError(xs, ys);
    OlsMinimizesSquaredError(xs, ys, 0.0, Mean(ys));
  }

  /** Zero spread about the mean happens exactly when every value is the same. */
  lemma SpreadZeroIffConstant(s: seq<real>)
    requires |s| > 0
    ensures Spread(s) == 0.0 <==> AllEqual(s)
  {
    var d := Deviations(s, Mean(s));
    SumOfSquares(d);
    if AllEqual(s) {
      ConstantMean(s);
      assert forall i :: 0 <= i < |d| ==> d[i] == 0.0;
    }
    if Spread(s) == 0.0 {
      assert forall i :: 0 <= i < |s| ==> s[i] == d[i] + Mean(s);
    }
  }

  /** The mean of a constant sequence is that constant. */
  lemma ConstantMean(s: seq<real>)
    requires |s| > 0 && AllEqual(s)
    ensures Mean(s) == s[0]
  {
    assert forall i :: 0 <= i < |s| ==> s[i] == s[0];
    SumConstant(s, s[0]);
    MeanOfConstant(Sum(s), |s| as real, s[0]);
  }

  lemma MeanOfConstant(sum: real, n: real, c: real)
    requires n > 0.0 && sum == n * c
    ensures sum / n == c
  {
  }

  /** What the page shows of a fit: R² in [0, 1], and R² = 1 exactly when the line
      fits every point; a non-negative MSE; the line through the point of means;
      slope 0 when every x is the same; slope 0 and R² = 1 when every y is the same. */
  lemma FitProperties(xs: seq<real>, ys: seq<real>)
    requires |xs| == |ys| >= 2
    ensures Ols(xs, ys).Some?
    ensures 0.0 <= Ols(xs, ys).value.r2 <= 1.0
    ensures Ols(xs, ys).value.r2 == 1.0
        <==> SquaredError(xs, ys, Ols(xs, ys).value.slope, Ols(xs, ys).value.intercept) == 0.0
    ensures Ols(xs, ys).value.mse >= 0.0
    ensures Ols(xs, ys).value.slope * Mean(xs) + Ols(xs, ys).value.intercept == Mean(ys)
    ensures AllEqual(xs) ==> Ols(xs, ys).value.slope == 0.0
    ensures AllEqual(ys) ==> Ols(xs, ys).value.slope == 0.0 && Ols(xs, ys).value.r2 == 1.0
  {
    var s, t := Slope(xs, ys), Intercept(xs, ys);
    var ssRes, ssTot := SquaredError(xs, ys, s, t), Spread(ys);
    ResidualsWithinTotal(xs, ys);
    RatioBounds(ssRes, ssTot, |xs| as real);
    SpreadZeroIffConstant(xs);
    SpreadZeroIffConstant(ys);
    if AllEqual(ys) {
      var dy := Deviations(ys, Mean(ys));
      SumOfSquares(dy);
      DotSymmetric(Deviations(xs, Mean(xs)), dy);
      DotZeros(dy, Deviations(xs, Mean(xs)));
    }
  }

  lemma RatioBounds(ssRes: real, ssTot: real, n: real)
    requires 0.0 <= ssRes <= ssTot && n > 0.0
    ensures ssRes / n >= 0.0
    ensures ssTot != 0.0 ==> 0.0 <= 1.0 - ssRes / ssTot <= 1.0
    ensures ssTot != 0.0 ==> (1.0 - ssRes / ssTot == 1.0 <==> ssRes == 0.0)
  {
    if ssTot != 0.0 {
      assert ssRes / ssTot <= 1.0;
    }
  }

  /** Points that all lie on a line that is not vertical give back that line, with
      MSE 0 and R² 1. */
  lemma ExactLine(xs: seq<real>, ys: seq<real>, m: real, b: real)
    requires |xs| == |ys| >= 2
    requires forall i :: 0 <= i < |xs| ==> ys[i] == m * xs[i] + b
    requires !AllEqual(xs)
    ensures Ols(xs, ys) == Some(Fit(m, b, 0.0, 1.0))
  {
    ExactLineRecovered(xs, ys, m, b);
    ZeroErrorRatios(SquaredError(xs, ys, Slope(xs, ys), Intercept(xs, ys)), Spread(ys), |xs| as real);
  }

  /** The points (1, 2), (2, 4), (3, 6) lie on y = 2x: slope 2, intercept 0, MSE 0, R² 1. */
  lemma DoublingExample()
    ensures Ols([1.0, 2.0, 3.0], [2.0, 4.0, 6.0]) == Some(Fit(2.0, 0.0, 0.0, 1.0))
  {
    var xs, ys := [1.0, 2.0, 3.0], [2.0, 4.0, 6.0];
    assert xs[0] != xs[1];
    ExactLine(xs, ys, 2.0, 0.0);
  }

  lemma ZeroErrorRatios(ssRes: real, ssTot: real, n: real)
    requires ssRes == 0.0 && n > 0.0
    ensures ssRes / n == 0.0
    ensures (if ssTot == 0.0 then 1.0 else 1.0 - ssRes / ssTot) == 1.0
  {
  }

  /** Points on a line that is not vertical: the fit is that line, with no error. */
  lemma ExactLineRecovered(xs: seq<real>, ys: seq<real>, m: real, b: real)
    requires |xs| == |ys| > 0
    requires forall i :: 0 <= i < |xs| ==> ys[i] == m * xs[i] + b
    requires !AllEqual(xs)
    ensures Slope(xs, ys) == m && Intercept(xs, ys) == b
    ensures SquaredError(xs, ys, Slope(xs, ys), Intercept(xs, ys)) == 0.0
  {
    var s, t := Slope(xs, ys), Intercept(xs, ys);
    OnLineNoError(xs, ys, m, b);
    SquaredErrorGap(xs, ys, m, b);
    SumOfSquares(Residuals(xs, ys, s, t));
    SumOfSquares(Residuals(xs, Predictions(xs, s, t), m, b));
    ZeroParts(SquaredError(xs, ys, m, b), SquaredError(xs, ys, s, t),
              SquaredError(xs, Predictions(xs, s, t), m, b));
    ZeroGap(xs, s, t, m, b);
    ZeroGapSameLine(xs, s, t, m, b);
  }

  lemma ZeroParts(w: real, x: real, y: real)
    requires w == x + y && x >= 0.0 && y >= 0.0 && w == 0.0
    ensures x == 0.0 && y == 0.0
  {
  }

  /** Two lines whose squared distance over the data is zero agree at every abscissa. */
  lemma ZeroGap(xs: seq<real>, s: real, t: real, m: real, b: real)
    requires SquaredError(xs, Predictions(xs, s, t), m, b) == 0.0
    ensures forall i :: 0 <= i < |xs| ==> Residuals(xs, Predictions(xs, s, t), m, b)[i] == 0.0
  {
    SumOfSquares(Residuals(xs, Predictions(xs, s, t), m, b));
  }

  /** Two lines that agree at two distinct abscissae of the data are the same line. */
  lemma ZeroGapSameLine(xs: seq<real>, s: real, t: real, m: real, b: real)
    requires !AllEqual(xs)
    requires forall i :: 0 <= i < |xs| ==> Residuals(xs, Predictions(xs, s, t), m, b)[i] == 0.0
    ensures s == m && t == b
  {
    var v := Residuals(xs, Predictions(xs, s, t), m, b);
    var i, j :| 0 <= i < |xs| && 0 <= j < |xs| && xs[i] != xs[j];
    SameLine(xs[i], xs[j], v[i], v[j], s, t, m, b);
  }

  lemma OnLineNoError(xs: seq<real>, ys: seq<real>, m: real, b: real)
    requires |xs| == |ys|
    requires forall i :: 0 <= i < |xs| ==> ys[i] == m * xs[i] + b
    ensures SquaredError(xs, ys, m, b) == 0.0
  {
    var e := Residuals(xs, ys, m, b);
    assert forall i :: 0 <= i < |xs| ==> e[i] == 0.0;
    SumOfSquares(e);
  }

  lemma SameLine(x1: real, x2: real, g1: real, g2: real, s: real, t: real, m: real, b: real)
    requires x1 != x2
    requires g1 == (s * x1 + t) - (m * x1 + b) && g1 == 0.0
    requires g2 == (s * x2 + t) - (m * x2 + b) && g2 == 0.0
    ensures s == m && t == b
  {
    assert (s - m) * (x1 - x2) == 0.0;
    var q := 1.0 / (x1 - x2);
    assert (x1 - x2) * q == 1.0;
    assert (s - m) * (x1 - x2) * q == s - m;
  }

  // ----- Sums of products as a bilinear form -----

  /** The sequence of length n whose every element is c. */
  function Constant(n: nat, c: real): (s: seq<real>)
    ensures |s| == n
    ensures forall i :: 0 <= i < n ==> s[i] == c
  {
    seq(n, i => c)
  }

  lemma ProductsPrefix(u: seq<real>, v: seq<real>, m: nat)
    requires |u| == |v| && m <= |u|
    ensures Products(u, v)[..m] == Products(u[..m], v[..m])
  {
    forall i | 0 <= i < m ensures Products(u, v)[..m][i] == Products(u[..m], v[..m])[i] {
      assert u[..m][i] == u[i] && v[..m][i] == v[i];
    }
  }

  /** The sum of products is additive in its first argument. */
  lemma DotAdd(u: seq<real>, v: seq<real>, w: seq<real>)
    requires |u| == |v| == |w|
    ensures Dot(Add(u, v), w) == Dot(u, w) + Dot(v, w)
  {
    var lhs := Products(Add(u, v), w);
    var rhs := Add(Products(u, w), Products(v, w));
    forall i | 0 <= i < |u| ensures lhs[i] == rhs[i] {
      Distribute(u[i], v[i], w[i]);
    }
    assert lhs == rhs;
    SumAdd(Products(u, w), Products(v, w));
  }

  lemma Distribute(x: real, y: real, z: real)
    ensures (x + y) * z == x * z + y * z
  {
  }

  /** The sum of products is homogeneous in its first argument. */
  lemma DotScale(k: real, u: seq<real>, w: seq<real>)
    requires |u| == |w|
    ensures Dot(Scale(k, u), w) == k * Dot(u, w)
  {
    var lhs := Products(Scale(k, u), w);
    var rhs := Scale(k, Products(u, w));
    forall i | 0 <= i < |u| ensures lhs[i] == rhs[i] {
      Associate(k, u[i], w[i]);
    }
    assert lhs == rhs;
    SumScale(k, Products(u, w));
  }

  lemma Associate(k: real, x: real, z: real)
    ensures (k * x) * z == k * (x * z)
  {
  }

  /** Against a constant sequence, the sum of products is the sum of a multiple of the other sequence. */
  lemma DotConstant(c: real, w: seq<real>)
    ensures Dot(Constant(|w|, c), w) == Sum(Scale(c, w))
  {
    ProductsOfConstant(c, w);
  }

  lemma ProductsOfConstant(c: real, w: seq<real>)
    ensures Products(Constant(|w|, c), w) == Scale(c, w)
  {
    var lhs, rhs := Products(Constant(|w|, c), w), Scale(c, w);
    forall i | 0 <= i < |w| ensures lhs[i] == rhs[i] {
    }
    assert lhs == rhs;
  }

  /** The sum of products does not depend on the order of its two arguments. */
  lemma DotSymmetric(u: seq<real>, v: seq<real>)
    requires |u| == |v|
    ensures Dot(u, v) == Dot(v, u)
  {
    var lhs, rhs := Products(u, v), Products(v, u);
    forall i | 0 <= i < |u| ensures lhs[i] == rhs[i] {
      Commute(u[i], v[i]);
    }
    assert lhs == rhs;
  }

  lemma Commute(x: real, y: real)
    ensures x * y == y * x
  {
  }

  /** The square of a sum of two sequences, as sums of products. */
  lemma DotOfSum(u: seq<real>, v: seq<real>)
    requires |u| == |v|
    ensures Dot(Add(u, v), Add(u, v)) == Dot(u, u) + Dot(u, v) + Dot(v, u) + Dot(v, v)
  {
    var w := Add(u, v);
    DotAdd(u, v, w);
    DotSymmetric(u, w);
    DotSymmetric(v, w);
    DotAdd(u, v, u);
    DotAdd(u, v, v);
    DotSymmetric(u, v);
  }

  /** Against a sequence of zeros the sum of products vanishes. */
  lemma DotZeros(u: seq<real>, v: seq<real>)
    requires |u| == |v|
    requires forall i :: 0 <= i < |u| ==> u[i] == 0.0
    ensures Dot(u, v) == 0.0
  {
    var p := Products(u, v);
    forall i | 0 <= i < |u| ensures p[i] == 0.0 {
      ZeroTimes(u[i], v[i]);
    }
    SumConstant(p, 0.0);
  }

  lemma ZeroTimes(x: real, y: real)
    requires x == 0.0
    ensures x * y == 0.0
  {
  }

  /** One more term of a running sum of products. */
  lemma DotPrefixStep(u: seq<real>, v: seq<real>, i: nat, acc: real, a: real, b: real)
    requires |u| == |v| && i < |u|
    requires acc == Dot(u[..i], v[..i]) && a == u[i] && b == v[i]
    ensures acc + a * b == Dot(u[..i + 1], v[..i + 1])
  {
    var p := Products(u[..i + 1], v[..i + 1]);
    ProductsPrefix(u[..i + 1], v[..i + 1], i);
    assert u[..i + 1][..i] == u[..i] && v[..i + 1][..i] == v[..i];
    assert p[i] == a * b;
  }

  lemma SquareNonNegative(x: real)
    ensures x * x >= 0.0
  {
    if x < 0.0 {
      assert x * x == (-x) * (-x);
    }
  }

  lemma SquareZero(x: real)
    ensures x * x == 0.0 ==> x == 0.0
  {
    if x != 0.0 {
      var y := 1.0 / x;
      assert x * y == 1.0;
      assert (x * x) * y == x;
    }
  }

  /** A sum of squares is non-negative, and zero exactly when every term is zero. */
  lemma SumOfSquares(v: seq<real>)
    ensures Dot(v, v) >= 0.0
    ensures Dot(v, v) == 0.0 <==> forall i :: 0 <= i < |v| ==> v[i] == 0.0
  {
    var p := Products(v, v);
    forall i | 0 <= i < |v| ensures p[i] >= 0.0 {
      SquareNonNegative(v[i]);
    }
    SumNonNegative(p);
    forall i | 0 <= i < |v| ensures p[i] == 0.0 ==> v[i] == 0.0 {
      SquareZero(v[i]);
    }
    if forall i :: 0 <= i < |v| ==> v[i] == 0.0 {
      DotZeros(v, v);
    }
  }

  /** Deviations about m sum to Σs - n·m. */
  lemma {:induction false} SumDeviations(s: seq<real>, m: real)
    ensures Sum(Deviations(s, m)) == Sum(s) - |s| as real * m
  {
    if s != [] {
      var k := |s| - 1;
      assert Deviations(s, m)[..k] == Deviations(s[..k], m);
      SumDeviations(s[..k], m);
    }
  }

  /** Deviations about the mean sum to zero. */
  lemma MeanDeviationsSumToZero(s: seq<real>)
    requires |s| > 0
    ensures Sum(Deviations(s, Mean(s))) == 0.0
  {
    SumDeviations(s, Mean(s));
  }
}
