/** The three next-period price estimators of PricePrediction: exponential
    moving average, ordinary least squares over observation indices, and a
    polynomial fit over normalised indices with a sanity bound. Prices are
    exact reals. */
module PricePrediction {
  import opened Records
  import opened SeqMath

  /** The two argument errors the estimators raise. */
  datatype PredictionError = EmptyPrices | InsufficientOrMismatchedData

  datatype Result<T> = Ok(value: T) | Err(error: PredictionError)

  datatype Option<T> = None | Some(value: T)

  /** The least-squares polynomial fit of an external numerics library:
      given x values, y values and a degree it yields a coefficient array, or
      None when it throws. The model relies on nothing else about it. */
  type Fit = (seq<real>, seq<real>, int) -> Option<seq<real>>

  const DefaultSmoothingFactor: int := 2
  const DefaultDegree: int := 2

  /** Below this magnitude the regression denominator counts as degenerate. */
  const DegenerateThreshold: real := 0.0000000001

  // ---------------------------------------------------------------------
  // Exponential moving average
  // ---------------------------------------------------------------------

  /** The EMA weight of a new price: smoothingFactor / (count + 1). */
  function Multiplier(smoothingFactor: int, count: nat): real
  {
    smoothingFactor as real / (count + 1) as real
  }

  /** Folds the remaining prices into the running average, front to back. */
  function EmaFrom(ema: real, rest: seq<real>, multiplier: real): real
    decreases |rest|
  {
    if rest == [] then ema
    else EmaFrom((rest[0] - ema) * multiplier + ema, rest[1..], multiplier)
  }

  /** The EMA of a non-empty price history, seeded with its first price. */
  function Ema(prices: seq<real>, smoothingFactor: int): (r: real)
    requires prices != []
    ensures |prices| == 1 ==> r == prices[0]
  {
    EmaFrom(prices[0], prices[1..], Multiplier(smoothingFactor, |prices|))
  }

  /** PredictWithEMA: fails on an empty history, otherwise returns the EMA. */
  method PredictWithEMA(prices: seq<real>, smoothingFactor: int) returns (r: Result<real>)
    ensures prices == [] ==> r == Err(EmptyPrices)
    ensures prices != [] ==> r == Ok(Ema(prices, smoothingFactor))
  {
    if |prices| == 0 {
      return Err(EmptyPrices);
    }
    var ema := prices[0];
    var multiplier := Multiplier(smoothingFactor, |prices|);
    for i := 1 to |prices|
      invariant EmaFrom(ema, prices[i..], multiplier) == Ema(prices, smoothingFactor)
    {
      ema := (prices[i] - ema) * multiplier + ema;
    }
    return Ok(ema);
  }

  /** One EMA step with a weight in [0, 1] is a convex combination. */
  lemma EmaStepWithin(ema: real, price: real, multiplier: real, lo: real, hi: real)
    requires 0.0 <= multiplier <= 1.0
    requires lo <= ema <= hi && lo <= price <= hi
    ensures lo <= (price - ema) * multiplier + ema <= hi
  {
    var step := (price - ema) * multiplier + ema;
    assert step - hi == multiplier * (price - hi) + (1.0 - multiplier) * (ema - hi);
    assert multiplier * (price - hi) <= 0.0;
    assert (1.0 - multiplier) * (ema - hi) <= 0.0;
    assert step - lo == multiplier * (price - lo) + (1.0 - multiplier) * (ema - lo);
    assert multiplier * (price - lo) >= 0.0;
    assert (1.0 - multiplier) * (ema - lo) >= 0.0;
  }

  lemma {:induction false} EmaFromWithin(ema: real, rest: seq<real>, multiplier: real, lo: real, hi: real)
    requires 0.0 <= multiplier <= 1.0
    requires lo <= ema <= hi
    requires forall i :: 0 <= i < |rest| ==> lo <= rest[i] <= hi
    ensures lo <= EmaFrom(ema, rest, multiplier) <= hi
    decreases |rest|
  {
    if rest != [] {
      EmaStepWithin(ema, rest[0], multiplier, lo, hi);
      EmaFromWithin((rest[0] - ema) * multiplier + ema, rest[1..], multiplier, lo, hi);
    }
  }

  /** With a smoothing factor between 0 and count + 1 (the default 2 on any
      non-empty history) the EMA stays within the observed price range. */
  lemma EmaWithinPriceRange(prices: seq<real>, smoothingFactor: int)
    requires prices != []
    requires 0 <= smoothingFactor <= |prices| + 1
    ensures Min(prices) <= Ema(prices, smoothingFactor) <= Max(prices)
  {
    var m := Multiplier(smoothingFactor, |prices|);
    MultiplierInUnitInterval(smoothingFactor, |prices|);
    var tail := prices[1..];
    forall i | 0 <= i < |tail|
      ensures Min(prices) <= tail[i] <= Max(prices)
    {
      assert tail[i] == prices[i + 1];
    }
    EmaFromWithin(prices[0], tail, m, Min(prices), Max(prices));
  }

  /** A smoothing factor in [0, count + 1] gives a multiplier in [0, 1]. */
  lemma MultiplierInUnitInterval(smoothingFactor: int, count: nat)
    requires 0 <= smoothingFactor <= count + 1
    ensures 0.0 <= Multiplier(smoothingFactor, count) <= 1.0
  {
    var m := Multiplier(smoothingFactor, count);
    var d := (count + 1) as real;
    assert m * d == smoothingFactor as real;
    assert (1.0 - m) * d == d - smoothingFactor as real;
  }

  /** The default multiplier 2 / (n + 1) lies in (0, 1] for every n >= 1. */
  lemma DefaultMultiplierInUnitInterval(count: nat)
    requires count >= 1
    ensures 0.0 < Multiplier(DefaultSmoothingFactor, count) <= 1.0
  {
  }

  lemma {:induction false} EmaFromConstant(c: real, rest: seq<real>, multiplier: real)
    requires forall i :: 0 <= i < |rest| ==> rest[i] == c
    ensures EmaFrom(c, rest, multiplier) == c
    decreases |rest|
  {
    if rest != [] {
      var next := (rest[0] - c) * multiplier + c;
      assert next == c;
      assert EmaFrom(c, rest, multiplier) == EmaFrom(next, rest[1..], multiplier);
      forall i | 0 <= i < |rest[1..]|
        ensures rest[1..][i] == c
      {
        assert rest[1..][i] == rest[i + 1];
      }
      EmaFromConstant(c, rest[1..], multiplier);
    }
  }

  /** A constant history yields that constant, whatever the smoothing factor. */
  lemma EmaOfConstantSeries(prices: seq<real>, smoothingFactor: int, c: real)
    requires prices != []
    requires forall i :: 0 <= i < |prices| ==> prices[i] == c
    ensures Ema(prices, smoothingFactor) == c
  {
    EmaFromConstant(c, prices[1..], Multiplier(smoothingFactor, |prices|));
  }

  // ---------------------------------------------------------------------
  // Linear regression over observation indices 0 .. n-1
  // ---------------------------------------------------------------------

  /** Sum of the indices 0 .. n-1. */
  function SumX(n: nat): real
  {
    if n == 0 then 0.0 else SumX(n - 1) + (n - 1) as real
  }

  /** Sum of the squared indices 0 .. n-1. */
  function SumXX(n: nat): real
  {
    if n == 0 then 0.0 else SumXX(n - 1) + (n - 1) as real * (n - 1) as real
  }

  /** Sum of index times price. */
  function SumXY(prices: seq<real>): real
  {
    if prices == [] then 0.0
    else SumXY(prices[..|prices| - 1]) + (|prices| - 1) as real * prices[|prices| - 1]
  }

  /** The normal-equation denominator n * SumXX - SumX^2. */
  function Denominator(n: nat): real
  {
    n as real * SumXX(n) - SumX(n) * SumX(n)
  }

  /** PredictWithLinearRegression: least squares over the indices,
      extrapolated to index n, falling back to the last price when the
      denominator is (nearly) zero. The month values are never read. */
  function PredictWithLinearRegression(months: seq<Date>, prices: seq<real>): (r: Result<real>)
    ensures r.Err? <==> |months| != |prices| || |months| < 2
    ensures r.Err? ==> r.error == InsufficientOrMismatchedData
  {
    if |months| != |prices| || |months| < 2 then Err(InsufficientOrMismatchedData)
    else
      var n := |prices|;
      var sumX := SumX(n);
      var sumY := Sum(prices);
      var sumXY := SumXY(prices);
      var denominator := Denominator(n);
      if Abs(denominator) < DegenerateThreshold then Ok(Last(prices))
      else
        Ok(FittedValueAtNextIndex(n, sumX, sumY, sumXY, denominator))
  }

  /** The fitted line slope * x + intercept evaluated at x = n. */
  function FittedValueAtNextIndex(n: nat, sumX: real, sumY: real, sumXY: real, denominator: real): real
    requires n > 0 && denominator != 0.0
  {
    var slope := Slope(n, sumX, sumY, sumXY, denominator);
    var intercept := Intercept(n, sumX, sumY, slope);
    slope * n as real + intercept
  }

  /** The least-squares slope (n * SumXY - SumX * SumY) / denominator. */
  function Slope(n: nat, sumX: real, sumY: real, sumXY: real, denominator: real): real
    requires denominator != 0.0
  {
    (n as real * sumXY - sumX * sumY) / denominator
  }

  /** The least-squares intercept (SumY - slope * SumX) / n. */
  function Intercept(n: nat, sumX: real, sumY: real, slope: real): real
    requires n > 0
  {
    (sumY - slope * sumX) / n as real
  }

  lemma {:induction false} SumXClosedForm(n: nat)
    ensures SumX(n) == n as real * (n as real - 1.0) / 2.0
  {
    if n > 0 {
      SumXClosedForm(n - 1);
    }
  }

  lemma {:induction false} SumXXClosedForm(n: nat)
    ensures SumXX(n) == n as real * (n as real - 1.0) * (2.0 * n as real - 1.0) / 6.0
  {
    if n > 0 {
      SumXXClosedForm(n - 1);
      var m := (n - 1) as real;
      assert SumXX(n) == (m * (m - 1.0) * (2.0 * m - 1.0)) / 6.0 + m * m;
    }
  }

  /** The denominator is n^2 (n^2 - 1) / 12, whatever the prices. */
  lemma DenominatorClosedForm(n: nat)
    ensures Denominator(n) == (n * n) as real * ((n * n) as real - 1.0) / 12.0
  {
    SumXClosedForm(n);
    SumXXClosedForm(n);
    var x := n as real;
    assert (n * n) as real == x * x;
    assert Denominator(n) == x * (x * (x - 1.0) * (2.0 * x - 1.0) / 6.0) - (x * (x - 1.0) / 2.0) * (x * (x - 1.0) / 2.0);
  }

  /** n^2 (n^2 - 1) / 12 is at least 1 once n >= 2. */
  lemma IndexVarianceAtLeastOne(n: nat)
    requires n >= 2
    ensures (n * n) as real * ((n * n) as real - 1.0) / 12.0 >= 1.0
  {
    var k := n * n;
    assert k >= 4 by {
      assert n * n >= 2 * n;
    }
    assert k * (k - 1) >= 12 by {
      assert k * (k - 1) >= 4 * (k - 1);
    }
    assert (k as real) * (k as real - 1.0) == (k * (k - 1)) as real;
  }

  /** With at least two points the denominator is at least 1. */
  lemma DenominatorAtLeastOne(n: nat)
    requires n >= 2
    ensures Denominator(n) >= 1.0
  {
    DenominatorClosedForm(n);
    IndexVarianceAtLeastOne(n);
  }

  /** Hence the last-price fallback never fires over exact arithmetic. */
  lemma DegenerateFallbackUnreachable(n: nat)
    requires n >= 2
    ensures !(Abs(Denominator(n)) < DegenerateThreshold)
  {
    DenominatorAtLeastOne(n);
  }

  /** The estimator depends on the months only through their count. */
  lemma LinearRegressionIgnoresMonthValues(months1: seq<Date>, months2: seq<Date>, prices: seq<real>)
    requires |months1| == |months2|
    ensures PredictWithLinearRegression(months1, prices) == PredictWithLinearRegression(months2, prices)
  {
  }

  /** The price at index i is a + b*i for every index. */
  predicate IsLine(prices: seq<real>, a: real, b: real)
  {
    forall i :: 0 <= i < |prices| ==> prices[i] == a + b * i as real
  }

  /** On an exactly linear history p[i] = a + b*i the estimator returns the
      line's value a + b*n at the next index. */
  lemma LinearRegressionExtrapolatesLine(months: seq<Date>, prices: seq<real>, a: real, b: real)
    requires |months| == |prices| >= 2
    requires IsLine(prices, a, b)
    ensures PredictWithLinearRegression(months, prices) == Ok(a + b * |prices| as real)
  {
    var sumX, sumY, sumXY := LineSeriesFittedValue(prices, a, b);
    LinearRegressionIsFittedValue(months, prices, sumX, sumY, sumXY, a + b * |prices| as real);
  }

  /** For a linear series the fitted value at index n, computed from the
      series' sums, is the line's value there. */
  lemma LineSeriesFittedValue(prices: seq<real>, a: real, b: real) returns (sumX: real, sumY: real, sumXY: real)
    requires |prices| >= 2
    requires IsLine(prices, a, b)
    ensures sumX == SumX(|prices|) && sumY == Sum(prices) && sumXY == SumXY(prices)
    ensures Denominator(|prices|) >= 1.0
    ensures FittedValueAtNextIndex(|prices|, sumX, sumY, sumXY, Denominator(|prices|)) == a + b * |prices| as real
  {
    var sumXX;
    sumX, sumXX, sumY, sumXY := LineSums(prices, a, b);
    LineFittedValue(|prices|, sumX, sumXX, sumY, sumXY, Denominator(|prices|), a, b);
  }

  /** The sums and the denominator are those of samples of the line
      y = a + b*x at x = 0 .. n-1, and the denominator is at least 1. */
  predicate IsLineFit(n: nat, sumX: real, sumXX: real, sumY: real, sumXY: real, d: real, a: real, b: real)
  {
    n > 0 && d >= 1.0 && d == n as real * sumXX - sumX * sumX &&
    sumY == n as real * a + b * sumX && sumXY == a * sumX + b * sumXX
  }

  /** With at least two matched points and a denominator of at least 1 the
      fallback is not taken: the estimate is the fitted line's value at
      index n. */
  lemma LinearRegressionIsFittedValue(months: seq<Date>, prices: seq<real>, sumX: real, sumY: real, sumXY: real, v: real)
    requires |months| == |prices| >= 2
    requires sumX == SumX(|prices|) && sumY == Sum(prices) && sumXY == SumXY(prices)
    requires Denominator(|prices|) >= 1.0
    requires FittedValueAtNextIndex(|prices|, sumX, sumY, sumXY, Denominator(|prices|)) == v
    ensures PredictWithLinearRegression(months, prices) == Ok(v)
  {
  }

  /** The sum of a linear series p[i] = a + b*i is n*a + b*SumX(n). */
  lemma {:induction false} LineSumY(prices: seq<real>, a: real, b: real)
    requires forall i :: 0 <= i < |prices| ==> prices[i] == a + b * i as real
    ensures Sum(prices) == |prices| as real * a + b * SumX(|prices|)
  {
    if prices != [] {
      var init := prices[..|prices| - 1];
      LineSumY(init, a, b);
      LineSumYStep(a, b, (|prices| - 1) as real, |prices| as real, prices[|prices| - 1], Sum(init), SumX(|prices| - 1));
    }
  }

  /** Appending the sample p = a + b*m at index m, so that the count becomes
      n = m + 1, keeps the equation of LineSumY. */
  lemma LineSumYStep(a: real, b: real, m: real, n: real, p: real, sumY: real, sumX: real)
    requires n == m + 1.0 && p == a + b * m
    requires sumY == m * a + b * sumX
    ensures sumY + p == n * a + b * (sumX + m)
  {
  }

  /** The index-weighted sum of a linear series is a*SumX(n) + b*SumXX(n). */
  lemma {:induction false} LineSumXY(prices: seq<real>, a: real, b: real)
    requires forall i :: 0 <= i < |prices| ==> prices[i] == a + b * i as real
    ensures SumXY(prices) == a * SumX(|prices|) + b * SumXX(|prices|)
  {
    if prices != [] {
      var init := prices[..|prices| - 1];
      LineSumXY(init, a, b);
      LineSumXYStep(a, b, (|prices| - 1) as real, prices[|prices| - 1], SumXY(init), SumX(|prices| - 1), SumXX(|prices| - 1));
    }
  }

  /** Appending the sample p = a + b*m at index m keeps the equation of
      LineSumXY. */
  lemma LineSumXYStep(a: real, b: real, m: real, p: real, sumXY: real, sumX: real, sumXX: real)
    requires p == a + b * m
    requires sumXY == a * sumX + b * sumXX
    ensures sumXY + m * p == a * (sumX + m) + b * (sumXX + m * m)
  {
  }

  /** The four sums of a linear series with at least two samples, named,
      together with the facts IsLineFit collects about them. */
  lemma LineSums(prices: seq<real>, a: real, b: real)
    returns (sumX: real, sumXX: real, sumY: real, sumXY: real)
    requires |prices| >= 2
    requires IsLine(prices, a, b)
    ensures sumX == SumX(|prices|) && sumXX == SumXX(|prices|)
    ensures sumY == Sum(prices) && sumXY == SumXY(prices)
    ensures Denominator(|prices|) >= 1.0
    ensures IsLineFit(|prices|, sumX, sumXX, sumY, sumXY, Denominator(|prices|), a, b)
  {
    sumX, sumXX, sumY, sumXY := SumX(|prices|), SumXX(|prices|), Sum(prices), SumXY(prices);
    LineSumY(prices, a, b);
    LineSumXY(prices, a, b);
    DenominatorAtLeastOne(|prices|);
    IsLineFitIntro(|prices|, sumX, sumXX, sumY, sumXY, Denominator(|prices|), a, b);
  }

  /** Collects the line-fit facts into IsLineFit. */
  lemma IsLineFitIntro(n: nat, sumX: real, sumXX: real, sumY: real, sumXY: real, d: real, a: real, b: real)
    requires n > 0 && d >= 1.0 && d == n as real * sumXX - sumX * sumX
    requires sumY == n as real * a + b * sumX
    requires sumXY == a * sumX + b * sumXX
    ensures IsLineFit(n, sumX, sumXX, sumY, sumXY, d, a, b)
  {
  }

  /** From sums that fit a line, the estimator's fitted value at index n is
      the line's value there. */
  lemma LineFittedValue(n: nat, sumX: real, sumXX: real, sumY: real, sumXY: real, d: real, a: real, b: real)
    requires IsLineFit(n, sumX, sumXX, sumY, sumXY, d, a, b)
    ensures FittedValueAtNextIndex(n, sumX, sumY, sumXY, d) == a + b * n as real
  {
    LineCoefficients(n, sumX, sumXX, sumY, sumXY, d, a, b);
  }

  /** When the price sums come from y = a + b*x and the denominator is not
      zero, the least-squares slope is b, the intercept is a, and the fitted
      value at x = n is a + b*n. */
  lemma LineCoefficients(n: nat, sx: real, sxx: real, sumY: real, sumXY: real, d: real, a: real, b: real)
    requires n > 0
    requires d == n as real * sxx - sx * sx
    requires sumY == n as real * a + b * sx
    requires sumXY == a * sx + b * sxx
    ensures d >= 1.0 ==>
              Slope(n, sx, sumY, sumXY, d) == b &&
              Intercept(n, sx, sumY, b) == a &&
              FittedValueAtNextIndex(n, sx, sumY, sumXY, d) == a + b * n as real
  {
    var x := n as real;
    if d >= 1.0 {
      assert x * sumXY - sx * sumY == b * d;
      assert sumY - b * sx == x * a;
    }
  }

  /** A constant history yields that constant. */
  lemma LinearRegressionOfConstantSeries(months: seq<Date>, prices: seq<real>, c: real)
    requires |months| == |prices| >= 2
    requires forall i :: 0 <= i < |prices| ==> prices[i] == c
    ensures PredictWithLinearRegression(months, prices) == Ok(c)
  {
    LinearRegressionExtrapolatesLine(months, prices, c, 0.0);
  }

  // ---------------------------------------------------------------------
  // Polynomial regression over normalised indices
  // ---------------------------------------------------------------------

  /** Math.Min(degree, count - 1): never above count - 1, never above the
      requested degree, and one of the two. */
  function ClampDegree(degree: int, count: nat): (d: int)
    ensures d <= count - 1 && d <= degree
    ensures d == degree || d == count - 1
  {
    if degree < count - 1 then degree else count - 1
  }

  /** The x values index / (count - 1). */
  function NormalizedIndices(count: nat): (xs: seq<real>)
    requires count >= 2
    ensures |xs| == count
  {
    seq(count, i requires 0 <= i < count => i as real / (count - 1) as real)
  }

  /** The evaluation point 1 + 1 / (count - 1). */
  function NextNormalizedIndex(count: nat): real
    requires count >= 2
  {
    1.0 + 1.0 / (count - 1) as real
  }

  /** The normalised x values run from 0 to 1 in equal steps of
      1 / (count - 1), and the evaluation point is one more such step,
      count / (count - 1). */
  lemma NormalizedIndicesShape(count: nat)
    requires count >= 2
    ensures NormalizedIndices(count)[0] == 0.0
    ensures NormalizedIndices(count)[count - 1] == 1.0
    ensures forall i :: 0 <= i < count - 1 ==>
              NormalizedIndices(count)[i + 1] - NormalizedIndices(count)[i] == 1.0 / (count - 1) as real
    ensures NextNormalizedIndex(count) - NormalizedIndices(count)[count - 1] == 1.0 / (count - 1) as real
    ensures NextNormalizedIndex(count) == count as real / (count - 1) as real
  {
    var xs := NormalizedIndices(count);
    var d := (count - 1) as real;
    forall i | 0 <= i < count - 1
      ensures xs[i + 1] - xs[i] == 1.0 / d
    {
      QuotientStep(i as real, d);
    }
    QuotientStep(d, d);
  }

  /** Consecutive multiples of 1 / d differ by 1 / d. */
  lemma QuotientStep(k: real, d: real)
    requires d >= 1.0
    ensures (k + 1.0) / d - k / d == 1.0 / d
    ensures 1.0 + 1.0 / d == (d + 1.0) / d
  {
  }

  /** Math.Pow for a natural exponent. */
  function Pow(x: real, k: nat): real
  {
    if k == 0 then 1.0 else x * Pow(x, k - 1)
  }

  /** The elements in reverse order. */
  function Reverse(s: seq<real>): (r: seq<real>)
    ensures |r| == |s|
    ensures forall i :: 0 <= i < |s| ==> r[i] == s[|s| - 1 - i]
  {
    if s == [] then [] else [s[|s| - 1]] + Reverse(s[..|s| - 1])
  }

  /** The sum of cs[i] * x^i over all positions i. */
  function PowerSum(cs: seq<real>, x: real): real
  {
    if cs == [] then 0.0
    else PowerSum(cs[..|cs| - 1], x) + cs[|cs| - 1] * Pow(x, |cs| - 1)
  }

  /** The evaluation as the estimator writes it: reverse the coefficient
      array, then weight position i by x^i. */
  function EvaluateAsWritten(coeffs: seq<real>, x: real): real
  {
    PowerSum(Reverse(coeffs), x)
  }

  /** Horner's rule with the FIRST coefficient as the leading one. */
  function Horner(coeffs: seq<real>, x: real): real
  {
    if coeffs == [] then 0.0
    else Horner(coeffs[..|coeffs| - 1], x) * x + coeffs[|coeffs| - 1]
  }

  lemma {:induction false} PowerSumCons(c: real, cs: seq<real>, x: real)
    ensures PowerSum([c] + cs, x) == c + x * PowerSum(cs, x)
    decreases |cs|
  {
    if cs == [] {
      assert PowerSum([c], x) == PowerSum([], x) + c * Pow(x, 0);
    } else {
      var k := |cs|;
      var init := cs[..k - 1];
      assert ([c] + cs)[..k] == [c] + init;
      PowerSumCons(c, init, x);
      var p, d, w := PowerSum(init, x), cs[k - 1], Pow(x, k - 1);
      assert PowerSum([c] + cs, x) == (c + x * p) + d * (x * w);
      Distribute(c, x, p, d, w);
    }
  }

  /** The rearrangement used by PowerSumCons. */
  lemma Distribute(c: real, x: real, p: real, d: real, w: real)
    ensures (c + x * p) + d * (x * w) == c + x * (p + d * w)
  {
  }

  /** The literal evaluation is Horner's rule over the coefficients in the
      order the fit returns them: the fit's first coefficient is weighted by
      the highest power and its last one is the constant term. */
  lemma {:induction false} EvaluateAsWrittenIsHorner(coeffs: seq<real>, x: real)
    ensures EvaluateAsWritten(coeffs, x) == Horner(coeffs, x)
    decreases |coeffs|
  {
    if coeffs != [] {
      var init := coeffs[..|coeffs| - 1];
      var c := coeffs[|coeffs| - 1];
      assert Reverse(coeffs) == [c] + Reverse(init);
      PowerSumCons(c, Reverse(init), x);
      EvaluateAsWrittenIsHorner(init, x);
    }
  }

  /** PredictWithPolynomialRegression with the fit as a parameter. After
      the argument checks it never fails: a throwing fit and a value outside
      [0.5 * min, 2 * max] both yield the last price. */
  function PredictWithPolynomialRegression(fit: Fit, months: seq<Date>, prices: seq<real>, degree: int): (r: Result<real>)
    ensures r.Err? <==> |months| != |prices| || |months| < 2
    ensures r.Err? ==> r.error == InsufficientOrMismatchedData
    ensures r.Ok? ==> r.value == Last(prices) || Min(prices) * 0.5 <= r.value <= Max(prices) * 2.0
  {
    if |months| != |prices| || |months| < 2 then Err(InsufficientOrMismatchedData)
    else
      var n := |months|;
      var xData := NormalizedIndices(n);
      var clamped := ClampDegree(degree, n);
      match fit(xData, prices, clamped)
      case None => Ok(Last(prices))
      case Some(polyCoeffs) =>
        var nextIndex := NextNormalizedIndex(n);
        var prediction := EvaluateAsWritten(polyCoeffs, nextIndex);
        var maxPrice := Max(prices);
        var minPrice := Min(prices);
        if prediction < minPrice * 0.5 || prediction > maxPrice * 2.0 then Ok(Last(prices))
        else Ok(prediction)
  }

  /** The full outcome on valid input: the fit is asked for the normalised
      indices, the prices and the clamped degree; its coefficients are
      evaluated by Horner's rule (first coefficient leading) at the next
      normalised index and kept only inside the sanity bound. */
  lemma PolynomialRegressionOutcome(fit: Fit, months: seq<Date>, prices: seq<real>, degree: int)
    requires |months| == |prices| >= 2
    ensures var n := |prices|;
            PredictWithPolynomialRegression(fit, months, prices, degree) ==
            match fit(NormalizedIndices(n), prices, ClampDegree(degree, n))
            case None => Ok(Last(prices))
            case Some(cs) =>
              var v := Horner(cs, NextNormalizedIndex(n));
              if Min(prices) * 0.5 <= v <= Max(prices) * 2.0 then Ok(v) else Ok(Last(prices))
  {
    var n := |prices|;
    match fit(NormalizedIndices(n), prices, ClampDegree(degree, n))
    case None =>
    case Some(cs) =>
      EvaluateAsWrittenIsHorner(cs, NextNormalizedIndex(n));
  }

  /** On a history of positive prices the polynomial estimate is positive and
      inside [0.5 * min, 2 * max]. */
  lemma PolynomialRegressionPositive(fit: Fit, months: seq<Date>, prices: seq<real>, degree: int)
    requires |months| == |prices| >= 2
    requires forall i :: 0 <= i < |prices| ==> prices[i] > 0.0
    ensures var r := PredictWithPolynomialRegression(fit, months, prices, degree);
            r.Ok? && 0.0 < r.value && Min(prices) * 0.5 <= r.value <= Max(prices) * 2.0
  {
    LastWithinRange(prices);
  }

  /** For the history 10, 12, 14 a fit reporting the exact line in ascending
      order (10, 4, 0) is evaluated as 28.5, above 2 * 14, so the estimator
      returns the last price 14 rather than the trend value 16. */
  lemma PolynomialAscendingCoefficientsExample(fit: Fit, months: seq<Date>)
    requires |months| == 3
    requires fit(NormalizedIndices(3), [10.0, 12.0, 14.0], 2) == Some([10.0, 4.0, 0.0])
    ensures EvaluateAsWritten([10.0, 4.0, 0.0], NextNormalizedIndex(3)) == 28.5
    ensures PredictWithPolynomialRegression(fit, months, [10.0, 12.0, 14.0], DefaultDegree) == Ok(14.0)
  {
    EvaluateAsWrittenIsHorner([10.0, 4.0, 0.0], 1.5);
    assert Horner([10.0, 4.0, 0.0], 1.5) == 28.5 by {
      assert [10.0, 4.0, 0.0][..2] == [10.0, 4.0];
      assert [10.0, 4.0][..1] == [10.0];
      assert [10.0][..0] == [];
    }
  }
}
