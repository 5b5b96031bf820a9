/**
 * `calculateTrendLine`: an ordinary least-squares line through
 * (period ordinal minus the smallest ordinal, price), with its R².
 *
 * Arithmetic is exact (reals). Where the source divides zero by zero the
 * result is NaN; the lemmas SlopeQuotientIsZeroOverZero and
 * R2QuotientIsZeroOverZero show that no other division by zero occurs, so
 * JavaScript's infinities never arise.
 */
module Trend {
  import opened Js
  import opened Records
  import opened RealSeqs

  datatype TrendLine = TrendLine(slope: Num, intercept: Num, r2: Num)

  /** The neutral result for too few points or an unparseable period. */
  const ZeroLine := TrendLine(Finite(0.0), Finite(0.0), Finite(0.0))

  // ------------------------------------------------------------ ordinals

  /**
   * `convertTimeToMonths`: `year*12 + month - 1` for `YYYY-MM`, and
   * `year*12 + (quarter-1)*3` for `YYYY-Qk`; None where the source gets NaN.
   * A label without '-' is None here, whereas the source would throw on
   * `parts[1].substring(1)` in quarter mode; no such label reaches it,
   * since every `FormatDate` label holds a dash.
   */
  function Ordinal(period: string, mode: PeriodType): Option<int>
  {
    var year := ParseInt(FirstField(period));
    var second := SecondField(period);
    if year.None? || second.None? then None
    else
      match mode
      case Month =>
        (match ParseInt(second.value)
         case None => None
         case Some(m) => Some(year.value * 12 + m - 1))
      case Quarter =>
        (match ParseInt(Rest(second.value))
         case None => None
         case Some(q) => Some(year.value * 12 + (q - 1) * 3))
  }

  lemma OrdinalFromMonthFields(period: string, year: string, mm: string)
    requires year != [] && AllDigits(year) && mm != [] && AllDigits(mm)
    requires FirstField(period) == year && SecondField(period) == Some(mm)
    ensures Ordinal(period, Month) == Some(DigitsValue(year) * 12 + DigitsValue(mm) - 1)
  {
  }

  lemma OrdinalFromQuarterFields(period: string, year: string, field: string, q: string)
    requires year != [] && AllDigits(year) && q != [] && AllDigits(q)
    requires FirstField(period) == year && SecondField(period) == Some(field) && Rest(field) == q
    ensures Ordinal(period, Quarter) == Some(DigitsValue(year) * 12 + (DigitsValue(q) - 1) * 3)
  {
  }

  /** A month label `Y-MM` of digits converts to `Y*12 + MM - 1`. */
  lemma OrdinalOfMonthLabel(year: string, mm: string)
    requires year != [] && AllDigits(year) && mm != [] && AllDigits(mm)
    ensures Ordinal(year + "-" + mm, Month) == Some(DigitsValue(year) * 12 + DigitsValue(mm) - 1)
  {
    DigitsHaveNoDash(year);
    DigitsHaveNoDash(mm);
    SplitJoin(year, mm);
    OrdinalFromMonthFields(year + "-" + mm, year, mm);
  }

  /** A quarter label `Y-Qk` of digits converts to `Y*12 + (k-1)*3`, the quarter's first month. */
  lemma OrdinalOfQuarterLabel(year: string, q: string)
    requires year != [] && AllDigits(year) && q != [] && AllDigits(q)
    ensures Ordinal(year + "-Q" + q, Quarter) == Some(DigitsValue(year) * 12 + (DigitsValue(q) - 1) * 3)
  {
    DigitsHaveNoDash(year);
    DigitsHaveNoDash(q);
    var field := "Q" + q;
    assert year + "-Q" + q == year + "-" + field;
    SplitJoin(year, field);
    assert Rest(field) == q;
    OrdinalFromQuarterFields(year + "-" + field, year, field, q);
  }

  lemma DateDigits(date: string)
    requires |date| >= 6 && AllDigits(date[..6])
    ensures date[..4] != [] && AllDigits(date[..4])
    ensures date[4..6] != [] && AllDigits(date[4..6])
  {
    assert forall i :: 0 <= i < 4 ==> date[..4][i] == date[..6][i];
    assert forall i :: 0 <= i < 2 ==> date[4..6][i] == date[..6][4 + i];
  }

  /** The month label of a digit date converts back to its month ordinal `Y*12 + M - 1`. */
  lemma OrdinalOfMonthDate(date: string)
    requires |date| >= 6 && AllDigits(date[..6])
    ensures Ordinal(FormatDate(date, Month), Month)
         == Some(DigitsValue(date[..4]) * 12 + DigitsValue(date[4..6]) - 1)
  {
    hide *;
    DateDigits(date);
    FormatDateMonth(date);
    OrdinalOfMonthLabel(date[..4], date[4..6]);
  }

  /**
   * The quarter label of a digit date converts back to the first month of
   * its quarter, `Y*12 + (ceil(M/3) - 1)*3`.
   */
  lemma OrdinalOfQuarterDate(date: string)
    requires |date| >= 6 && AllDigits(date[..6])
    ensures Ordinal(FormatDate(date, Quarter), Quarter)
         == Some(DigitsValue(date[..4]) * 12 + (QuarterOf(DigitsValue(date[4..6])) - 1) * 3)
  {
    hide *;
    DateDigits(date);
    FormatDateQuarter(date);
    var q := NatToString(QuarterOf(DigitsValue(date[4..6])));
    OrdinalOfQuarterLabel(date[..4], q);
  }

  function Ordinals(labels: seq<string>, mode: PeriodType): (r: seq<Option<int>>)
    ensures |r| == |labels|
  {
    seq(|labels|, i requires 0 <= i < |labels| => Ordinal(labels[i], mode))
  }

  predicate AllParsed(ords: seq<Option<int>>)
  {
    forall i :: 0 <= i < |ords| ==> ords[i].Some?
  }

  function Values(ords: seq<Option<int>>): (ts: seq<int>)
    requires AllParsed(ords)
    ensures |ts| == |ords|
  {
    seq(|ords|, i requires 0 <= i < |ords| => ords[i].value)
  }

  function MinInt(ts: seq<int>): (m: int)
    requires |ts| > 0
    ensures forall i :: 0 <= i < |ts| ==> m <= ts[i]
    ensures exists i :: 0 <= i < |ts| && ts[i] == m
  {
    if |ts| == 1 then ts[0]
    else
      var rest := MinInt(ts[1..]);
      if ts[0] <= rest then ts[0] else rest
  }

  /** `timeValues.map(t => t - minTime)`. */
  function RelativeTimes(ts: seq<int>): (xs: seq<real>)
    requires |ts| > 0
    ensures |xs| == |ts|
  {
    var lo := MinInt(ts);
    seq(|ts|, i requires 0 <= i < |ts| => (ts[i] - lo) as real)
  }

  /** Every relative time is non-negative and the earliest one is exactly 0. */
  lemma RelativeTimesBounds(ts: seq<int>)
    requires |ts| > 0
    ensures forall i :: 0 <= i < |ts| ==> RelativeTimes(ts)[i] >= 0.0
    ensures exists i :: 0 <= i < |ts| && RelativeTimes(ts)[i] == 0.0
  {
    var i :| 0 <= i < |ts| && ts[i] == MinInt(ts);
    assert RelativeTimes(ts)[i] == 0.0;
  }


  // --------------------------------------------------------------- sums

  function Dot(xs: seq<real>, ys: seq<real>): real
    requires |xs| == |ys|
  {
    if xs == [] then 0.0 else xs[0] * ys[0] + Dot(xs[1..], ys[1..])
  }

  /** Sum of `(x - m) * (y - c)`. */
  function Centered(xs: seq<real>, ys: seq<real>, m: real, c: real): real
    requires |xs| == |ys|
  {
    if xs == [] then 0.0 else (xs[0] - m) * (ys[0] - c) + Centered(xs[1..], ys[1..], m, c)
  }

  /** `Math.pow(d, 2)`. */
  function Square(d: real): real
  {
    d * d
  }

  /** Sum of `Math.pow(y - c, 2)`. */
  function SqDev(ys: seq<real>, c: real): real
  {
    if ys == [] then 0.0 else Square(ys[0] - c) + SqDev(ys[1..], c)
  }

  /** Sum of `Math.pow(y - (slope * x + intercept), 2)`. */
  function Residual(xs: seq<real>, ys: seq<real>, slope: real, intercept: real): real
    requires |xs| == |ys|
  {
    if xs == [] then 0.0
    else Square(ys[0] - (slope * xs[0] + intercept)) + Residual(xs[1..], ys[1..], slope, intercept)
  }

  /** Squared deviation of a list from its own mean. */
  function DevSquares(s: seq<real>): real
    requires |s| > 0
  {
    SqDev(s, Mean(s))
  }

  /** `n * sumXY - sumX * sumY`. */
  function SlopeNumerator(xs: seq<real>, ys: seq<real>): real
    requires |xs| == |ys|
  {
    (|xs| as real) * Dot(xs, ys) - Sum(xs) * Sum(ys)
  }

  /** `n * sumXX - sumX * sumX`. */
  function SlopeDenominator(xs: seq<real>): real
  {
    (|xs| as real) * Dot(xs, xs) - Sum(xs) * Sum(xs)
  }

  // ---------------------------------------------------------------- fit

  predicate Fittable(xs: seq<real>, ys: seq<real>)
  {
    |xs| == |ys| > 0 && SlopeDenominator(xs) != 0.0
  }

  function FitSlope(xs: seq<real>, ys: seq<real>): real
    requires Fittable(xs, ys)
  {
    SlopeNumerator(xs, ys) / SlopeDenominator(xs)
  }

  /** `(sumY - slope * sumX) / n`. */
  function FitIntercept(xs: seq<real>, ys: seq<real>): real
    requires Fittable(xs, ys)
  {
    (Sum(ys) - FitSlope(xs, ys) * Sum(xs)) / (|ys| as real)
  }

  /** `ssTotal`: squared deviation of the prices from their mean. */
  function SSTotal(ys: seq<real>): real
    requires |ys| > 0
  {
    DevSquares(ys)
  }

  /** `ssResidual`: squared deviation of the prices from the fitted line. */
  function SSResidual(xs: seq<real>, ys: seq<real>): real
    requires Fittable(xs, ys)
  {
    Residual(xs, ys, FitSlope(xs, ys), FitIntercept(xs, ys))
  }

  /**
   * The least-squares fit on relative times `xs` and prices `ys`: all NaN
   * when the slope's denominator is zero, and R² NaN when `ssTotal` is zero.
   */
  function Fit(xs: seq<real>, ys: seq<real>): TrendLine
    requires |xs| == |ys| > 0
  {
    if SlopeDenominator(xs) == 0.0 then TrendLine(NaN, NaN, NaN)
    else
      TrendLine(
        Finite(FitSlope(xs, ys)),
        Finite(FitIntercept(xs, ys)),
        if SSTotal(ys) == 0.0 then NaN else Finite(1.0 - SSResidual(xs, ys) / SSTotal(ys)))
  }

  /**
   * `calculateTrendLine(prices, timePoints, periodType)`: zeros for fewer
   * than two prices or an unparseable period, otherwise the least-squares
   * fit on relative ordinals.
   */
  function CalculateTrendLine(prices: seq<real>, periods: seq<string>, mode: PeriodType): (r: TrendLine)
    requires |prices| == |periods|
    ensures |prices| < 2 ==> r == ZeroLine
    ensures |prices| >= 2 && !AllParsed(Ordinals(periods, mode)) ==> r == ZeroLine
    ensures r.slope.Finite? <==> r.intercept.Finite?
    ensures r.r2.Finite? ==> r.slope.Finite?
  {
    if |prices| < 2 then ZeroLine
    else
      var ords := Ordinals(periods, mode);
      if !AllParsed(ords) then ZeroLine
      else Fit(RelativeTimes(Values(ords)), prices)
  }

  // ---------------------------------------------------- scalar algebra

  lemma ProductPositive(d: real, f: real, e: real)
    requires d > 0.0 && f > 0.0 && e == d * f
    ensures e > 0.0
  {
  }

  lemma ProductNonNegative(d: real, f: real, e: real)
    requires d >= 0.0 && f >= 0.0 && e == d * f
    ensures e >= 0.0
  {
  }

  lemma SquareNonNegative(d: real)
    ensures Square(d) >= 0.0
  {
    if d >= 0.0 {
      ProductNonNegative(d, d, Square(d));
    } else {
      ProductNonNegative(-d, -d, Square(d));
    }
  }

  lemma SquareZero(d: real)
    requires Square(d) == 0.0
    ensures d == 0.0
  {
    if d > 0.0 {
      ProductPositive(d, d, Square(d));
    } else if d < 0.0 {
      ProductPositive(-d, -d, Square(d));
    }
  }

  lemma CancelFactor(n: real, v: real, total: real, quotient: real)
    requires n != 0.0 && total == n * v && quotient == total / n
    ensures quotient == v
  {
  }

  lemma MeanTimesCount(s: seq<real>)
    requires |s| > 0
    ensures Mean(s) * (|s| as real) == Sum(s)
  {
  }

  lemma CenteredStep(x: real, y: real, m: real, c: real, n: real, rest: real, dot: real, sx: real, sy: real,
                     total: real, dotAll: real, sxAll: real, syAll: real, nAll: real)
    requires rest == dot - c * sx - m * sy + n * (m * c)
    requires total == (x - m) * (y - c) + rest
    requires dotAll == x * y + dot && sxAll == x + sx && syAll == y + sy && nAll == n + 1.0
    ensures total == dotAll - c * sxAll - m * syAll + nAll * (m * c)
  {
  }

  lemma DenominatorAlgebra(n: real, sx: real, sxx: real, m: real, q: real, den: real)
    requires m * n == sx
    requires q == sxx - m * sx - m * sx + n * (m * m)
    requires den == n * sxx - sx * sx
    ensures den == n * q
  {
    assert n * (m * sx) == sx * sx;
    assert n * (n * (m * m)) == sx * sx;
  }

  lemma NumeratorAlgebra(n: real, sx: real, sy: real, sxy: real, m: real, c: real, q: real, num: real)
    requires m * n == sx && c * n == sy
    requires q == sxy - c * sx - m * sy + n * (m * c)
    requires num == n * sxy - sx * sy
    ensures num == n * q
  {
    assert n * (c * sx) == sx * sy;
    assert n * (m * sy) == sx * sy;
    assert n * (n * (m * c)) == sx * sy;
  }

  // ----------------------------------------------------- sum identities

  lemma {:induction false} CenteredExpand(xs: seq<real>, ys: seq<real>, m: real, c: real)
    requires |xs| == |ys|
    ensures Centered(xs, ys, m, c) == Dot(xs, ys) - c * Sum(xs) - m * Sum(ys) + (|xs| as real) * (m * c)
  {
    if xs != [] {
      CenteredExpand(xs[1..], ys[1..], m, c);
      CenteredExpandStep(xs, ys, m, c);
    }
  }

  /** The inductive step of `CenteredExpand`: the identity for the tail gives it for the whole list. */
  lemma CenteredExpandStep(xs: seq<real>, ys: seq<real>, m: real, c: real)
    requires |xs| == |ys| > 0
    requires Centered(xs[1..], ys[1..], m, c)
          == Dot(xs[1..], ys[1..]) - c * Sum(xs[1..]) - m * Sum(ys[1..]) + (|xs[1..]| as real) * (m * c)
    ensures Centered(xs, ys, m, c) == Dot(xs, ys) - c * Sum(xs) - m * Sum(ys) + (|xs| as real) * (m * c)
  {
    hide Centered;
    hide Dot;
    hide Sum;
    SumsUnfold(xs, ys, m, c);
    CenteredStep(xs[0], ys[0], m, c, |xs[1..]| as real, Centered(xs[1..], ys[1..], m, c),
                 Dot(xs[1..], ys[1..]), Sum(xs[1..]), Sum(ys[1..]),
                 Centered(xs, ys, m, c), Dot(xs, ys), Sum(xs), Sum(ys), |xs| as real);
  }

  /** One step of each of the sums `Centered`, `Dot` and `Sum`. */
  lemma SumsUnfold(xs: seq<real>, ys: seq<real>, m: real, c: real)
    requires |xs| == |ys| > 0
    ensures Centered(xs, ys, m, c) == (xs[0] - m) * (ys[0] - c) + Centered(xs[1..], ys[1..], m, c)
    ensures Dot(xs, ys) == xs[0] * ys[0] + Dot(xs[1..], ys[1..])
    ensures Sum(xs) == xs[0] + Sum(xs[1..]) && Sum(ys) == ys[0] + Sum(ys[1..])
  {
  }

  lemma {:induction false} SqDevIsCentered(ys: seq<real>, c: real)
    ensures SqDev(ys, c) == Centered(ys, ys, c, c)
  {
    if ys != [] { SqDevIsCentered(ys[1..], c); }
  }

  lemma {:induction false} SqDevNonNegative(ys: seq<real>, c: real)
    ensures SqDev(ys, c) >= 0.0
  {
    if ys != [] {
      SqDevNonNegative(ys[1..], c);
      SquareNonNegative(ys[0] - c);
    }
  }

  lemma {:induction false} ResidualNonNegative(xs: seq<real>, ys: seq<real>, b: real, a: real)
    requires |xs| == |ys|
    ensures Residual(xs, ys, b, a) >= 0.0
  {
    if xs != [] {
      ResidualNonNegative(xs[1..], ys[1..], b, a);
      SquareNonNegative(ys[0] - (b * xs[0] + a));
    }
  }

  lemma {:induction false} SqDevZero(ys: seq<real>, c: real)
    requires SqDev(ys, c) == 0.0
    ensures forall i :: 0 <= i < |ys| ==> ys[i] == c
  {
    if ys != [] {
      SqDevNonNegative(ys[1..], c);
      SquareNonNegative(ys[0] - c);
      SquareZero(ys[0] - c);
      SqDevZero(ys[1..], c);
      assert forall i :: 1 <= i < |ys| ==> ys[i] == ys[1..][i - 1];
    }
  }

  lemma {:induction false} SqDevOfConstant(ys: seq<real>, c: real)
    requires forall i :: 0 <= i < |ys| ==> ys[i] == c
    ensures SqDev(ys, c) == 0.0
  {
    if ys != [] {
      SqDevOfConstant(ys[1..], c);
    }
  }

  lemma SumOfConstant(ys: seq<real>, c: real)
    requires forall i :: 0 <= i < |ys| ==> ys[i] == c
    ensures Sum(ys) == (|ys| as real) * c
  {
    OnLineOfConstant(ys, ys, c);
    SumAffine(ys, ys, c, 0.0);
  }

  lemma {:induction false} CenteredOfConstant(xs: seq<real>, ys: seq<real>, m: real, c: real)
    requires |xs| == |ys|
    requires forall i :: 0 <= i < |xs| ==> xs[i] == m
    ensures Centered(xs, ys, m, c) == 0.0
  {
    if xs != [] {
      CenteredOfConstant(xs[1..], ys[1..], m, c);
    }
  }

  predicate Constant(s: seq<real>)
  {
    forall i, j :: 0 <= i < |s| && 0 <= j < |s| ==> s[i] == s[j]
  }

  lemma SqDevZeroIffConstant(s: seq<real>, m: real)
    requires |s| > 0 && m * (|s| as real) == Sum(s)
    ensures SqDev(s, m) == 0.0 <==> Constant(s)
  {
    if SqDev(s, m) == 0.0 {
      SqDevZero(s, m);
    }
    if Constant(s) {
      SumOfConstant(s, s[0]);
      assert m == s[0];
      SqDevOfConstant(s, s[0]);
    }
  }

  /** A list has zero squared deviation from its mean exactly when all its elements are equal. */
  lemma DevSquaresZeroIffConstant(s: seq<real>)
    requires |s| > 0
    ensures DevSquares(s) == 0.0 <==> Constant(s)
    ensures DevSquares(s) >= 0.0
  {
    MeanTimesCount(s);
    SqDevZeroIffConstant(s, Mean(s));
    SqDevNonNegative(s, Mean(s));
  }

  lemma DenominatorAt(xs: seq<real>, m: real, n: real)
    requires n == |xs| as real && m * n == Sum(xs)
    ensures SlopeDenominator(xs) == n * SqDev(xs, m)
  {
    hide Dot;
    hide Sum;
    hide SqDev;
    hide Centered;
    SqDevIsCentered(xs, m);
    CenteredExpand(xs, xs, m, m);
    DenominatorAlgebra(n, Sum(xs), Dot(xs, xs), m, SqDev(xs, m), SlopeDenominator(xs));
  }

  lemma NumeratorAt(xs: seq<real>, ys: seq<real>, m: real, c: real, n: real)
    requires |xs| == |ys|
    requires n == |xs| as real && m * n == Sum(xs) && c * n == Sum(ys)
    ensures SlopeNumerator(xs, ys) == n * Centered(xs, ys, m, c)
  {
    hide Dot;
    hide Sum;
    hide Centered;
    CenteredExpand(xs, ys, m, c);
    NumeratorAlgebra(n, Sum(xs), Sum(ys), Dot(xs, ys), m, c, Centered(xs, ys, m, c), SlopeNumerator(xs, ys));
  }

  /** The slope denominator is `n` times the squared deviation of the times from their mean. */
  lemma DenominatorIsScaledVariance(xs: seq<real>)
    requires |xs| > 0
    ensures SlopeDenominator(xs) == (|xs| as real) * DevSquares(xs)
  {
    MeanTimesCount(xs);
    DenominatorAt(xs, Mean(xs), |xs| as real);
  }

  lemma NumeratorOfConstantTimes(xs: seq<real>, ys: seq<real>, m: real, c: real, n: real)
    requires |xs| == |ys|
    requires n == |xs| as real && m * n == Sum(xs) && c * n == Sum(ys)
    requires forall i :: 0 <= i < |xs| ==> xs[i] == m
    ensures SlopeNumerator(xs, ys) == 0.0
  {
    CenteredOfConstant(xs, ys, m, c);
    NumeratorAt(xs, ys, m, c, n);
  }

  /**
   * The slope's division is by zero exactly when all times coincide, and then
   * its numerator is zero too: the source computes 0/0, i.e. NaN.
   */
  lemma SlopeQuotientIsZeroOverZero(xs: seq<real>, ys: seq<real>)
    requires |xs| == |ys| > 0
    ensures SlopeDenominator(xs) == 0.0 <==> Constant(xs)
    ensures SlopeDenominator(xs) == 0.0 ==> SlopeNumerator(xs, ys) == 0.0
  {
    DenominatorIsScaledVariance(xs);
    DevSquaresZeroIffConstant(xs);
    if SlopeDenominator(xs) == 0.0 {
      MeanTimesCount(xs);
      MeanTimesCount(ys);
      SqDevZero(xs, Mean(xs));
      NumeratorOfConstantTimes(xs, ys, Mean(xs), Mean(ys), |xs| as real);
    }
  }


  // ------------------------------------------------- collinear points

  /** Every price lies on the line `a + b*x` at its time. */
  predicate OnLine(xs: seq<real>, ys: seq<real>, a: real, b: real)
    requires |xs| == |ys|
  {
    xs == [] || (ys[0] == a + b * xs[0] && OnLine(xs[1..], ys[1..], a, b))
  }

  lemma {:induction false} OnLineOfConstant(xs: seq<real>, ys: seq<real>, c: real)
    requires |xs| == |ys|
    requires forall i :: 0 <= i < |ys| ==> ys[i] == c
    ensures OnLine(xs, ys, c, 0.0)
  {
    if xs != [] { OnLineOfConstant(xs[1..], ys[1..], c); }
  }

  lemma SumAffineStep(x: real, y: real, a: real, b: real, n: real, sx: real, sy: real,
                      n1: real, sx1: real, sy1: real)
    requires y == a + b * x && sy == n * a + b * sx
    requires n1 == n + 1.0 && sx1 == x + sx && sy1 == y + sy
    ensures sy1 == n1 * a + b * sx1
  {
  }

  /** Prices on a line `a + b*x` sum to `n*a + b*sumX`. */
  lemma {:induction false} SumAffine(xs: seq<real>, ys: seq<real>, a: real, b: real)
    requires |xs| == |ys|
    requires OnLine(xs, ys, a, b)
    ensures Sum(ys) == (|xs| as real) * a + b * Sum(xs)
  {
    if xs != [] {
      SumAffine(xs[1..], ys[1..], a, b);
      SumAffineStep(xs[0], ys[0], a, b, (|xs| - 1) as real, Sum(xs[1..]), Sum(ys[1..]),
                    |xs| as real, Sum(xs), Sum(ys));
    }
  }

  lemma FlatSlope(xs: seq<real>, ys: seq<real>)
    requires Fittable(xs, ys) && SlopeNumerator(xs, ys) == 0.0
    ensures FitSlope(xs, ys) == 0.0
  {
  }

  lemma InterceptAlgebra(n: real, sx: real, sy: real, c: real, intercept: real)
    requires n > 0.0 && sy == n * c && intercept == (sy - 0.0 * sx) / n
    ensures intercept == c
  {
    assert sy - 0.0 * sx == n * c;
  }

  lemma FlatIntercept(xs: seq<real>, ys: seq<real>, c: real)
    requires Fittable(xs, ys) && FitSlope(xs, ys) == 0.0
    requires Sum(ys) == (|ys| as real) * c
    ensures FitIntercept(xs, ys) == c
  {
    InterceptAlgebra(|ys| as real, Sum(xs), Sum(ys), c, FitIntercept(xs, ys));
  }

  lemma {:induction false} ResidualOfExactLine(xs: seq<real>, ys: seq<real>, b: real, a: real)
    requires |xs| == |ys|
    requires OnLine(xs, ys, a, b)
    ensures Residual(xs, ys, b, a) == 0.0
  {
    if xs != [] {
      ResidualOfExactLine(xs[1..], ys[1..], b, a);
    }
  }

  lemma {:induction false} CenteredOfConstantPrices(xs: seq<real>, ys: seq<real>, m: real, c: real)
    requires |xs| == |ys|
    requires forall i :: 0 <= i < |ys| ==> ys[i] == c
    ensures Centered(xs, ys, m, c) == 0.0
  {
    if xs != [] {
      CenteredOfConstantPrices(xs[1..], ys[1..], m, c);
    }
  }

  /** With equal prices the slope's numerator vanishes. */
  lemma ConstantPricesNumerator(xs: seq<real>, ys: seq<real>, c: real)
    requires |xs| == |ys| > 0
    requires forall i :: 0 <= i < |ys| ==> ys[i] == c
    ensures Sum(ys) == (|ys| as real) * c
    ensures SlopeNumerator(xs, ys) == 0.0
  {
    SumOfConstant(ys, c);
    MeanTimesCount(xs);
    CenteredOfConstantPrices(xs, ys, Mean(xs), c);
    NumeratorAt(xs, ys, Mean(xs), c, |xs| as real);
  }

  /** With varying times and equal prices `c`, the fit is the flat line at `c`. */
  lemma ConstantPricesLine(xs: seq<real>, ys: seq<real>, c: real)
    requires Fittable(xs, ys)
    requires forall i :: 0 <= i < |ys| ==> ys[i] == c
    ensures FitSlope(xs, ys) == 0.0 && FitIntercept(xs, ys) == c
  {
    ConstantPricesNumerator(xs, ys, c);
    FlatSlope(xs, ys);
    FlatIntercept(xs, ys, c);
  }

  /** ... and that flat line leaves no residual. */
  lemma ConstantPricesFit(xs: seq<real>, ys: seq<real>, c: real)
    requires Fittable(xs, ys)
    requires forall i :: 0 <= i < |ys| ==> ys[i] == c
    ensures SSResidual(xs, ys) == 0.0
  {
    ConstantPricesLine(xs, ys, c);
    OnLineOfConstant(xs, ys, c);
    ResidualOfExactLine(xs, ys, 0.0, c);
  }

  /**
   * R²'s division is by zero exactly when all prices are equal, and then the
   * residual sum is zero too: the source computes 1 - 0/0, i.e. NaN.
   */
  lemma R2QuotientIsZeroOverZero(xs: seq<real>, ys: seq<real>)
    requires Fittable(xs, ys)
    ensures SSTotal(ys) == 0.0 <==> Constant(ys)
    ensures SSTotal(ys) == 0.0 ==> SSResidual(xs, ys) == 0.0
  {
    DevSquaresZeroIffConstant(ys);
    SlopeQuotientIsZeroOverZero(xs, ys);
    if Constant(ys) {
      ConstantPricesFit(xs, ys, ys[0]);
    }
  }

  // ----------------------------------------------- properties of the fit

  lemma MeanPointAlgebra(n: real, sx: real, sy: real, b: real, a: real)
    requires n > 0.0 && a == (sy - b * sx) / n
    ensures a + b * (sx / n) == sy / n
  {
    assert a * n == sy - b * sx;
    assert (sx / n) * n == sx;
    assert (a + b * (sx / n)) * n == sy;
  }

  /** The fitted line passes through the mean point: `intercept + slope * mean(x) == mean(y)`. */
  lemma FitThroughMeanPoint(xs: seq<real>, ys: seq<real>)
    requires |xs| == |ys| > 0
    requires Fit(xs, ys).slope.Finite?
    ensures Fit(xs, ys).intercept.Finite?
    ensures Fit(xs, ys).intercept.v + Fit(xs, ys).slope.v * Mean(xs) == Mean(ys)
  {
    MeanPointAlgebra(|xs| as real, Sum(xs), Sum(ys), FitSlope(xs, ys), FitIntercept(xs, ys));
  }

  lemma R2AtMostOne(res: real, tot: real)
    requires tot > 0.0 && res >= 0.0
    ensures 1.0 - res / tot <= 1.0
  {
    assert res / tot * tot == res;
  }

  /**
   * With varying times R² is NaN exactly when all prices are equal, and
   * otherwise it is at most 1 (the residual sum is non-negative).
   */
  lemma FitR2(xs: seq<real>, ys: seq<real>)
    requires |xs| == |ys| > 0
    requires Fit(xs, ys).slope.Finite?
    ensures Fit(xs, ys).r2.Finite? <==> !Constant(ys)
    ensures Fit(xs, ys).r2.Finite? ==> Fit(xs, ys).r2.v <= 1.0
  {
    DevSquaresZeroIffConstant(ys);
    if SSTotal(ys) != 0.0 {
      ResidualNonNegative(xs, ys, FitSlope(xs, ys), FitIntercept(xs, ys));
      R2AtMostOne(SSResidual(xs, ys), SSTotal(ys));
    }
  }

  // ------------------------------------------------ collinear points fit

  lemma CenteredOnLineStep(d: real, b: real, yd: real, rest: real, restSq: real, total: real, totalSq: real)
    requires yd == b * d && rest == b * restSq
    requires total == d * yd + rest && totalSq == d * d + restSq
    ensures total == b * totalSq
  {
    assert d * yd == b * (d * d);
  }

  /**
   * For prices on the line `a + b*x`, centring at `m` and at its height
   * `a + b*m` makes the cross sum `b` times the times' squared deviation.
   */
  lemma {:induction false} CenteredOnLine(xs: seq<real>, ys: seq<real>, a: real, b: real, m: real, c: real)
    requires |xs| == |ys| && OnLine(xs, ys, a, b) && c == a + b * m
    ensures Centered(xs, ys, m, c) == b * Centered(xs, xs, m, m)
  {
    hide Centered, Dot, Sum;
    if xs != [] {
      CenteredOnLine(xs[1..], ys[1..], a, b, m, c);
      SumsUnfold(xs, ys, m, c);
      SumsUnfold(xs, xs, m, m);
      LineDeviation(xs[0], ys[0], a, b, m, c);
      CenteredOnLineStep(xs[0] - m, b, ys[0] - c, Centered(xs[1..], ys[1..], m, c),
                         Centered(xs[1..], xs[1..], m, m),
                         Centered(xs, ys, m, c), Centered(xs, xs, m, m));
    } else {
      CenteredNil(xs, ys, m, c);
      CenteredNil(xs, xs, m, m);
    }
  }

  lemma CenteredNil(xs: seq<real>, ys: seq<real>, m: real, c: real)
    requires xs == [] && ys == []
    ensures Centered(xs, ys, m, c) == 0.0
  {
  }

  lemma LineDeviation(x: real, y: real, a: real, b: real, m: real, c: real)
    requires y == a + b * x && c == a + b * m
    ensures y - c == b * (x - m)
  {
  }

  lemma LineMeanAlgebra(n: real, a: real, b: real, m: real, sx: real, sy: real, c: real)
    requires m * n == sx && sy == n * a + b * sx && c == a + b * m
    ensures c * n == sy
  {
  }

  lemma SlopeOfLineAlgebra(n: real, b: real, sq: real, num: real, den: real, slope: real)
    requires num == n * (b * sq) && den == n * sq && den != 0.0 && slope == num / den
    ensures slope == b
  {
    assert num == b * den;
  }

  lemma InterceptOfLineAlgebra(n: real, a: real, b: real, sx: real, sy: real, intercept: real)
    requires n > 0.0 && sy == n * a + b * sx && intercept == (sy - b * sx) / n
    ensures intercept == a
  {
    assert sy - b * sx == n * a;
  }

  /** Prices exactly on `a + b*x` at varying times: the slope is `b`. */
  lemma CollinearSlope(xs: seq<real>, ys: seq<real>, a: real, b: real)
    requires Fittable(xs, ys) && OnLine(xs, ys, a, b)
    ensures FitSlope(xs, ys) == b
  {
    hide Sum, Dot, Centered, SqDev, Residual, Mean, OnLine;
    var n := |xs| as real;
    var m := Mean(xs);
    var c := a + b * m;
    MeanTimesCount(xs);
    SumAffine(xs, ys, a, b);
    LineMeanAlgebra(n, a, b, m, Sum(xs), Sum(ys), c);
    NumeratorAt(xs, ys, m, c, n);
    CenteredOnLine(xs, ys, a, b, m, c);
    SqDevIsCentered(xs, m);
    DenominatorAt(xs, m, n);
    SlopeOfLineAlgebra(n, b, SqDev(xs, m), SlopeNumerator(xs, ys), SlopeDenominator(xs), FitSlope(xs, ys));
  }

  /** Prices exactly on `a + b*x` at varying times: the fit recovers slope `b`, intercept `a` and no residual. */
  lemma CollinearLine(xs: seq<real>, ys: seq<real>, a: real, b: real)
    requires Fittable(xs, ys) && OnLine(xs, ys, a, b)
    ensures FitSlope(xs, ys) == b && FitIntercept(xs, ys) == a
    ensures SSResidual(xs, ys) == 0.0
  {
    hide Sum, Dot, Centered, SqDev, Residual, Mean, OnLine, SlopeNumerator, SlopeDenominator;
    CollinearSlope(xs, ys, a, b);
    SumAffine(xs, ys, a, b);
    InterceptOfLineAlgebra(|ys| as real, a, b, Sum(xs), Sum(ys), FitIntercept(xs, ys));
    ResidualOfExactLine(xs, ys, b, a);
  }

  /**
   * Prices exactly on the line `a + b*x` at varying times: the fit recovers
   * slope `b` and intercept `a` and leaves no residual, so R² is 1 unless
   * all prices are equal (then `ssTotal` is zero and R² is NaN).
   */
  lemma CollinearFit(xs: seq<real>, ys: seq<real>, a: real, b: real)
    requires |xs| == |ys| > 0 && !Constant(xs) && OnLine(xs, ys, a, b)
    ensures Fittable(xs, ys)
    ensures FitSlope(xs, ys) == b && FitIntercept(xs, ys) == a
    ensures SSResidual(xs, ys) == 0.0
    ensures !Constant(ys) ==> Fit(xs, ys) == TrendLine(Finite(b), Finite(a), Finite(1.0))
  {
    hide Sum, Dot, Centered, SqDev, Residual, Mean, OnLine, DevSquares, Constant,
      FitSlope, FitIntercept, SSResidual, SlopeNumerator;
    SlopeQuotientIsZeroOverZero(xs, ys);
    CollinearLine(xs, ys, a, b);
    DevSquaresZeroIffConstant(ys);
  }

  lemma LineThroughTwo(x0: real, x1: real, y0: real, y1: real, b: real, a: real)
    requires x0 != x1 && b == (y1 - y0) / (x1 - x0) && a == y0 - b * x0
    ensures y0 == a + b * x0 && y1 == a + b * x1
  {
    assert b * (x1 - x0) == y1 - y0;
  }

  lemma OnLineOfTwo(xs: seq<real>, ys: seq<real>, a: real, b: real)
    requires |xs| == |ys| == 2 && ys[0] == a + b * xs[0] && ys[1] == a + b * xs[1]
    ensures OnLine(xs, ys, a, b)
  {
    assert xs[1..][1..] == [];
  }

  /**
   * Two prices at two different times always lie on one line: the fit is
   * that line, and R² is 1 when the prices differ.
   */
  lemma TwoPointsFit(xs: seq<real>, ys: seq<real>)
    requires |xs| == |ys| == 2 && xs[0] != xs[1]
    ensures var b := (ys[1] - ys[0]) / (xs[1] - xs[0]);
      Fit(xs, ys).slope == Finite(b) && Fit(xs, ys).intercept == Finite(ys[0] - b * xs[0])
    ensures ys[0] != ys[1] <==> Fit(xs, ys).r2 == Finite(1.0)
    ensures ys[0] == ys[1] ==> Fit(xs, ys).r2 == NaN
  {
    hide Sum, Dot, Centered, SqDev, Residual, Mean, DevSquares;
    var b := (ys[1] - ys[0]) / (xs[1] - xs[0]);
    var a := ys[0] - b * xs[0];
    LineThroughTwo(xs[0], xs[1], ys[0], ys[1], b, a);
    OnLineOfTwo(xs, ys, a, b);
    assert !Constant(xs) by { assert xs[0] != xs[1]; }
    CollinearFit(xs, ys, a, b);
    if ys[0] == ys[1] {
      assert Constant(ys);
      DevSquaresZeroIffConstant(ys);
    } else {
      assert !Constant(ys) by { assert ys[0] != ys[1]; }
    }
  }

  /**
   * `calculateTrendLine` on two periods that convert to different months:
   * R² is 1 exactly when the two prices differ, and NaN when they are equal.
   */
  lemma TwoPeriodsR2(prices: seq<real>, periods: seq<string>, mode: PeriodType)
    requires |prices| == |periods| == 2
    requires AllParsed(Ordinals(periods, mode))
    requires Values(Ordinals(periods, mode))[0] != Values(Ordinals(periods, mode))[1]
    ensures prices[0] != prices[1] <==> CalculateTrendLine(prices, periods, mode).r2 == Finite(1.0)
    ensures prices[0] == prices[1] ==> CalculateTrendLine(prices, periods, mode).r2 == NaN
  {
    var ts := Values(Ordinals(periods, mode));
    var xs := RelativeTimes(ts);
    assert xs[0] == (ts[0] - MinInt(ts)) as real && xs[1] == (ts[1] - MinInt(ts)) as real;
    TwoPointsFit(xs, prices);
  }

  /**
   * Documented example: relative times 0, 1, 2 with prices 1000000,
   * 1100000, 1200000 give slope 100000, intercept 1000000 and R² 1.
   */
  lemma FitExample()
    ensures Fit([0.0, 1.0, 2.0], [1000000.0, 1100000.0, 1200000.0])
         == TrendLine(Finite(100000.0), Finite(1000000.0), Finite(1.0))
  {
    var xs := [0.0, 1.0, 2.0];
    var ys := [1000000.0, 1100000.0, 1200000.0];
    assert xs[1..] == [1.0, 2.0] && xs[1..][1..] == [2.0] && xs[1..][1..][1..] == [];
    assert ys[1..] == [1100000.0, 1200000.0] && ys[1..][1..] == [1200000.0] && ys[1..][1..][1..] == [];
    assert Sum(xs) == 3.0 && Sum(ys) == 3300000.0;
    assert Dot(xs, xs) == 5.0 && Dot(xs, ys) == 3500000.0;
    assert FitSlope(xs, ys) == 100000.0;
    assert FitIntercept(xs, ys) == 1000000.0;
    assert Residual(xs, ys, 100000.0, 1000000.0) == 0.0;
    assert Mean(ys) == 1100000.0;
    assert SSTotal(ys) == 20000000000.0;
  }
}
