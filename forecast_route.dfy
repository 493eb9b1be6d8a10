/** The forecast endpoint's own model: a least-squares trend over the index
    positions of the date-ordered history, monthly seasonal factors from the
    detrended values, a residual spread, and `periods` dated points with a
    symmetric band. `Math.random()` is one given draw in [0, 1) per point and
    `Math.sqrt` a parameter. Also the ZIP-code fallback of the handler. */
module ForecastRoute {
  import opened Common

  const DefaultEtsPeriods: nat := 12
  const AvailableZipCodes: seq<string> := ["10001", "10002", "10003"]

  /** A row of `historical_procedure_costs` as the endpoint selects it. */
  datatype Observation = Observation(date: YearMonth, averageCost: real, costTrend: string)

  function DateKey(o: Observation): real
  {
    MonthIndex(o.date) as real
  }

  /** `[...historicalData].sort(by date)`: a sorted copy, the input untouched. */
  function SortByDate(history: seq<Observation>): (sorted: seq<Observation>)
    ensures |sorted| == |history|
  {
    SortBy(history, DateKey)
  }

  /** The copy holds the same observations, in ascending date order. */
  lemma SortByDateOrdersByDate(history: seq<Observation>)
    ensures multiset(SortByDate(history)) == multiset(history)
    ensures forall i, j :: 0 <= i < j < |history| ==>
      MonthIndex(SortByDate(history)[i].date) <= MonthIndex(SortByDate(history)[j].date)
  {
    var sorted := SortByDate(history);
    assert forall i, j :: 0 <= i < j < |sorted| ==> DateKey(sorted[i]) <= DateKey(sorted[j]);
  }

  /** The copy is stable: observations of the same month keep the order they
      had in the history. */
  lemma SortByDateIsStable(history: seq<Observation>, d: YearMonth, sameMonth: Observation -> bool)
    requires forall o :: sameMonth(o) <==> o.date == d
    ensures Keep(SortByDate(history), sameMonth) == Keep(history, sameMonth)
  {
    forall o
      ensures sameMonth(o) <==> DateKey(o) == MonthIndex(d) as real
    {
      if DateKey(o) == MonthIndex(d) as real {
        MonthIndexIsInjective(o.date, d);
      }
    }
    SortByIsStable(history, DateKey, sameMonth, MonthIndex(d) as real);
  }

  /** The `average_cost` column of an observation. */
  function ObservedCost(o: Observation): real
  {
    o.averageCost
  }

  function MonthsOf(s: seq<Observation>): (months: seq<Month>)
    ensures |months| == |s|
    ensures forall i :: 0 <= i < |s| ==> months[i] == s[i].date.month
  {
    seq(|s|, i requires 0 <= i < |s| => s[i].date.month)
  }

  // ---------------------------------------------------------------------
  // Least-squares trend over the positions 0 .. n-1

  /** The mean position (n - 1) / 2. */
  function XMean(n: nat): real
  {
    (n as real - 1.0) / 2.0
  }

  /** (i - xMean) * (costs[i] - yMean), the numerator's term for position i. */
  function CrossTerm(costs: seq<real>, xMean: real, yMean: real, i: nat): real
    requires i < |costs|
  {
    (i as real - xMean) * (costs[i] - yMean)
  }

  /** (i - xMean)^2, the denominator's term for position i. */
  function SquareTerm(xMean: real, i: nat): (r: real)
    ensures r >= 0.0
  {
    SquareIsNonNegative(i as real - xMean);
    (i as real - xMean) * (i as real - xMean)
  }

  /** Sum over i < k of (i - xMean) * (costs[i] - yMean). */
  function CrossSum(costs: seq<real>, xMean: real, yMean: real, k: nat): real
    requires k <= |costs|
  {
    if k == 0 then 0.0
    else CrossSum(costs, xMean, yMean, k - 1) + CrossTerm(costs, xMean, yMean, k - 1)
  }

  /** Sum over i < k of (i - xMean)^2. */
  function SquareSum(xMean: real, k: nat): (r: real)
    ensures r >= 0.0
  {
    if k == 0 then 0.0
    else SquareSum(xMean, k - 1) + SquareTerm(xMean, k - 1)
  }

  lemma {:induction false} SquareSumCoversFirstTerm(xMean: real, k: nat)
    requires k >= 1
    ensures SquareSum(xMean, k) >= xMean * xMean
  {
    if k > 1 {
      SquareSumCoversFirstTerm(xMean, k - 1);
    }
  }

  /** With two or more positions the positions are not all at their mean. */
  lemma SquareSumPositive(n: nat)
    requires n >= 2
    ensures SquareSum(XMean(n), n) > 0.0
  {
    var x := XMean(n);
    SquareSumCoversFirstTerm(x, n);
    MultiplyStrict(x, 0.0, x);
  }

  /** The least-squares slope of costs against their positions. */
  function Slope(costs: seq<real>): real
    requires |costs| >= 2
  {
    SquareSumPositive(|costs|);
    CrossSum(costs, XMean(|costs|), Mean(costs), |costs|) / SquareSum(XMean(|costs|), |costs|)
  }

  /** The least-squares line passes through (mean position, mean cost). */
  function Intercept(costs: seq<real>): real
    requires |costs| >= 2
  {
    Mean(costs) - Slope(costs) * XMean(|costs|)
  }

  /** The regression loop: accumulates numerator and denominator, then divides. */
  method FitTrend(costs: seq<real>) returns (slope: real, intercept: real)
    requires |costs| >= 2
    ensures slope == Slope(costs)
    ensures intercept == Intercept(costs)
  {
    var n := |costs|;
    var xMean := XMean(n);
    var yMean := Mean(costs);
    var numerator := 0.0;
    var denominator := 0.0;
    var i := 0;
    while i < n
      invariant 0 <= i <= n
      invariant numerator == CrossSum(costs, xMean, yMean, i)
      invariant denominator == SquareSum(xMean, i)
    {
      numerator := numerator + CrossTerm(costs, xMean, yMean, i);
      denominator := denominator + SquareTerm(xMean, i);
      i := i + 1;
    }
    SquareSumPositive(n);
    slope := numerator / denominator;
    intercept := yMean - slope * xMean;
  }

  /** The closed form of the sum below grows by the k-th value a + b * k. */
  lemma LinearSumStep(a: real, b: real, k: nat)
    ensures k as real * a + b * (k as real * XMean(k)) + (a + b * k as real)
      == (k + 1) as real * a + b * ((k + 1) as real * XMean(k + 1))
  {
    var t := k as real;
    assert t * XMean(k) + t == (k + 1) as real * XMean(k + 1);
    assert b * (t * XMean(k)) + b * t == b * (t * XMean(k) + t);
  }

  /** Sum of the first k values of a + b * i. */
  lemma {:induction false} SumOfLinear(costs: seq<real>, a: real, b: real, k: nat)
    requires k <= |costs|
    requires forall i :: 0 <= i < |costs| ==> costs[i] == a + b * i as real
    ensures Sum(costs[..k]) == k as real * a + b * (k as real * XMean(k))
  {
    if k > 0 {
      SumOfLinear(costs, a, b, k - 1);
      assert costs[..k] == costs[..k - 1] + [costs[k - 1]];
      SumAppend(costs[..k - 1], costs[k - 1]);
      LinearSumStep(a, b, k - 1);
    }
  }

  lemma MeanOfLinear(costs: seq<real>, a: real, b: real)
    requires |costs| >= 1
    requires forall i :: 0 <= i < |costs| ==> costs[i] == a + b * i as real
    ensures Mean(costs) == a + b * XMean(|costs|)
  {
    var n := |costs| as real;
    SumOfLinear(costs, a, b, |costs|);
    assert costs[..|costs|] == costs;
    var c := a + b * XMean(|costs|);
    assert Sum(costs) == c * n;
    CancelFactor(c, n, Sum(costs));
  }

  /** Where the cost deviates from its mean by b times the position's
      deviation, the cross term is b times the square term. */
  lemma CrossTermOfLinear(costs: seq<real>, xMean: real, yMean: real, b: real, i: nat)
    requires i < |costs| && costs[i] - yMean == b * (i as real - xMean)
    ensures CrossTerm(costs, xMean, yMean, i) == b * SquareTerm(xMean, i)
  {
    var d := i as real - xMean;
    assert d * (b * d) == b * (d * d);
  }

  lemma {:induction false} CrossSumOfLinear(costs: seq<real>, xMean: real, yMean: real, b: real, k: nat)
    requires k <= |costs|
    requires forall i :: 0 <= i < |costs| ==> costs[i] - yMean == b * (i as real - xMean)
    ensures CrossSum(costs, xMean, yMean, k) == b * SquareSum(xMean, k)
  {
    if k > 0 {
      CrossSumOfLinear(costs, xMean, yMean, b, k - 1);
      CrossTermOfLinear(costs, xMean, yMean, b, k - 1);
    }
  }

  /** On costs a + b * i with mean a + b * xMean, each cost deviates from the
      mean by b times its position's deviation. */
  lemma DeviationsOfLinear(costs: seq<real>, a: real, b: real, xMean: real, yMean: real)
    requires yMean == a + b * xMean
    requires forall i :: 0 <= i < |costs| ==> costs[i] == a + b * i as real
    ensures forall i :: 0 <= i < |costs| ==> costs[i] - yMean == b * (i as real - xMean)
  {
    forall i | 0 <= i < |costs|
      ensures costs[i] - yMean == b * (i as real - xMean)
    {
      assert b * (i as real - xMean) == b * i as real - b * xMean;
    }
  }

  /** Costs lying exactly on a + b * i are fitted by slope b and intercept a. */
  lemma LinearCostsAreFittedExactly(costs: seq<real>, a: real, b: real)
    requires |costs| >= 2
    requires forall i :: 0 <= i < |costs| ==> costs[i] == a + b * i as real
    ensures Slope(costs) == b && Intercept(costs) == a
  {
    var n := |costs|;
    var x := XMean(n);
    var y := Mean(costs);
    MeanOfLinear(costs, a, b);
    DeviationsOfLinear(costs, a, b, x, y);
    CrossSumOfLinear(costs, x, y, b, n);
    SquareSumPositive(n);
    CancelFactor(b, SquareSum(x, n), CrossSum(costs, x, y, n));
  }

  /** Constant costs give a flat line at that constant. */
  lemma ConstantCostsGiveFlatFit(costs: seq<real>, c: real)
    requires |costs| >= 2
    requires forall i :: 0 <= i < |costs| ==> costs[i] == c
    ensures Slope(costs) == 0.0 && Intercept(costs) == c
  {
    LinearCostsAreFittedExactly(costs, c, 0.0);
  }

  // ---------------------------------------------------------------------
  // Monthly seasonal factors

  /** The cost at position i minus the fitted line there. */
  function Detrended(costs: seq<real>, slope: real, intercept: real, i: nat): real
    requires i < |costs|
  {
    costs[i] - (slope * i as real + intercept)
  }

  /** The detrended values of the first k positions that fall in month m, in order. */
  function MonthValues(costs: seq<real>, months: seq<Month>, slope: real, intercept: real, m: Month, k: nat): seq<real>
    requires k <= |costs| == |months|
  {
    if k == 0 then []
    else
      MonthValues(costs, months, slope, intercept, m, k - 1)
        + (if months[k - 1] == m then [Detrended(costs, slope, intercept, k - 1)] else [])
  }

  /** A month collects a value exactly when some observation falls in it. */
  lemma {:induction false} MonthValuesEmptyIffNoObservation(costs: seq<real>, months: seq<Month>, slope: real, intercept: real, m: Month, k: nat)
    requires k <= |costs| == |months|
    ensures |MonthValues(costs, months, slope, intercept, m, k)| == 0 <==> forall i :: 0 <= i < k ==> months[i] != m
  {
    if k > 0 {
      MonthValuesEmptyIffNoObservation(costs, months, slope, intercept, m, k - 1);
    }
  }

  /** Observation i adds its detrended value to its own month and to no other. */
  lemma MonthValuesStep(costs: seq<real>, months: seq<Month>, slope: real, intercept: real, i: nat)
    requires i < |costs| == |months|
    ensures forall m :: 0 <= m < 12 && m != months[i] ==>
      MonthValues(costs, months, slope, intercept, m, i + 1) == MonthValues(costs, months, slope, intercept, m, i)
    ensures var m := months[i];
      && Sum(MonthValues(costs, months, slope, intercept, m, i + 1))
           == Sum(MonthValues(costs, months, slope, intercept, m, i)) + Detrended(costs, slope, intercept, i)
      && |MonthValues(costs, months, slope, intercept, m, i + 1)| == |MonthValues(costs, months, slope, intercept, m, i)| + 1
  {
    SumAppend(MonthValues(costs, months, slope, intercept, months[i], i), Detrended(costs, slope, intercept, i));
  }

  /** The factor of month m: the mean of its detrended values, 0 when it has none. */
  function SeasonalFactor(costs: seq<real>, months: seq<Month>, slope: real, intercept: real, m: Month): real
    requires |costs| == |months|
  {
    var values := MonthValues(costs, months, slope, intercept, m, |costs|);
    if |values| == 0 then 0.0 else Mean(values)
  }

  /** The twelve factors, January first. */
  function SeasonalFactorsOf(costs: seq<real>, months: seq<Month>, slope: real, intercept: real): (factors: seq<real>)
    requires |costs| == |months|
    ensures |factors| == 12
  {
    seq(12, m requires 0 <= m < 12 => SeasonalFactor(costs, months, slope, intercept, m))
  }

  /** The first loop: adds each detrended value and a count of one to the
      slots of its month. */
  method AccumulateByMonth(costs: seq<real>, months: seq<Month>, slope: real, intercept: real, sums: array<real>, counts: array<nat>)
    requires |costs| == |months| && sums.Length == 12 && counts.Length == 12
    requires forall m :: 0 <= m < 12 ==> sums[m] == 0.0 && counts[m] == 0
    modifies sums, counts
    ensures forall m :: 0 <= m < 12 ==>
      sums[m] == Sum(MonthValues(costs, months, slope, intercept, m, |costs|))
      && counts[m] == |MonthValues(costs, months, slope, intercept, m, |costs|)|
  {
    var i := 0;
    while i < |costs|
      invariant 0 <= i <= |costs|
      invariant forall m :: 0 <= m < 12 ==>
        sums[m] == Sum(MonthValues(costs, months, slope, intercept, m, i))
        && counts[m] == |MonthValues(costs, months, slope, intercept, m, i)|
    {
      var month := months[i];
      MonthValuesStep(costs, months, slope, intercept, i);
      sums[month] := sums[month] + Detrended(costs, slope, intercept, i);
      counts[month] := counts[month] + 1;
      i := i + 1;
    }
  }

  /** A month no observation falls in keeps factor 0; any other month's
      factor is the mean of the detrended values of its observations. */
  lemma SeasonalFactorIsMonthMean(costs: seq<real>, months: seq<Month>, slope: real, intercept: real, m: Month)
    requires |costs| == |months|
    ensures var factor := SeasonalFactorsOf(costs, months, slope, intercept)[m];
            var values := MonthValues(costs, months, slope, intercept, m, |costs|);
            && (|values| > 0 <==> exists i :: 0 <= i < |costs| && months[i] == m)
            && ((forall i :: 0 <= i < |costs| ==> months[i] != m) ==> factor == 0.0)
            && (|values| > 0 ==> factor * |values| as real == Sum(values))
  {
    MonthValuesEmptyIffNoObservation(costs, months, slope, intercept, m, |costs|);
  }

  /** Builds the factors in two arrays of twelve filled with 0: accumulates,
      then divides every month that has a count. */
  method SeasonalFactors(costs: seq<real>, months: seq<Month>, slope: real, intercept: real) returns (factors: seq<real>)
    requires |costs| == |months|
    ensures factors == SeasonalFactorsOf(costs, months, slope, intercept)
  {
    var sums := new real[12](_ => 0.0);
    var counts := new nat[12](_ => 0);
    AccumulateByMonth(costs, months, slope, intercept, sums, counts);
    var j := 0;
    while j < 12
      invariant 0 <= j <= 12
      invariant forall m :: 0 <= m < j ==> sums[m] == SeasonalFactor(costs, months, slope, intercept, m)
      invariant forall m :: j <= m < 12 ==>
        sums[m] == Sum(MonthValues(costs, months, slope, intercept, m, |costs|))
        && counts[m] == |MonthValues(costs, months, slope, intercept, m, |costs|)|
    {
      if counts[j] > 0 {
        sums[j] := sums[j] / counts[j] as real;
      }
      j := j + 1;
    }
    factors := sums[..];
  }

  /** Where every detrended value is 0, so is every seasonal factor. */
  lemma {:induction false} ZeroDetrendedGivesZeroFactors(costs: seq<real>, months: seq<Month>, slope: real, intercept: real, m: Month, k: nat)
    requires k <= |costs| == |months|
    requires forall i :: 0 <= i < |costs| ==> Detrended(costs, slope, intercept, i) == 0.0
    ensures forall j :: 0 <= j < |MonthValues(costs, months, slope, intercept, m, k)| ==>
      MonthValues(costs, months, slope, intercept, m, k)[j] == 0.0
  {
    if k > 0 {
      ZeroDetrendedGivesZeroFactors(costs, months, slope, intercept, m, k - 1);
    }
  }

  // ---------------------------------------------------------------------
  // Residual spread

  /** `errors`: each cost minus its fitted line value and its month's factor. */
  function Residuals(costs: seq<real>, months: seq<Month>, slope: real, intercept: real, factors: seq<real>): (errors: seq<real>)
    requires |costs| == |months| && |factors| == 12
    ensures |errors| == |costs|
  {
    seq(|costs|, i requires 0 <= i < |costs| => costs[i] - (slope * i as real + intercept + factors[months[i]]))
  }

  /** `errorStd`: the root of the squared residuals over n - 2. For two
      points this is 0 / 0, NaN in JavaScript, written None here (the
      residuals of a two-point fit all vanish, see TwoPointFitIsExact). */
  function ErrorStd(errors: seq<real>, sqrt: real -> real): (sd: Option<real>)
    requires |errors| >= 2 && IsSquareRoot(sqrt)
    ensures sd.None? <==> |errors| == 2
    ensures sd.Some? ==> sd.value >= 0.0
  {
    if |errors| == 2 then None
    else Some(sqrt(SquaredDeviations(errors, 0.0) / (|errors| - 2) as real))
  }

  // ---------------------------------------------------------------------
  // The forecast

  /** Everything `etsForecast` derives from the history before it projects. */
  datatype EtsFit = EtsFit(n: nat, lastDate: YearMonth, slope: real, intercept: real, factors: seq<real>, errorStd: Option<real>)

  /** The fit of a date-ordered history of two or more observations. */
  function FitOfSorted(sorted: seq<Observation>, sqrt: real -> real): (fit: EtsFit)
    requires |sorted| >= 2 && IsSquareRoot(sqrt)
    ensures fit.n == |sorted| && |fit.factors| == 12
    ensures fit.lastDate == sorted[|sorted| - 1].date
    ensures fit.errorStd.None? <==> |sorted| == 2
    ensures fit.errorStd.Some? ==> fit.errorStd.value >= 0.0
  {
    var costs := CostsOf(sorted, ObservedCost);
    var months := MonthsOf(sorted);
    var slope := Slope(costs);
    var intercept := Intercept(costs);
    var factors := SeasonalFactorsOf(costs, months, slope, intercept);
    EtsFit(|sorted|, sorted[|sorted| - 1].date, slope, intercept, factors,
      ErrorStd(Residuals(costs, months, slope, intercept, factors), sqrt))
  }

  /** The fit of a history of two or more observations, in any order. */
  function FitOf(history: seq<Observation>, sqrt: real -> real): EtsFit
    requires |history| >= 2 && IsSquareRoot(sqrt)
  {
    FitOfSorted(SortByDate(history), sqrt)
  }

  /** The last date of the sorted history is the latest date of the history. */
  lemma LastDateIsLatest(history: seq<Observation>)
    requires |history| >= 2
    ensures SortByDate(history)[|history| - 1] in history
    ensures forall o :: o in history ==> MonthIndex(o.date) <= MonthIndex(SortByDate(history)[|history| - 1].date)
  {
    SortByDateOrdersByDate(history);
    var sorted := SortByDate(history);
    var last := sorted[|sorted| - 1];
    assert last in multiset(sorted);
    forall o | o in history
      ensures MonthIndex(o.date) <= MonthIndex(last.date)
    {
      assert o in multiset(history);
      assert o in multiset(sorted);
      var j :| 0 <= j < |sorted| && sorted[j] == o;
    }
  }

  /** One forecast point; a NaN field (two-point history) is None. */
  datatype EtsPoint = EtsPoint(date: YearMonth, cost: Option<real>, lowerBound: Option<real>, upperBound: Option<real>)

  /** The centre of the k-th point (k from 0): the fitted line at position
      n + k plus the factor of the point's month. */
  function Centre(fit: EtsFit, k: nat): real
    requires |fit.factors| == 12
  {
    fit.slope * (fit.n + k) as real + fit.intercept + fit.factors[AddMonths(fit.lastDate, k + 1).month]
  }

  /** The k-th point, with `r` the draw of `Math.random()` for it. */
  function PointAt(fit: EtsFit, k: nat, r: real): EtsPoint
    requires |fit.factors| == 12
  {
    var date := AddMonths(fit.lastDate, k + 1);
    var centre := Centre(fit, k);
    match fit.errorStd
    case None => EtsPoint(date, None, None, None)
    case Some(sd) => EtsPoint(date, Some(centre + RandomError(r, sd)), Some(centre - 1.96 * sd), Some(centre + 1.96 * sd))
  }

  /** `(Math.random() - 0.5) * errorStd` for the draw r. */
  function RandomError(r: real, sd: real): real
  {
    (r - 0.5) * sd
  }

  /** The bounds sit 1.96 spreads either side of the centre, and the point
      estimate, moved by at most half a spread, stays between them. */
  lemma PointLiesInBand(fit: EtsFit, k: nat, r: real)
    requires |fit.factors| == 12 && 0.0 <= r < 1.0
    requires fit.errorStd.Some? ==> fit.errorStd.value >= 0.0
    ensures var p := PointAt(fit, k, r);
            && MonthIndex(p.date) == MonthIndex(fit.lastDate) + k + 1
            && (p.cost.None? <==> fit.errorStd.None?)
            && (p.lowerBound.None? <==> fit.errorStd.None?)
            && (p.upperBound.None? <==> fit.errorStd.None?)
            && (fit.errorStd.Some? ==>
                  var sd := fit.errorStd.value;
                  && Centre(fit, k) - p.lowerBound.value == 1.96 * sd
                  && p.upperBound.value - Centre(fit, k) == 1.96 * sd
                  && -0.5 * sd <= p.cost.value - Centre(fit, k) <= 0.5 * sd
                  && p.lowerBound.value <= p.cost.value <= p.upperBound.value)
  {
    if fit.errorStd.Some? {
      var sd := fit.errorStd.value;
      var p := PointAt(fit, k, r);
      assert p.cost.value - Centre(fit, k) == (r - 0.5) * sd;
      MultiplyMonotone(r - 0.5, -0.5, sd);
      MultiplyMonotone(0.5, r - 0.5, sd);
    }
  }

  /** The points for the given draws, one per period. */
  function EtsPoints(fit: EtsFit, periods: nat, noise: seq<real>): (points: seq<EtsPoint>)
    requires |fit.factors| == 12 && |noise| == periods
    ensures |points| == periods
    ensures forall k :: 0 <= k < periods ==> points[k] == PointAt(fit, k, noise[k])
  {
    seq(periods, k requires 0 <= k < periods => PointAt(fit, k, noise[k]))
  }

  /** The fitting half of `etsForecast`: sorts a copy, then fits. */
  method Fit(history: seq<Observation>, sqrt: real -> real) returns (fit: EtsFit)
    requires |history| >= 2 && IsSquareRoot(sqrt)
    ensures fit == FitOf(history, sqrt)
  {
    var sorted := SortByDate(history);
    fit := FitSorted(sorted, sqrt);
  }

  /** Regresses, builds the seasonal factors and the residual spread. */
  method FitSorted(sorted: seq<Observation>, sqrt: real -> real) returns (fit: EtsFit)
    requires |sorted| >= 2 && IsSquareRoot(sqrt)
    ensures fit == FitOfSorted(sorted, sqrt)
  {
    var costs := CostsOf(sorted, ObservedCost);
    var months := MonthsOf(sorted);
    var n := |costs|;
    var slope, intercept := FitTrend(costs);
    var factors := SeasonalFactors(costs, months, slope, intercept);
    var errors := Residuals(costs, months, slope, intercept, factors);
    var errorStd := ErrorStd(errors, sqrt);
    fit := EtsFit(n, sorted[n - 1].date, slope, intercept, factors, errorStd);
  }

  /** The projecting half of `etsForecast`: pushes one point per period. */
  method ProjectPoints(fit: EtsFit, periods: nat, noise: seq<real>) returns (forecast: seq<EtsPoint>)
    requires |fit.factors| == 12 && |noise| == periods
    ensures forecast == EtsPoints(fit, periods, noise)
  {
    forecast := [];
    var i := 1;
    while i <= periods
      invariant 1 <= i <= periods + 1
      invariant |forecast| == i - 1
      invariant forall k :: 0 <= k < i - 1 ==> forecast[k] == PointAt(fit, k, noise[k])
    {
      var forecastDate := AddMonths(fit.lastDate, i);
      var trend := fit.slope * (fit.n + i - 1) as real + fit.intercept;
      var seasonal := fit.factors[forecastDate.month];
      assert trend + seasonal == Centre(fit, i - 1);
      var point;
      if fit.errorStd.None? {
        point := EtsPoint(forecastDate, None, None, None);
        assert point == PointAt(fit, i - 1, noise[i - 1]);
      } else {
        var sd := fit.errorStd.value;
        var randomError := RandomError(noise[i - 1], sd);
        point := EtsPoint(forecastDate, Some(trend + seasonal + randomError),
          Some(trend + seasonal - 1.96 * sd), Some(trend + seasonal + 1.96 * sd));
        assert point == PointAt(fit, i - 1, noise[i - 1]);
      }
      forecast := forecast + [point];
      i := i + 1;
    }
  }

  /** `etsForecast`, with `noise[k]` the `Math.random()` draw of the (k+1)-th
      point: empty below two observations, otherwise one point per period. */
  method EtsForecast(history: seq<Observation>, periods: nat, noise: seq<real>, sqrt: real -> real) returns (forecast: seq<EtsPoint>)
    requires IsSquareRoot(sqrt)
    requires |noise| == periods && forall k :: 0 <= k < periods ==> 0.0 <= noise[k] < 1.0
    ensures |history| < 2 ==> forecast == []
    ensures |history| >= 2 ==> forecast == EtsPoints(FitOf(history, sqrt), periods, noise)
  {
    if |history| < 2 {
      return [];
    }
    var fit := Fit(history, sqrt);
    forecast := ProjectPoints(fit, periods, noise);
  }

  /** Costs exactly on a line leave every seasonal factor and every residual at 0. */
  lemma LineLeavesNoResiduals(costs: seq<real>, months: seq<Month>, a: real, b: real)
    requires |costs| >= 2 && |costs| == |months|
    requires forall i :: 0 <= i < |costs| ==> costs[i] == a + b * i as real
    ensures var factors := SeasonalFactorsOf(costs, months, Slope(costs), Intercept(costs));
            && (forall m :: 0 <= m < 12 ==> factors[m] == 0.0)
            && (forall i :: 0 <= i < |costs| ==> Residuals(costs, months, Slope(costs), Intercept(costs), factors)[i] == 0.0)
  {
    LinearCostsAreFittedExactly(costs, a, b);
    var slope, intercept := Slope(costs), Intercept(costs);
    forall i | 0 <= i < |costs|
      ensures Detrended(costs, slope, intercept, i) == 0.0
    {
    }
    var factors := SeasonalFactorsOf(costs, months, slope, intercept);
    forall m | 0 <= m < 12
      ensures factors[m] == 0.0
    {
      ZeroDetrendedGivesZeroFactors(costs, months, slope, intercept, m, |costs|);
      var values := MonthValues(costs, months, slope, intercept, m, |costs|);
      if |values| > 0 {
        MeanOfConstant(values, 0.0);
      }
    }
    var errors := Residuals(costs, months, slope, intercept, factors);
    forall i | 0 <= i < |costs|
      ensures errors[i] == 0.0
    {
      assert errors[i] == costs[i] - (slope * i as real + intercept + factors[months[i]]);
    }
  }

  /** Two points always lie on a line, so a two-point fit leaves nothing for
      the spread: its n - 2 divisor meets a zero numerator. */
  lemma TwoPointFitIsExact(costs: seq<real>, months: seq<Month>)
    requires |costs| == 2 && |months| == 2
    ensures var factors := SeasonalFactorsOf(costs, months, Slope(costs), Intercept(costs));
            var errors := Residuals(costs, months, Slope(costs), Intercept(costs), factors);
            SquaredDeviations(errors, 0.0) == 0.0
  {
    LineLeavesNoResiduals(costs, months, costs[0], costs[1] - costs[0]);
    var factors := SeasonalFactorsOf(costs, months, Slope(costs), Intercept(costs));
    SquaredDeviationsOfConstant(Residuals(costs, months, Slope(costs), Intercept(costs), factors), 0.0);
  }

  /** The fit of a history of three or more observations whose costs, in
      date order, lie on a + b * i: that line, no seasonality and no spread. */
  lemma LinearHistoryFit(history: seq<Observation>, sqrt: real -> real, a: real, b: real)
    requires IsSquareRoot(sqrt) && |history| >= 3
    requires forall i :: 0 <= i < |history| ==> SortByDate(history)[i].averageCost == a + b * i as real
    ensures var fit := FitOf(history, sqrt);
            && fit.slope == b && fit.intercept == a && fit.errorStd == Some(0.0)
            && forall m :: 0 <= m < 12 ==> fit.factors[m] == 0.0
  {
    var sorted := SortByDate(history);
    var costs := CostsOf(sorted, ObservedCost);
    var months := MonthsOf(sorted);
    LineLeavesNoResiduals(costs, months, a, b);
    LinearCostsAreFittedExactly(costs, a, b);
    var factors := SeasonalFactorsOf(costs, months, Slope(costs), Intercept(costs));
    var errors := Residuals(costs, months, Slope(costs), Intercept(costs), factors);
    SquaredDeviationsOfConstant(errors, 0.0);
    SquareRootOfZero(sqrt);
    assert 0.0 / (|errors| - 2) as real == 0.0;
  }

  /** A fit with line a + b * i, no seasonality and no spread puts the k-th
      point (from 0) at a + b * (n + k), with a band of width 0. */
  lemma ExactFitGivesExactPoints(fit: EtsFit, periods: nat, noise: seq<real>, a: real, b: real)
    requires |fit.factors| == 12 && |noise| == periods
    requires fit.slope == b && fit.intercept == a && fit.errorStd == Some(0.0)
    requires forall m :: 0 <= m < 12 ==> fit.factors[m] == 0.0
    ensures var points := EtsPoints(fit, periods, noise);
            forall k :: 0 <= k < periods ==>
              var v := a + b * (fit.n + k) as real;
              points[k].cost == Some(v) && points[k].lowerBound == Some(v) && points[k].upperBound == Some(v)
  {
    forall k | 0 <= k < periods
      ensures Centre(fit, k) == a + b * (fit.n + k) as real
    {
      assert fit.factors[AddMonths(fit.lastDate, k + 1).month] == 0.0;
    }
  }

  // ---------------------------------------------------------------------
  // ZIP-code fallback

  /** A ZIP code with no data is replaced by the first available one, and the
      response says so. */
  method ResolveZipCode(zipCode: string) returns (effectiveZipCode: string, usingFallbackZipCode: bool)
    ensures zipCode in AvailableZipCodes ==> effectiveZipCode == zipCode && !usingFallbackZipCode
    ensures zipCode !in AvailableZipCodes ==> effectiveZipCode == AvailableZipCodes[0] && usingFallbackZipCode
    ensures effectiveZipCode in AvailableZipCodes
  {
    effectiveZipCode := zipCode;
    usingFallbackZipCode := false;
    if zipCode !in AvailableZipCodes {
      effectiveZipCode := AvailableZipCodes[0];
      usingFallbackZipCode := true;
    }
  }
}
