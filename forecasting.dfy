/** Holt's linear (double exponential) smoothing forecaster and the figures the
    cost forecast reports beside it: a confidence band, an overall trend label
    and a confidence score. Costs are exact reals; `Math.sqrt` is a parameter. */
module Forecasting {
  import opened Common

  const DefaultAlpha: real := 0.3
  const DefaultBeta: real := 0.1
  const DefaultPeriods: nat := 6
  const DefaultConfidenceLevel: real := 0.95

  datatype Trend = Rising | Stable | Decreasing

  /** The two arrays `exponentialSmoothing` returns: the smoothed levels
      (called `forecast` there) and the smoothed trends. */
  datatype Smoothed = Smoothed(levels: seq<real>, trends: seq<real>)

  /** level_i = alpha * x_i + (1 - alpha) * (level_{i-1} + trend_{i-1}). */
  function NextLevel(alpha: real, x: real, prevLevel: real, prevTrend: real): real
  {
    alpha * x + (1.0 - alpha) * (prevLevel + prevTrend)
  }

  /** trend_i = beta * (level_i - level_{i-1}) + (1 - beta) * trend_{i-1}. */
  function NextTrend(beta: real, level: real, prevLevel: real, prevTrend: real): real
  {
    beta * (level - prevLevel) + (1.0 - beta) * prevTrend
  }

  /** Holt's recursion holds at index i. */
  ghost predicate HoltStep(data: seq<real>, alpha: real, beta: real, levels: seq<real>, trends: seq<real>, i: int)
    requires 1 <= i < |data| && i < |levels| && i < |trends|
  {
    && levels[i] == NextLevel(alpha, data[i], levels[i - 1], trends[i - 1])
    && trends[i] == NextTrend(beta, levels[i], levels[i - 1], trends[i - 1])
  }

  /** Levels and trends of the first k points of a series of at least two. */
  function SmoothPrefix(data: seq<real>, alpha: real, beta: real, k: nat): (r: Smoothed)
    requires 2 <= |data| && 1 <= k <= |data|
    ensures |r.levels| == k && |r.trends| == k
    ensures r.levels[0] == data[0] && r.trends[0] == data[1] - data[0]
  {
    if k == 1 then
      Smoothed([data[0]], [data[1] - data[0]])
    else
      var p := SmoothPrefix(data, alpha, beta, k - 1);
      var level := NextLevel(alpha, data[k - 1], p.levels[k - 2], p.trends[k - 2]);
      var trend := NextTrend(beta, level, p.levels[k - 2], p.trends[k - 2]);
      Smoothed(p.levels + [level], p.trends + [trend])
  }

  /** Every step of a smoothed prefix follows Holt's recursion. */
  lemma {:induction false} SmoothPrefixFollowsHolt(data: seq<real>, alpha: real, beta: real, k: nat)
    requires 2 <= |data| && 1 <= k <= |data|
    ensures forall i :: 1 <= i < k ==>
      HoltStep(data, alpha, beta, SmoothPrefix(data, alpha, beta, k).levels, SmoothPrefix(data, alpha, beta, k).trends, i)
  {
    if k > 1 {
      SmoothPrefixFollowsHolt(data, alpha, beta, k - 1);
      var p := SmoothPrefix(data, alpha, beta, k - 1);
      var r := SmoothPrefix(data, alpha, beta, k);
      assert r.levels[..k - 1] == p.levels && r.trends[..k - 1] == p.trends;
      forall i | 1 <= i < k
        ensures HoltStep(data, alpha, beta, r.levels, r.trends, i)
      {
        if i < k - 1 {
          assert HoltStep(data, alpha, beta, p.levels, p.trends, i);
          assert r.levels[i] == p.levels[i] && r.levels[i - 1] == p.levels[i - 1];
          assert r.trends[i] == p.trends[i] && r.trends[i - 1] == p.trends[i - 1];
        }
      }
    }
  }

  /** What `exponentialSmoothing` computes: the data unchanged with trend [0]
      for fewer than two points, Holt's levels and trends otherwise. */
  function Smooth(data: seq<real>, alpha: real, beta: real): (r: Smoothed)
    ensures |data| < 2 ==> r.levels == data && r.trends == [0.0]
    ensures |data| >= 2 ==> |r.levels| == |data| && |r.trends| == |data|
    ensures |data| >= 2 ==> r.levels[0] == data[0] && r.trends[0] == data[1] - data[0]
  {
    if |data| < 2 then Smoothed(data, [0.0]) else SmoothPrefix(data, alpha, beta, |data|)
  }

  /** For two or more points, levels and trends follow Holt's recursion at every index after the first. */
  lemma SmoothFollowsHolt(data: seq<real>, alpha: real, beta: real)
    requires |data| >= 2
    ensures forall i :: 1 <= i < |data| ==>
      HoltStep(data, alpha, beta, Smooth(data, alpha, beta).levels, Smooth(data, alpha, beta).trends, i)
  {
    SmoothPrefixFollowsHolt(data, alpha, beta, |data|);
  }

  /** `exponentialSmoothing`: pushes one level and one trend per point. */
  method ExponentialSmoothing(data: seq<real>, alpha: real, beta: real) returns (forecast: seq<real>, trend: seq<real>)
    ensures Smoothed(forecast, trend) == Smooth(data, alpha, beta)
  {
    if |data| < 2 {
      return data, [0.0];
    }
    forecast := [data[0]];
    trend := [data[1] - data[0]];
    var i := 1;
    while i < |data|
      invariant 1 <= i <= |data|
      invariant Smoothed(forecast, trend) == SmoothPrefix(data, alpha, beta, i)
    {
      var level := NextLevel(alpha, data[i], forecast[i - 1], trend[i - 1]);
      var newTrend := NextTrend(beta, level, forecast[i - 1], trend[i - 1]);
      forecast := forecast + [level];
      trend := trend + [newTrend];
      i := i + 1;
    }
  }

  /** One Holt step on a point that lies one trend step past the last level
      reproduces the point and keeps the trend. */
  lemma HoltStepOnTheLine(alpha: real, beta: real, x: real, prev: real, b: real)
    requires x == prev + b
    ensures NextLevel(alpha, x, prev, b) == x
    ensures NextTrend(beta, x, prev, b) == b
  {
    assert alpha * x + (1.0 - alpha) * x == x;
    assert beta * b + (1.0 - beta) * b == b;
  }

  /** Consecutive points of a + b * i lie b apart. */
  lemma LineStep(a: real, b: real, i: nat)
    ensures a + b * (i + 1) as real == (a + b * i as real) + b
  {
  }

  /** A series rising by the same amount b every period is followed exactly:
      every level is the observed value and every trend is b. */
  lemma {:induction false} LinearSeriesIsTracked(data: seq<real>, alpha: real, beta: real, a: real, b: real, k: nat)
    requires 2 <= |data| && 1 <= k <= |data|
    requires forall i :: 0 <= i < |data| ==> data[i] == a + b * i as real
    ensures forall i :: 0 <= i < k ==>
      SmoothPrefix(data, alpha, beta, k).levels[i] == a + b * i as real
      && SmoothPrefix(data, alpha, beta, k).trends[i] == b
  {
    if k == 1 {
      LineStep(a, b, 0);
    } else {
      LinearSeriesIsTracked(data, alpha, beta, a, b, k - 1);
      var p := SmoothPrefix(data, alpha, beta, k - 1);
      var r := SmoothPrefix(data, alpha, beta, k);
      var prev := p.levels[k - 2];
      var level := NextLevel(alpha, data[k - 1], prev, p.trends[k - 2]);
      var trend := NextTrend(beta, level, prev, p.trends[k - 2]);
      assert r.levels == p.levels + [level] && r.trends == p.trends + [trend];
      LineStep(a, b, k - 2);
      HoltStepOnTheLine(alpha, beta, data[k - 1], prev, b);
    }
  }

  /** A constant series keeps every level at that constant and every trend at zero. */
  lemma ConstantSeriesIsFlat(data: seq<real>, alpha: real, beta: real, c: real)
    requires 2 <= |data|
    requires forall i :: 0 <= i < |data| ==> data[i] == c
    ensures forall i :: 0 <= i < |data| ==>
      Smooth(data, alpha, beta).levels[i] == c && Smooth(data, alpha, beta).trends[i] == 0.0
  {
    LinearSeriesIsTracked(data, alpha, beta, c, 0.0, |data|);
  }

  /** The three arrays `generateForecast` returns. */
  datatype HoltForecast = HoltForecast(forecast: seq<real>, trend: seq<real>, forecastDates: seq<YearMonth>)

  /** The value k periods past a level on a line of slope `trend`. */
  function Extrapolate(level: real, trend: real, k: nat): real
  {
    level + k as real * trend
  }

  /** The `periods` values after the last level, one trend step apart. */
  function FutureLevels(lastLevel: real, lastTrend: real, periods: nat): (r: seq<real>)
    ensures |r| == periods
    ensures forall k :: 0 <= k < periods ==> r[k] == Extrapolate(lastLevel, lastTrend, k + 1)
  {
    seq(periods, k requires 0 <= k < periods => Extrapolate(lastLevel, lastTrend, k + 1))
  }

  /** The `periods` calendar months after `lastDate`. */
  function FutureDates(lastDate: YearMonth, periods: nat): (r: seq<YearMonth>)
    ensures |r| == periods
    ensures forall k :: 0 <= k < periods ==> MonthIndex(r[k]) == MonthIndex(lastDate) + k + 1
  {
    seq(periods, k requires 0 <= k < periods => AddMonths(lastDate, k + 1))
  }

  lemma FutureLevelsStep(lastLevel: real, lastTrend: real, k: nat)
    ensures FutureLevels(lastLevel, lastTrend, k + 1) == FutureLevels(lastLevel, lastTrend, k) + [Extrapolate(lastLevel, lastTrend, k + 1)]
  {
  }

  lemma FutureDatesStep(lastDate: YearMonth, k: nat)
    ensures FutureDates(lastDate, k + 1) == FutureDates(lastDate, k) + [AddMonths(lastDate, k + 1)]
  {
  }

  /** What `generateForecast` computes: the smoothed history followed by
      `periods` points on the line through the last level with the last trend,
      the dates followed by the next `periods` calendar months. */
  function Project(data: seq<real>, dates: seq<YearMonth>, periods: nat, alpha: real, beta: real): (r: HoltForecast)
    requires 1 <= |data| == |dates|
    ensures |r.forecast| == |data| + periods && |r.trend| == |data| + periods
    ensures |r.forecastDates| == |data| + periods
    ensures r.forecast[..|data|] == Smooth(data, alpha, beta).levels
    ensures r.trend[..|data|] == Smooth(data, alpha, beta).trends
    ensures r.forecastDates[..|data|] == dates
  {
    var s := Smooth(data, alpha, beta);
    var n := |data|;
    var r := HoltForecast(
      s.levels + FutureLevels(s.levels[n - 1], s.trends[n - 1], periods),
      s.trends + seq(periods, k requires 0 <= k < periods => s.trends[n - 1]),
      dates + FutureDates(dates[n - 1], periods));
    assert r.forecast[n - 1] == s.levels[n - 1];
    assert r.trend[n - 1] == s.trends[n - 1];
    assert r.forecastDates[n - 1] == dates[n - 1];
    assert r.forecast[..n] == s.levels;
    assert r.trend[..n] == s.trends;
    assert r.forecastDates[..n] == dates;
    r
  }

  /** Past the history, the k-th projected value lies k trend steps beyond the
      last level, the trend stays the last trend, and the k-th date is k months
      after the last date. */
  lemma ProjectionContinuesTheLine(data: seq<real>, dates: seq<YearMonth>, periods: nat, alpha: real, beta: real)
    requires 1 <= |data| == |dates|
    ensures var r := Project(data, dates, periods, alpha, beta);
      forall j :: |data| <= j < |data| + periods ==>
        && r.forecast[j] == Extrapolate(r.forecast[|data| - 1], r.trend[|data| - 1], j - |data| + 1)
        && r.trend[j] == r.trend[|data| - 1]
        && MonthIndex(r.forecastDates[j]) == MonthIndex(r.forecastDates[|data| - 1]) + j - |data| + 1
  {
    var s := Smooth(data, alpha, beta);
    var n := |data|;
    var r := Project(data, dates, periods, alpha, beta);
    assert r.forecast[n - 1] == r.forecast[..n][n - 1] == s.levels[n - 1];
    assert r.trend[n - 1] == r.trend[..n][n - 1] == s.trends[n - 1];
    assert r.forecastDates[n - 1] == r.forecastDates[..n][n - 1] == dates[n - 1];
  }

  /** `generateForecast`: smooths, then pushes the future dates and the
      future values in two loops and concatenates. */
  method GenerateForecast(data: seq<real>, dates: seq<YearMonth>, periods: nat, alpha: real, beta: real)
    returns (forecast: seq<real>, trend: seq<real>, forecastDates: seq<YearMonth>)
    requires 1 <= |data| == |dates|
    ensures HoltForecast(forecast, trend, forecastDates) == Project(data, dates, periods, alpha, beta)
  {
    var levels, trends := ExponentialSmoothing(data, alpha, beta);
    var lastDate := dates[|dates| - 1];
    var futureDates: seq<YearMonth> := [];
    var i := 1;
    while i <= periods
      invariant 1 <= i <= periods + 1
      invariant futureDates == FutureDates(lastDate, i - 1)
    {
      FutureDatesStep(lastDate, i - 1);
      futureDates := futureDates + [AddMonths(lastDate, i)];
      i := i + 1;
    }
    var futureForecast: seq<real> := [];
    var lastLevel := levels[|levels| - 1];
    var lastTrendValue := trends[|trends| - 1];
    i := 1;
    while i <= periods
      invariant 1 <= i <= periods + 1
      invariant futureForecast == FutureLevels(lastLevel, lastTrendValue, i - 1)
    {
      FutureLevelsStep(lastLevel, lastTrendValue, i - 1);
      futureForecast := futureForecast + [Extrapolate(lastLevel, lastTrendValue, i)];
      i := i + 1;
    }
    forecast := levels + futureForecast;
    trend := trends + seq(periods, k requires 0 <= k < periods => lastTrendValue);
    forecastDates := dates + futureDates;
  }

  /** Stepping k slopes past position i on the line a + b·x lands on position i + k. */
  lemma LineContinues(a: real, b: real, i: nat, k: nat)
    ensures Extrapolate(a + b * i as real, b, k) == a + b * (i + k) as real
  {
  }

  /** On a linear series the forecast reproduces the history and continues the
      same line into the future. */
  lemma LinearSeriesIsExtrapolated(data: seq<real>, dates: seq<YearMonth>, periods: nat, alpha: real, beta: real, a: real, b: real)
    requires 2 <= |data| == |dates|
    requires forall i :: 0 <= i < |data| ==> data[i] == a + b * i as real
    ensures forall j :: 0 <= j < |data| + periods ==>
      Project(data, dates, periods, alpha, beta).forecast[j] == a + b * j as real
  {
    HistoryStaysOnTheLine(data, dates, periods, alpha, beta, a, b);
    LineExtended(Project(data, dates, periods, alpha, beta).forecast, |data|, a, b);
  }

  /** On a linear series the smoothed part of the forecast is the series
      itself, and the projected part steps from its last value by the slope. */
  lemma HistoryStaysOnTheLine(data: seq<real>, dates: seq<YearMonth>, periods: nat, alpha: real, beta: real, a: real, b: real)
    requires 2 <= |data| == |dates|
    requires forall i :: 0 <= i < |data| ==> data[i] == a + b * i as real
    ensures var f := Project(data, dates, periods, alpha, beta).forecast;
            && |f| == |data| + periods
            && (forall j :: 0 <= j < |data| ==> f[j] == a + b * j as real)
            && (forall j :: |data| <= j < |f| ==> f[j] == Extrapolate(f[|data| - 1], b, j - |data| + 1))
  {
    var n := |data|;
    var p := Project(data, dates, periods, alpha, beta);
    var levels := Smooth(data, alpha, beta).levels;
    LinearSeriesIsTracked(data, alpha, beta, a, b, n);
    forall j | 0 <= j < n
      ensures p.forecast[j] == a + b * j as real
    {
      assert p.forecast[j] == p.forecast[..n][j] == levels[j];
    }
    assert p.trend[n - 1] == p.trend[..n][n - 1];
    ProjectionContinuesTheLine(data, dates, periods, alpha, beta);
  }

  /** A sequence on the line a + b·j up to n, continued past n by steps of b
      from its entry at n - 1, stays on that line. */
  lemma LineExtended(f: seq<real>, n: nat, a: real, b: real)
    requires 1 <= n <= |f|
    requires forall j :: 0 <= j < n ==> f[j] == a + b * j as real
    requires forall j :: n <= j < |f| ==> f[j] == Extrapolate(f[n - 1], b, j - n + 1)
    ensures forall j :: 0 <= j < |f| ==> f[j] == a + b * j as real
  {
    forall j | n <= j < |f|
      ensures f[j] == a + b * j as real
    {
      LineContinues(a, b, n - 1, j - n + 1);
    }
  }

  /** 1.96 for a 95% level, 2.58 for any other. */
  function ZScore(confidenceLevel: real): real
  {
    if confidenceLevel == 0.95 then 1.96 else 2.58
  }

  /** z times the population standard deviation of the history. */
  function MarginOfError(historical: seq<real>, confidenceLevel: real, sqrt: real -> real): (m: real)
    requires |historical| > 0 && IsSquareRoot(sqrt)
    ensures m >= 0.0
  {
    ZScore(confidenceLevel) * sqrt(Variance(historical))
  }

  /** Lower and upper bound per forecast value. */
  datatype Band = Band(lower: seq<real>, upper: seq<real>)

  /** `calculateConfidenceIntervals` as written: every value gets the same
      margin on both sides and the lower bound is raised to 0, the upper bound
      is not. */
  function ConfidenceIntervalsAsWritten(forecast: seq<real>, historical: seq<real>, confidenceLevel: real, sqrt: real -> real): (b: Band)
    requires |historical| > 0 && IsSquareRoot(sqrt)
    ensures |b.lower| == |forecast| && |b.upper| == |forecast|
    ensures forall i :: 0 <= i < |forecast| ==>
      && b.lower[i] >= 0.0
      && b.upper[i] - forecast[i] == MarginOfError(historical, confidenceLevel, sqrt)
    ensures forall i :: 0 <= i < |forecast| && forecast[i] - MarginOfError(historical, confidenceLevel, sqrt) >= 0.0 ==>
      forecast[i] - b.lower[i] == MarginOfError(historical, confidenceLevel, sqrt)
    ensures forall i :: 0 <= i < |forecast| && forecast[i] - MarginOfError(historical, confidenceLevel, sqrt) < 0.0 ==>
      b.lower[i] == 0.0
  {
    var m := MarginOfError(historical, confidenceLevel, sqrt);
    Band(seq(|forecast|, i requires 0 <= i < |forecast| => Max(0.0, forecast[i] - m)),
         seq(|forecast|, i requires 0 <= i < |forecast| => forecast[i] + m))
  }

  /** `calculateConfidenceIntervals` corrected: the upper bound is raised to 0
      like the lower one, so a band is never inverted. */
  function ConfidenceIntervals(forecast: seq<real>, historical: seq<real>, confidenceLevel: real, sqrt: real -> real): (b: Band)
    requires |historical| > 0 && IsSquareRoot(sqrt)
    ensures |b.lower| == |forecast| && |b.upper| == |forecast|
    ensures forall i :: 0 <= i < |forecast| ==> 0.0 <= b.lower[i] <= b.upper[i]
    ensures forall i :: 0 <= i < |forecast| && forecast[i] >= 0.0 ==> b.lower[i] <= forecast[i] <= b.upper[i]
    ensures forall i :: 0 <= i < |forecast| && forecast[i] + MarginOfError(historical, confidenceLevel, sqrt) >= 0.0 ==>
      b.upper[i] - forecast[i] == MarginOfError(historical, confidenceLevel, sqrt)
    ensures forall i :: 0 <= i < |forecast| && forecast[i] - MarginOfError(historical, confidenceLevel, sqrt) >= 0.0 ==>
      forecast[i] - b.lower[i] == MarginOfError(historical, confidenceLevel, sqrt)
    ensures forall i :: 0 <= i < |forecast| && forecast[i] - MarginOfError(historical, confidenceLevel, sqrt) < 0.0 ==>
      b.lower[i] == 0.0
    ensures forall i :: 0 <= i < |forecast| && forecast[i] + MarginOfError(historical, confidenceLevel, sqrt) < 0.0 ==>
      b.upper[i] == 0.0
  {
    var m := MarginOfError(historical, confidenceLevel, sqrt);
    var lower := seq(|forecast|, i requires 0 <= i < |forecast| => Max(0.0, forecast[i] - m));
    var upper := seq(|forecast|, i requires 0 <= i < |forecast| => Max(0.0, forecast[i] + m));
    assert forall i :: 0 <= i < |forecast| ==> lower[i] == Max(0.0, forecast[i] - m) && upper[i] == Max(0.0, forecast[i] + m);
    Band(lower, upper)
  }

  /** The correction changes a bound only where the band as written is inverted. */
  lemma CorrectionOnlyTouchesInvertedBands(forecast: seq<real>, historical: seq<real>, confidenceLevel: real, sqrt: real -> real, i: int)
    requires |historical| > 0 && IsSquareRoot(sqrt)
    requires 0 <= i < |forecast|
    ensures var w := ConfidenceIntervalsAsWritten(forecast, historical, confidenceLevel, sqrt);
            var c := ConfidenceIntervals(forecast, historical, confidenceLevel, sqrt);
            && c.lower[i] == w.lower[i]
            && (w.lower[i] <= w.upper[i] <==> c.upper[i] == w.upper[i])
  {
  }

  /** If s is a non-negative root of x and x < c * c, then s < c. */
  lemma RootBelow(s: real, x: real, c: real)
    requires s >= 0.0 && s * s == x && c > 0.0 && x < c * c
    ensures s < c
  {
    if s >= c {
      MultiplyMonotone(s, c, s);
      MultiplyMonotone(s, c, c);
    }
  }

  /** Smoothing [100, 10] ends at level 10 with trend -90, so the value
      projected two months ahead is 10 - 2 * 90 = -170. */
  lemma FallingHistoryProjection(dates: seq<YearMonth>)
    requires |dates| == 2
    ensures Project([100.0, 10.0], dates, 2, DefaultAlpha, DefaultBeta).forecast[3] == -170.0
  {
    var data := [100.0, 10.0];
    var s := SmoothPrefix(data, DefaultAlpha, DefaultBeta, 2);
    assert SmoothPrefix(data, DefaultAlpha, DefaultBeta, 1).levels == [100.0];
    assert SmoothPrefix(data, DefaultAlpha, DefaultBeta, 1).trends == [-90.0];
    assert s.levels[1] == 10.0 && s.trends[1] == -90.0;
    var p := Project(data, dates, 2, DefaultAlpha, DefaultBeta);
    ProjectionContinuesTheLine(data, dates, 2, DefaultAlpha, DefaultBeta);
    assert p.forecast[1] == p.forecast[..2][1];
    assert p.trend[1] == p.trend[..2][1];
  }

  /** [100, 10] has mean 55 and population variance 2025 = 45 * 45. */
  lemma FallingHistoryVariance()
    ensures Variance([100.0, 10.0]) == 2025.0
  {
    var data := [100.0, 10.0];
    assert data[..1] == [100.0] && data[..1][..0] == [];
    assert Sum(data) == 110.0;
    assert Mean(data) == 55.0;
    assert SquaredDeviations(data, 55.0) == 4050.0;
  }

  /** The falling two-point history [100, 10] (population variance 2025)
      projects -170 two months ahead; the band as written for that value is
      [0, -170 + 1.96 * 45], whose upper end lies below its lower end. */
  lemma AsWrittenBandInverts(sqrt: real -> real, dates: seq<YearMonth>)
    requires IsSquareRoot(sqrt) && |dates| == 2
    ensures var p := Project([100.0, 10.0], dates, 2, DefaultAlpha, DefaultBeta);
            var b := ConfidenceIntervalsAsWritten(p.forecast, [100.0, 10.0], DefaultConfidenceLevel, sqrt);
            p.forecast[3] == -170.0 && b.lower[3] == 0.0 && b.upper[3] < b.lower[3]
  {
    var data := [100.0, 10.0];
    FallingHistoryProjection(dates);
    FallingHistoryVariance();
    var sd := sqrt(2025.0);
    RootBelow(sd, 2025.0, 86.0);
    var m := MarginOfError(data, DefaultConfidenceLevel, sqrt);
    assert m == 1.96 * sd && m < 170.0;
    var p := Project(data, dates, 2, DefaultAlpha, DefaultBeta);
    var b := ConfidenceIntervalsAsWritten(p.forecast, data, DefaultConfidenceLevel, sqrt);
    assert b.upper[3] == -170.0 + m;
  }

  /** `determineTrend`: the percent change from the last historical value to
      the last forecast value, above 5 is rising, below -5 decreasing. With a
      last historical value of 0 the change is +Infinity, -Infinity or NaN in
      JavaScript, which only the sign of the last forecast value decides. */
  function DetermineTrend(forecast: seq<real>, historical: seq<real>): (t: Trend)
    ensures |forecast| < 2 || |historical| == 0 ==> t == Stable
  {
    if |forecast| < 2 || |historical| == 0 then Stable
    else
      var lastHistorical := historical[|historical| - 1];
      var lastForecast := forecast[|forecast| - 1];
      if lastHistorical == 0.0 then
        (if lastForecast > 0.0 then Rising else if lastForecast < 0.0 then Decreasing else Stable)
      else
        var percentChange := (lastForecast - lastHistorical) / lastHistorical * 100.0;
        if percentChange > 5.0 then Rising
        else if percentChange < -5.0 then Decreasing
        else Stable
  }

  /** The rule without division: for a positive last historical value h and
      last forecast f, rising means f > 1.05 h and decreasing f < 0.95 h. */
  lemma TrendAgainstPositiveHistory(forecast: seq<real>, historical: seq<real>)
    requires |forecast| >= 2 && |historical| > 0
    requires historical[|historical| - 1] > 0.0
    ensures var h := historical[|historical| - 1];
            var f := forecast[|forecast| - 1];
            && (DetermineTrend(forecast, historical) == Rising <==> f > 1.05 * h)
            && (DetermineTrend(forecast, historical) == Decreasing <==> f < 0.95 * h)
            && (DetermineTrend(forecast, historical) == Stable <==> 0.95 * h <= f <= 1.05 * h)
  {
    var h := historical[|historical| - 1];
    var f := forecast[|forecast| - 1];
    var q := (f - h) / h;
    CancelFactor(q, h, f - h);
    assert q * h == f - h;
    assert q > 0.05 <==> f > 1.05 * h by {
      if q > 0.05 {
        MultiplyStrict(q, 0.05, h);
      } else {
        MultiplyMonotone(0.05, q, h);
      }
    }
    assert q < -0.05 <==> f < 0.95 * h by {
      if q < -0.05 {
        MultiplyStrict(-0.05, q, h);
      } else {
        MultiplyMonotone(q, -0.05, h);
      }
    }
  }

  /** The confidence step for a coefficient of variation. */
  function ScoreForVariation(cv: real): (c: real)
    ensures 0.8 <= c <= 0.95
  {
    if cv < 0.05 then 0.95
    else if cv < 0.1 then 0.9
    else if cv < 0.15 then 0.85
    else 0.8
  }

  /** A larger spread never earns a higher score. */
  lemma ScoreIsMonotone(cv1: real, cv2: real)
    requires cv1 <= cv2
    ensures ScoreForVariation(cv2) <= ScoreForVariation(cv1)
  {
  }

  /** `calculateConfidence`: 0.7 for fewer than six points, otherwise the step
      of the coefficient of variation. A zero mean makes it NaN or +Infinity
      in JavaScript, which fails every `<` test and lands on 0.8. */
  function CalculateConfidence(historical: seq<real>, sqrt: real -> real): (c: real)
    requires IsSquareRoot(sqrt)
    ensures 0.7 <= c <= 0.95
    ensures c == 0.7 <==> |historical| < 6
  {
    if |historical| < 6 then 0.7
    else
      var mean := Mean(historical);
      var stdDev := sqrt(Variance(historical));
      if mean == 0.0 then 0.8 else ScoreForVariation(stdDev / mean)
  }

  /** Six or more equal positive costs earn the top score. */
  lemma ConstantHistoryIsMostConfident(historical: seq<real>, sqrt: real -> real, c: real)
    requires IsSquareRoot(sqrt)
    requires |historical| >= 6 && c > 0.0
    requires forall i :: 0 <= i < |historical| ==> historical[i] == c
    ensures CalculateConfidence(historical, sqrt) == 0.95
  {
    MeanOfConstant(historical, c);
    VarianceOfConstant(historical, c);
    SquareRootOfZero(sqrt);
  }

  /** A row of the historical cost table. */
  datatype HistoricalCost = HistoricalCost(
    id: int, date: YearMonth, procedureName: string, averageCost: real, costTrend: string, zipCode: int)

  /** One forecast month as reported (before rounding). */
  datatype ForecastPoint = ForecastPoint(date: YearMonth, predictedCost: real, lowerBound: real, upperBound: real)

  datatype ForecastResult = ForecastResult(
    procedureName: string, zipCode: int, historicalData: seq<HistoricalCost>,
    forecast: seq<ForecastPoint>, trend: Trend, confidence: real)

  datatype ForecastError = NoHistoricalData

  /** The `average_cost` column of a row. */
  function RowCost(row: HistoricalCost): real
  {
    row.averageCost
  }

  function DatesOf(data: seq<HistoricalCost>): (dates: seq<YearMonth>)
    ensures |dates| == |data|
    ensures forall i :: 0 <= i < |data| ==> dates[i] == data[i].date
  {
    seq(|data|, i requires 0 <= i < |data| => data[i].date)
  }

  /** `forecastDates.slice(n).map((date, i) => ...)`: the points after the
      first n, each with its date, value and bounds. */
  function PointsAfter(n: nat, periods: nat, forecastDates: seq<YearMonth>, forecast: seq<real>, band: Band): (points: seq<ForecastPoint>)
    requires |forecastDates| == n + periods && |forecast| == n + periods
    requires |band.lower| == n + periods && |band.upper| == n + periods
    ensures |points| == periods
    ensures forall i :: 0 <= i < periods ==>
      points[i] == ForecastPoint(forecastDates[n + i], forecast[n + i], band.lower[n + i], band.upper[n + i])
  {
    seq(periods, i requires 0 <= i < periods =>
      ForecastPoint(forecastDates[n + i], forecast[n + i], band.lower[n + i], band.upper[n + i]))
  }

  /** What the result-shaping part of `forecastProcedureCosts` reports for
      the rows of one procedure and ZIP code, already in date order, with the
      band as `calculateConfidenceIntervals` computes it. */
  function Forecast(procedureName: string, zipCode: int, data: seq<HistoricalCost>, periods: nat, sqrt: real -> real): (r: Result<ForecastResult, ForecastError>)
    requires IsSquareRoot(sqrt)
    ensures r.Err? <==> |data| == 0
  {
    if |data| == 0 then Err(NoHistoricalData)
    else
      var costs := CostsOf(data, RowCost);
      var p := Project(costs, DatesOf(data), periods, DefaultAlpha, DefaultBeta);
      var band := ConfidenceIntervalsAsWritten(p.forecast, costs, DefaultConfidenceLevel, sqrt);
      Ok(ForecastResult(procedureName, zipCode, data,
        PointsAfter(|data|, periods, p.forecastDates, p.forecast, band),
        DetermineTrend(p.forecast, costs), CalculateConfidence(costs, sqrt)))
  }

  /** A non-empty history yields `periods` monthly points continuing the last
      smoothed level along the last smoothed trend. */
  lemma ForecastContinuesTheHistory(procedureName: string, zipCode: int, data: seq<HistoricalCost>, periods: nat, sqrt: real -> real)
    requires IsSquareRoot(sqrt) && |data| > 0
    ensures var res := Forecast(procedureName, zipCode, data, periods, sqrt).value;
            var n := |data|;
            var s := Smooth(CostsOf(data, RowCost), DefaultAlpha, DefaultBeta);
            && res.procedureName == procedureName && res.zipCode == zipCode && res.historicalData == data
            && |res.forecast| == periods
            && (forall i :: 0 <= i < periods ==>
                  && MonthIndex(res.forecast[i].date) == MonthIndex(data[n - 1].date) + i + 1
                  && res.forecast[i].predictedCost == Extrapolate(s.levels[n - 1], s.trends[n - 1], i + 1))
            && 0.7 <= res.confidence <= 0.95
  {
    var n := |data|;
    var costs := CostsOf(data, RowCost);
    var p := Project(costs, DatesOf(data), periods, DefaultAlpha, DefaultBeta);
    var s := Smooth(costs, DefaultAlpha, DefaultBeta);
    ProjectionContinuesTheLine(costs, DatesOf(data), periods, DefaultAlpha, DefaultBeta);
    assert p.forecast[n - 1] == p.forecast[..n][n - 1] == s.levels[n - 1];
    assert p.trend[n - 1] == p.trend[..n][n - 1] == s.trends[n - 1];
    assert p.forecastDates[n - 1] == p.forecastDates[..n][n - 1] == data[n - 1].date;
  }

  /** One band as written, for value v and margin m: what its bounds are and
      when it is inverted. */
  lemma AsWrittenPointBounds(v: real, m: real, lower: real, upper: real)
    requires m >= 0.0 && upper == v + m
    requires v - m >= 0.0 ==> lower == v - m
    requires v - m < 0.0 ==> lower == 0.0
    ensures lower >= 0.0
    ensures upper < lower <==> v + m < 0.0
    ensures v >= 0.0 ==> lower <= v <= upper
  {
  }

  /** Every point cut from the band as written carries the value plus the
      margin above and the value minus the margin, raised to 0, below; it is
      inverted exactly when the value lies deeper below 0 than the margin,
      and it contains every non-negative value. */
  lemma AsWrittenPointsBounds(n: nat, periods: nat, forecastDates: seq<YearMonth>, forecast: seq<real>, historical: seq<real>, sqrt: real -> real)
    requires |forecastDates| == n + periods && |forecast| == n + periods
    requires |historical| > 0 && IsSquareRoot(sqrt)
    ensures var m := MarginOfError(historical, DefaultConfidenceLevel, sqrt);
            var points := PointsAfter(n, periods, forecastDates, forecast,
              ConfidenceIntervalsAsWritten(forecast, historical, DefaultConfidenceLevel, sqrt));
            forall i :: 0 <= i < |points| ==>
              var pt := points[i];
              && pt.upperBound == pt.predictedCost + m
              && pt.lowerBound >= 0.0
              && (pt.predictedCost - m >= 0.0 ==> pt.lowerBound == pt.predictedCost - m)
              && (pt.predictedCost - m < 0.0 ==> pt.lowerBound == 0.0)
              && (pt.upperBound < pt.lowerBound <==> pt.predictedCost + m < 0.0)
              && (pt.predictedCost >= 0.0 ==> pt.lowerBound <= pt.predictedCost <= pt.upperBound)
  {
    var m := MarginOfError(historical, DefaultConfidenceLevel, sqrt);
    var band := ConfidenceIntervalsAsWritten(forecast, historical, DefaultConfidenceLevel, sqrt);
    var points := PointsAfter(n, periods, forecastDates, forecast, band);
    forall i | 0 <= i < |points|
      ensures var pt := points[i];
              && pt.upperBound == pt.predictedCost + m
              && pt.lowerBound >= 0.0
              && (pt.predictedCost - m >= 0.0 ==> pt.lowerBound == pt.predictedCost - m)
              && (pt.predictedCost - m < 0.0 ==> pt.lowerBound == 0.0)
              && (pt.upperBound < pt.lowerBound <==> pt.predictedCost + m < 0.0)
              && (pt.predictedCost >= 0.0 ==> pt.lowerBound <= pt.predictedCost <= pt.upperBound)
    {
      AsWrittenPointBounds(forecast[n + i], m, band.lower[n + i], band.upper[n + i]);
    }
  }

  /** Every reported band is the value plus the margin above and the value
      minus the margin, raised to 0, below; it is inverted exactly when the
      value lies deeper below 0 than the margin, and it contains every
      non-negative value. */
  lemma ForecastBandsAsWritten(procedureName: string, zipCode: int, data: seq<HistoricalCost>, periods: nat, sqrt: real -> real)
    requires IsSquareRoot(sqrt) && |data| > 0
    ensures var res := Forecast(procedureName, zipCode, data, periods, sqrt).value;
            var m := MarginOfError(CostsOf(data, RowCost), DefaultConfidenceLevel, sqrt);
            forall i :: 0 <= i < |res.forecast| ==>
              var pt := res.forecast[i];
              && pt.upperBound == pt.predictedCost + m
              && pt.lowerBound >= 0.0
              && (pt.predictedCost - m >= 0.0 ==> pt.lowerBound == pt.predictedCost - m)
              && (pt.predictedCost - m < 0.0 ==> pt.lowerBound == 0.0)
              && (pt.upperBound < pt.lowerBound <==> pt.predictedCost + m < 0.0)
              && (pt.predictedCost >= 0.0 ==> pt.lowerBound <= pt.predictedCost <= pt.upperBound)
  {
    var costs := CostsOf(data, RowCost);
    var p := Project(costs, DatesOf(data), periods, DefaultAlpha, DefaultBeta);
    AsWrittenPointsBounds(|data|, periods, p.forecastDates, p.forecast, costs, sqrt);
  }

  /** The forecast with the corrected band of `ConfidenceIntervals`. */
  function ForecastCorrected(procedureName: string, zipCode: int, data: seq<HistoricalCost>, periods: nat, sqrt: real -> real): (r: Result<ForecastResult, ForecastError>)
    requires IsSquareRoot(sqrt)
    ensures r.Err? <==> |data| == 0
  {
    if |data| == 0 then Err(NoHistoricalData)
    else
      var costs := CostsOf(data, RowCost);
      var p := Project(costs, DatesOf(data), periods, DefaultAlpha, DefaultBeta);
      var band := ConfidenceIntervals(p.forecast, costs, DefaultConfidenceLevel, sqrt);
      Ok(ForecastResult(procedureName, zipCode, data,
        PointsAfter(|data|, periods, p.forecastDates, p.forecast, band),
        DetermineTrend(p.forecast, costs), CalculateConfidence(costs, sqrt)))
  }

  /** One band as written and corrected, for value v and margin m: the lower
      bounds agree, the corrected upper bound is the one as written raised to
      0, and the corrected band is never inverted. */
  lemma CorrectedPointBounds(v: real, m: real, wLower: real, wUpper: real, cLower: real, cUpper: real)
    requires m >= 0.0 && wUpper == v + m
    requires v - m >= 0.0 ==> wLower == v - m && v - cLower == m
    requires v - m < 0.0 ==> wLower == 0.0 && cLower == 0.0
    requires v + m >= 0.0 ==> cUpper - v == m
    requires v + m < 0.0 ==> cUpper == 0.0
    ensures cLower == wLower && cUpper == Max(0.0, wUpper)
    ensures 0.0 <= cLower <= cUpper
    ensures v >= 0.0 ==> cLower <= v <= cUpper
  {
  }

  /** Over a whole forecast, the corrected band keeps every lower bound and
      raises every upper bound to 0. */
  lemma CorrectedBandRaisesUpperBounds(forecast: seq<real>, historical: seq<real>, confidenceLevel: real, sqrt: real -> real)
    requires |historical| > 0 && IsSquareRoot(sqrt)
    ensures var w := ConfidenceIntervalsAsWritten(forecast, historical, confidenceLevel, sqrt);
            var c := ConfidenceIntervals(forecast, historical, confidenceLevel, sqrt);
            forall k :: 0 <= k < |forecast| ==> c.lower[k] == w.lower[k] && c.upper[k] == Max(0.0, w.upper[k])
  {
    var w := ConfidenceIntervalsAsWritten(forecast, historical, confidenceLevel, sqrt);
    var c := ConfidenceIntervals(forecast, historical, confidenceLevel, sqrt);
    var m := MarginOfError(historical, confidenceLevel, sqrt);
    forall k | 0 <= k < |forecast|
      ensures c.lower[k] == w.lower[k] && c.upper[k] == Max(0.0, w.upper[k])
    {
      CorrectedPointBounds(forecast[k], m, w.lower[k], w.upper[k], c.lower[k], c.upper[k]);
    }
  }

  /** Points cut from two bands that differ only in raised upper bounds
      differ only in those upper bounds. */
  lemma PointsWithRaisedUpperBounds(n: nat, periods: nat, forecastDates: seq<YearMonth>, forecast: seq<real>, w: Band, c: Band)
    requires |forecastDates| == n + periods && |forecast| == n + periods
    requires |w.lower| == n + periods && |w.upper| == n + periods
    requires |c.lower| == n + periods && |c.upper| == n + periods
    requires forall k :: 0 <= k < n + periods ==> c.lower[k] == w.lower[k] && c.upper[k] == Max(0.0, w.upper[k])
    ensures var cp := PointsAfter(n, periods, forecastDates, forecast, c);
            var wp := PointsAfter(n, periods, forecastDates, forecast, w);
            forall i :: 0 <= i < periods ==> cp[i] == wp[i].(upperBound := Max(0.0, wp[i].upperBound))
  {
    var cp := PointsAfter(n, periods, forecastDates, forecast, c);
    var wp := PointsAfter(n, periods, forecastDates, forecast, w);
    forall i | 0 <= i < periods
      ensures cp[i] == wp[i].(upperBound := Max(0.0, wp[i].upperBound))
    {
      assert c.lower[n + i] == w.lower[n + i] && c.upper[n + i] == Max(0.0, w.upper[n + i]);
    }
  }

  /** The corrected forecast differs from the one reported only in the upper
      bounds, which it raises to 0. */
  lemma CorrectedForecastRaisesOnlyUpperBounds(procedureName: string, zipCode: int, data: seq<HistoricalCost>, periods: nat, sqrt: real -> real)
    requires IsSquareRoot(sqrt) && |data| > 0
    ensures var w := Forecast(procedureName, zipCode, data, periods, sqrt).value;
            var c := ForecastCorrected(procedureName, zipCode, data, periods, sqrt).value;
            && c.procedureName == w.procedureName && c.zipCode == w.zipCode && c.historicalData == w.historicalData
            && c.trend == w.trend && c.confidence == w.confidence
            && |c.forecast| == |w.forecast|
            && forall i :: 0 <= i < |c.forecast| ==>
                 c.forecast[i] == w.forecast[i].(upperBound := Max(0.0, w.forecast[i].upperBound))
  {
    var costs := CostsOf(data, RowCost);
    var p := Project(costs, DatesOf(data), periods, DefaultAlpha, DefaultBeta);
    CorrectedBandRaisesUpperBounds(p.forecast, costs, DefaultConfidenceLevel, sqrt);
    PointsWithRaisedUpperBounds(|data|, periods, p.forecastDates, p.forecast,
      ConfidenceIntervalsAsWritten(p.forecast, costs, DefaultConfidenceLevel, sqrt),
      ConfidenceIntervals(p.forecast, costs, DefaultConfidenceLevel, sqrt));
  }

  /** Every band of the corrected forecast is non-negative, not inverted, and
      contains its value when the value is not negative. */
  lemma CorrectedForecastBandsAreNeverInverted(procedureName: string, zipCode: int, data: seq<HistoricalCost>, periods: nat, sqrt: real -> real)
    requires IsSquareRoot(sqrt) && |data| > 0
    ensures var c := ForecastCorrected(procedureName, zipCode, data, periods, sqrt).value;
            forall i :: 0 <= i < |c.forecast| ==>
              && 0.0 <= c.forecast[i].lowerBound <= c.forecast[i].upperBound
              && (c.forecast[i].predictedCost >= 0.0 ==>
                    c.forecast[i].lowerBound <= c.forecast[i].predictedCost <= c.forecast[i].upperBound)
  {
    var n := |data|;
    var costs := CostsOf(data, RowCost);
    var p := Project(costs, DatesOf(data), periods, DefaultAlpha, DefaultBeta);
    var cb := ConfidenceIntervals(p.forecast, costs, DefaultConfidenceLevel, sqrt);
    var c := ForecastCorrected(procedureName, zipCode, data, periods, sqrt).value;
    assert c.forecast == PointsAfter(n, periods, p.forecastDates, p.forecast, cb);
  }

  /** The result-shaping part of `forecastProcedureCosts`, the rows given
      instead of fetched: fails on an empty history, otherwise reports the
      `periods` points after the history. */
  method ForecastProcedureCosts(procedureName: string, zipCode: int, data: seq<HistoricalCost>, periods: nat, sqrt: real -> real)
    returns (r: Result<ForecastResult, ForecastError>)
    requires IsSquareRoot(sqrt)
    ensures r == Forecast(procedureName, zipCode, data, periods, sqrt)
  {
    if |data| == 0 {
      return Err(NoHistoricalData);
    }
    var costs := CostsOf(data, RowCost);
    var dates := DatesOf(data);
    var forecast, trend, forecastDates := GenerateForecast(costs, dates, periods, DefaultAlpha, DefaultBeta);
    var band := ConfidenceIntervalsAsWritten(forecast, costs, DefaultConfidenceLevel, sqrt);
    var overallTrend := DetermineTrend(forecast, costs);
    var confidence := CalculateConfidence(costs, sqrt);
    var points := PointsAfter(|dates|, periods, forecastDates, forecast, band);
    r := Ok(ForecastResult(procedureName, zipCode, data, points, overallTrend, confidence));
  }
}
