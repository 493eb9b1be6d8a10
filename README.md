# PriceAware cost model in Dafny

PriceAware estimates what medical procedures cost and how those costs will
move. This project models the arithmetic that sits between its data store
and its user interface, and proves properties of it:

- **Holt forecaster** (`forecasting.dfy`, module `Forecasting`) — the level
  and trend recursion of `exponentialSmoothing`, and the month-stepped
  projection of `generateForecast`. Also the ±z·σ band, the ±5 % trend label,
  the confidence step function, and the result shaping of
  `forecastProcedureCosts`.
- **Trend + seasonal forecaster** (`forecast_route.dfy`, module
  `ForecastRoute`) — `etsForecast` of the forecast endpoint:
  - a date-ordered copy of the history;
  - a least-squares line over index positions;
  - twelve monthly seasonal factors;
  - a residual spread with an n − 2 divisor;
  - dated points with a 1.96·σ band.

  Also the ZIP-code fallback of the endpoint.
- **Cost analysis helpers** (`analysis.dfy`, module `Analysis`) — means,
  minima and maxima over hospital cost rows, the majority vote on trend
  labels, filter-then-sort rankings, label counts, and the derived per-row
  figures.
- **Insurance comparison** (`insurance_compare.dfy`, module
  `InsuranceCompare`) — the 400 check, the mean procedure cost, the coverage
  map (last record per plan wins), the per-plan out-of-pocket and savings
  figures, and the in-place sort by savings, highest first.
- **Procedure suggestions of the chatbot** (`chatbot_procedures.dfy`, module
  `ChatbotProcedures`) — the 400 check, the query sanitiser
  (`replace(/[^\w\s]/g, ' ').trim()`), the choice between vector-search and
  text-search results, and the keyword rule that attaches a reason to every
  suggestion.
- **Shared vocabulary** (`common.dfy`, module `Common`) — optional and error
  results, calendar months, sums and population statistics, and the stable
  sort and filter of the JavaScript array methods.

Modelling choices:

- Numbers are exact `real`s.
- `Math.sqrt` is a function parameter `sqrt` that must satisfy `IsSquareRoot`
  (non-negative, and its square gives back the argument).
- Each `Math.random()` draw is an input in [0, 1).
- Dates are (year, month) pairs, with months numbered from 0 as `getMonth`
  numbers them.
- Rows the code fetches from the database are inputs.
- Loops in the source are methods with loop invariants, proved equal to a
  specification function. Every property is then proved about that function.
- The coverage map filled by `forEach` is a `map` that a loop reassigns.
- The comparisons sorted in place are an `array` sorted in place.
- A JavaScript NaN or infinity that valid input can reach is an explicit
  `None`:
  - the mean of no rows;
  - `errorStd` of a two-point history;
  - a score divided by a zero cost.

Where the code and the design description disagree, the model follows the
code:

- The design promises that every forecast point satisfies lower bound ≤
  estimate ≤ upper bound, with lower bound ≥ 0. `forecasting.ts` does not
  keep this for negative projections; see the finding below. `Forecast`
  and `ForecastProcedureCosts` report the band as written, inverted bands
  included. `ForecastCorrected` is the corrected forecast, kept beside them
  and proved to differ only in the raised upper bounds.
- `etsForecast` never clamps its lower bound at 0.

## Model

| member | source | states |
|---|---|---|
| Common.AddMonths | src/lib/ml/forecasting.ts:76-77 | `setMonth(getMonth() + k)` lands exactly k months later, with year rollover |
| Common.Mean | src/lib/ml/forecasting.ts:106 | the mean times the count is the sum |
| Common.Variance | src/lib/ml/forecasting.ts:107 | the population variance is never negative |
| Common.VarianceOfConstant | src/lib/ml/forecasting.ts:106-107 | a constant series has variance 0 |
| Common.SortBy | src/lib/analysis.ts:35 | the comparator sort yields a permutation of the input in ascending key order; stability is the `SortByIsStable` row |
| Common.InsertByKeepsOrder | src/lib/analysis.ts:35 | inserting one element into an ordered sequence keeps it ordered |
| Common.KeepSelects | src/lib/analysis.ts:52 | `filter` keeps every occurrence of an element the predicate accepts and none of any other |
| Common.KeepAppend | src/lib/analysis.ts:52 | filtering a concatenation filters each part, so the kept elements stay in their order |
| Common.SortByIsStable | src/lib/analysis.ts:35 | the comparator sort is stable: the elements sharing any one key value come out in their input order |
| Common.InsertByKeepsKeyClass | src/lib/analysis.ts:35 | one insertion step leaves the elements of each key value in order, the inserted one ahead of its equals |
| Common.CostsOf | src/lib/ml/forecasting.ts:181 | one cost per row, in row order, used for the rows of both forecasters |
| Common.Count | src/lib/analysis.ts:22-23 | `filter(t => t === x).length` is the number of occurrences of x |
| Forecasting.SmoothPrefix | src/lib/ml/forecasting.ts:39-49 | after k steps of the loop there are k levels and k trends, starting at data[0] and data[1] − data[0] |
| Forecasting.SmoothPrefixFollowsHolt | src/lib/ml/forecasting.ts:43-48 | every pushed level and trend of a prefix satisfies Holt's recursion |
| Forecasting.Smooth | src/lib/ml/forecasting.ts:30-52 | below two points: the data unchanged with trend [0]; otherwise n levels and n trends, starting at data[0] and data[1] − data[0] |
| Forecasting.SmoothFollowsHolt | src/lib/ml/forecasting.ts:43-48 | level_i = α·x_i + (1−α)(level_{i−1} + trend_{i−1}) and trend_i = β(level_i − level_{i−1}) + (1−β)trend_{i−1} at every i ≥ 1 |
| Forecasting.ExponentialSmoothing | src/lib/ml/forecasting.ts:30-52 | the pushing loop returns exactly the levels and trends of `Smooth` |
| Forecasting.LinearSeriesIsTracked | src/lib/ml/forecasting.ts:39-49 | on data a + b·i every level equals the observed value and every trend equals b |
| Forecasting.ConstantSeriesIsFlat | src/lib/ml/forecasting.ts:43-48 | a constant series keeps every level at the constant and every trend at 0 |
| Forecasting.FutureLevels | src/lib/ml/forecasting.ts:82-88 | the k-th future value (from 1) is lastLevel + k·lastTrend |
| Forecasting.FutureDates | src/lib/ml/forecasting.ts:74-79 | the k-th future date (from 1) is k months after the last date |
| Forecasting.Project | src/lib/ml/forecasting.ts:57-95 | the combined arrays have n + periods entries and begin with the smoothed levels, trends and the input dates unchanged |
| Forecasting.ProjectionContinuesTheLine | src/lib/ml/forecasting.ts:81-93 | past the history, each value is the last level plus k last trends, the trend stays the last trend, and the date is k months after the last date |
| Forecasting.GenerateForecast | src/lib/ml/forecasting.ts:57-95 | the two push loops and the concatenation compute exactly `Project` |
| Forecasting.HistoryStaysOnTheLine | src/lib/ml/forecasting.ts:68-93 | on data a + b·i the smoothed part of the forecast is the data and each projected value steps from the last by b |
| Forecasting.LinearSeriesIsExtrapolated | src/lib/ml/forecasting.ts:68-93 | on data a + b·i the whole forecast, history and future, is a + b·j |
| Forecasting.MarginOfError | src/lib/ml/forecasting.ts:106-114 | z·σ is never negative |
| Forecasting.ConfidenceIntervalsAsWritten | src/lib/ml/forecasting.ts:100-121 | as written: one bound per value; upper − value is the margin everywhere; the lower bound is value − margin where that is ≥ 0, and 0 otherwise |
| Forecasting.ConfidenceIntervals | src/lib/ml/forecasting.ts:100-121 | corrected: 0 ≤ lower ≤ upper at every index; a non-negative value lies inside its band; each bound is value ∓ margin where that is ≥ 0, and 0 otherwise |
| Forecasting.CorrectionOnlyTouchesInvertedBands | src/lib/ml/forecasting.ts:117-118 | the correction keeps every lower bound and changes an upper bound exactly where the band as written is inverted |
| Forecasting.FallingHistoryProjection | src/lib/ml/forecasting.ts:68-93 | the history [100, 10] projects −170 two months ahead |
| Forecasting.FallingHistoryVariance | src/lib/ml/forecasting.ts:106-107 | the history [100, 10] has population variance 2025 |
| Forecasting.AsWrittenBandInverts | src/lib/ml/forecasting.ts:117-118 | for that history the band as written at −170 has lower bound 0 above its upper bound |
| Forecasting.DetermineTrend | src/lib/ml/forecasting.ts:126-137 | fewer than two forecast values (or no history) give Stable |
| Forecasting.TrendAgainstPositiveHistory | src/lib/ml/forecasting.ts:130-136 | for a positive last cost h and last forecast f: Rising iff f > 1.05h, Decreasing iff f < 0.95h, Stable iff between |
| Forecasting.ScoreForVariation | src/lib/ml/forecasting.ts:152-155 | the step of the coefficient of variation lies in [0.8, 0.95] |
| Forecasting.ScoreIsMonotone | src/lib/ml/forecasting.ts:151-155 | a larger coefficient of variation never earns a higher score |
| Forecasting.CalculateConfidence | src/lib/ml/forecasting.ts:142-156 | the score lies in [0.7, 0.95] and is 0.7 exactly when there are fewer than six points |
| Forecasting.ConstantHistoryIsMostConfident | src/lib/ml/forecasting.ts:144-152 | six or more equal positive costs score 0.95 |
| Forecasting.DatesOf | src/lib/ml/forecasting.ts:182 | one date per row, in row order |
| Forecasting.PointsAfter | src/lib/ml/forecasting.ts:201-206 | exactly `periods` points, the i-th taken from index n + i of the dates, values and bounds |
| Forecasting.Forecast | src/lib/ml/forecasting.ts:176-209 | fails exactly on an empty history; otherwise reports the band as `calculateConfidenceIntervals` computes it (the next rows) |
| Forecasting.ForecastContinuesTheHistory | src/lib/ml/forecasting.ts:176-209 | a non-empty history gives `periods` points: the i-th dated i + 1 months after the last row, its value on the line of the last smoothed level and trend; confidence in [0.7, 0.95] |
| Forecasting.AsWrittenPointBounds | src/lib/ml/forecasting.ts:115-119 | one band as written: lower bound ≥ 0, inverted exactly when value + margin < 0, and containing a non-negative value |
| Forecasting.AsWrittenPointsBounds | src/lib/ml/forecasting.ts:201-206 | every reported point carries upper = value + margin, lower = value − margin or 0 when that is negative, and is inverted exactly when value + margin < 0 |
| Forecasting.ForecastBandsAsWritten | src/lib/ml/forecasting.ts:188-206 | every band the forecast reports: upper = value + margin; lower = value − margin when that is ≥ 0, else 0; inverted exactly when value + margin < 0; a non-negative value lies inside |
| Forecasting.ForecastCorrected | src/lib/ml/forecasting.ts:176-209 | the forecast with the corrected band fails exactly on an empty history |
| Forecasting.CorrectedPointBounds | src/lib/ml/forecasting.ts:117-118 | for one value, the corrected band keeps the lower bound, raises the upper bound to 0 and is never inverted |
| Forecasting.CorrectedBandRaisesUpperBounds | src/lib/ml/forecasting.ts:117-118 | over a whole forecast the corrected band keeps every lower bound and raises every upper bound to 0 |
| Forecasting.PointsWithRaisedUpperBounds | src/lib/ml/forecasting.ts:201-206 | points cut from two such bands differ only in the raised upper bounds |
| Forecasting.CorrectedForecastRaisesOnlyUpperBounds | src/lib/ml/forecasting.ts:176-209 | the corrected forecast equals the reported one except that each upper bound is raised to 0 |
| Forecasting.CorrectedForecastBandsAreNeverInverted | src/lib/ml/forecasting.ts:176-209 | every corrected band has 0 ≤ lower ≤ upper and contains a non-negative value |
| Forecasting.ForecastProcedureCosts | src/lib/ml/forecasting.ts:176-209 | the step-by-step shaping computes exactly `Forecast` |
| ForecastRoute.SortByDate | src/app/api/forecast/route.ts:24-26 | the sorted copy has as many entries as the history |
| ForecastRoute.SortByDateOrdersByDate | src/app/api/forecast/route.ts:24-26 | the sorted copy is a permutation of the history in ascending date order |
| ForecastRoute.SortByDateIsStable | src/app/api/forecast/route.ts:24-26 | observations of the same month keep their order in the sorted copy |
| ForecastRoute.LastDateIsLatest | src/app/api/forecast/route.ts:79 | the last date of the sorted copy belongs to the history and is its latest date |
| ForecastRoute.MonthsOf | src/app/api/forecast/route.ts:53 | one month per observation, in order |
| ForecastRoute.SquareSumPositive | src/app/api/forecast/route.ts:40-45 | for n ≥ 2 the denominator Σ(i − x̄)² is positive, so the slope is defined |
| ForecastRoute.FitTrend | src/app/api/forecast/route.ts:33-46 | the accumulating loop yields the least-squares slope and intercept = ȳ − slope·x̄ |
| ForecastRoute.LinearCostsAreFittedExactly | src/app/api/forecast/route.ts:33-46 | costs a + b·i are fitted with slope b and intercept a |
| ForecastRoute.ConstantCostsGiveFlatFit | src/app/api/forecast/route.ts:33-46 | constant costs give slope 0 and intercept equal to the constant |
| ForecastRoute.MonthValuesEmptyIffNoObservation | src/app/api/forecast/route.ts:52-57 | a month collects a value exactly when some observation falls in it |
| ForecastRoute.MonthValuesStep | src/app/api/forecast/route.ts:52-57 | observation i adds its detrended value and a count of one to its own month and changes no other month |
| ForecastRoute.AccumulateByMonth | src/app/api/forecast/route.ts:49-57 | the array loop leaves each month's sum and count of its detrended values |
| ForecastRoute.SeasonalFactorsOf | src/app/api/forecast/route.ts:49-63 | there are exactly twelve factors |
| ForecastRoute.SeasonalFactorIsMonthMean | src/app/api/forecast/route.ts:49-63 | a month without observations keeps factor 0; any other month's factor is the mean of its detrended values |
| ForecastRoute.SeasonalFactors | src/app/api/forecast/route.ts:49-63 | the two array loops compute exactly `SeasonalFactorsOf` |
| ForecastRoute.ZeroDetrendedGivesZeroFactors | src/app/api/forecast/route.ts:52-63 | where every detrended value is 0, every value collected for a month is 0 |
| ForecastRoute.Residuals | src/app/api/forecast/route.ts:66-71 | one residual per cost |
| ForecastRoute.ErrorStd | src/app/api/forecast/route.ts:73-75 | the spread is NaN (None) exactly for two points and is never negative otherwise |
| ForecastRoute.LineLeavesNoResiduals | src/app/api/forecast/route.ts:48-71 | costs on a line leave every seasonal factor and every residual at 0 |
| ForecastRoute.TwoPointFitIsExact | src/app/api/forecast/route.ts:73-75 | a two-point fit has no squared residual, so its n − 2 divisor meets a zero numerator |
| ForecastRoute.FitOfSorted | src/app/api/forecast/route.ts:28-75 | the fit records n, the last date of the ordered history and twelve factors; its spread is None exactly for two points |
| ForecastRoute.FitSorted | src/app/api/forecast/route.ts:28-75 | regression, seasonal loops and residuals compute exactly `FitOfSorted` |
| ForecastRoute.Fit | src/app/api/forecast/route.ts:23-75 | sorting a copy and fitting computes exactly the fit of the date-ordered history |
| ForecastRoute.LinearHistoryFit | src/app/api/forecast/route.ts:23-75 | three or more observations on a + b·i in date order fit slope b, intercept a, no seasonality and spread 0 |
| ForecastRoute.PointLiesInBand | src/app/api/forecast/route.ts:81-98 | the k-th point is dated k + 1 months after the last date; it has its bounds 1.96·σ either side of trend + seasonal and an estimate within σ/2 of that centre, inside the band; every field is NaN exactly for a two-point history |
| ForecastRoute.EtsPoints | src/app/api/forecast/route.ts:81-98 | exactly `periods` points, the k-th built from trend index n + k and its month's factor |
| ForecastRoute.ProjectPoints | src/app/api/forecast/route.ts:78-100 | the pushing loop computes exactly `EtsPoints` |
| ForecastRoute.ExactFitGivesExactPoints | src/app/api/forecast/route.ts:81-98 | an exact line fit puts the k-th point and both its bounds at a + b·(n + k) |
| ForecastRoute.EtsForecast | src/app/api/forecast/route.ts:18-101 | below two observations the forecast is empty; otherwise it is one point per period from the fit of the date-ordered history |
| ForecastRoute.ResolveZipCode | src/app/api/forecast/route.ts:145-153 | a listed ZIP code is kept with the flag false; any other is replaced by the first listed one with the flag true |
| Analysis.MinOf | src/lib/analysis.ts:17 | `Math.min` of a non-empty list is an element no larger than any other |
| Analysis.MaxOf | src/lib/analysis.ts:18 | `Math.max` of a non-empty list is an element no smaller than any other |
| Analysis.AverageCosts | src/lib/analysis.ts:14 | one average cost per row, in order |
| Analysis.MinCosts | src/lib/analysis.ts:17 | one minimum cost per row, in order |
| Analysis.MaxCosts | src/lib/analysis.ts:18 | one maximum cost per row, in order |
| Analysis.Trends | src/lib/analysis.ts:21 | one trend label per row, in order |
| Analysis.MajorityTrend | src/lib/analysis.ts:21-26 | Rising iff Rising labels outnumber Decreasing ones, Decreasing iff the reverse, Stable iff tied |
| Analysis.MajorityTrendIgnoresOrder | src/lib/analysis.ts:21-26 | rearranging the labels never changes the vote |
| Analysis.UnanimousRisingVotesRising | src/lib/analysis.ts:21-26 | a non-empty list of Rising labels votes Rising |
| Analysis.Ranked | src/lib/analysis.ts:29-34 | one entry per row carrying its hospital, average cost and distance |
| Analysis.MeanAverageCost | src/lib/analysis.ts:14 | the mean times the row count is the sum of the average costs |
| Analysis.LowestMinCost | src/lib/analysis.ts:17 | the minimum cost of some row, and no row's minimum cost is lower |
| Analysis.HighestMaxCost | src/lib/analysis.ts:18 | the maximum cost of some row, and no row's maximum cost is higher |
| Analysis.RankByCost | src/lib/analysis.ts:29-35 | one entry per row, a permutation of the ranked rows, ascending by cost |
| Analysis.AnalyzeProcedureCosts | src/lib/analysis.ts:9-45 | mean, minimum and maximum as above (None exactly for no rows), the majority trend, and the hospitals as one entry per row ascending by cost |
| Analysis.FindBestValueHospitals | src/lib/analysis.ts:47-54 | keeps exactly the rows within `maxDistance`, every occurrence, ascending by average cost |
| Analysis.SavingsOf | src/lib/analysis.ts:60-63 | the saving plus the out-of-pocket cost is the average cost |
| Analysis.CalculateInsuranceSavings | src/lib/analysis.ts:56-64 | one saving per row, a permutation of the per-row savings, largest first |
| Analysis.AnalyzeCostTrendDistribution | src/lib/analysis.ts:67-80 | each count is the number of rows carrying its label |
| Analysis.ValidLabelsAreAllCounted | src/lib/analysis.ts:74-79 | when every label is one of the three, the three counts add up to the number of labels |
| Analysis.DistributionCountsEveryRow | src/lib/analysis.ts:74-79 | rows whose labels are all valid are each counted exactly once |
| Analysis.FindMostAffordableHospitals | src/lib/analysis.ts:82-89 | None (the `includes` call throws) exactly when some row's hospital has no insurance list; otherwise exactly the rows of hospitals accepting the insurance, every occurrence, ascending by out-of-pocket cost |
| Analysis.CoverageScore | src/lib/analysis.ts:114 | coverage / average · 100, NaN or infinite (None) exactly for a zero average |
| Analysis.CompareRow | src/lib/analysis.ts:111-115 | the row unchanged, its saving opportunity max − min and its effectiveness score |
| Analysis.EffectiveRow | src/lib/analysis.ts:159-163 | the row unchanged, its value score and its potential saving max − average |
| Analysis.PotentialSavingsWithinOpportunity | src/lib/analysis.ts:159-163 | for min ≤ average ≤ max, 0 ≤ potential saving ≤ saving opportunity |
| InsuranceCompare.CheckRequest | src/app/api/insurance/compare/route.ts:20-25 | 400 exactly when the procedure name or the ZIP code is absent or empty, otherwise the two values |
| InsuranceCompare.AverageCosts | src/app/api/insurance/compare/route.ts:62 | one average cost per row, in order |
| InsuranceCompare.AverageCost | src/app/api/insurance/compare/route.ts:61-63 | 0 for no rows, otherwise the mean of the average costs |
| InsuranceCompare.CoverageMapKeys | src/app/api/insurance/compare/route.ts:99-102 | every plan with a record has an entry, and every entry is a record of its own plan |
| InsuranceCompare.BuildCoverageMap | src/app/api/insurance/compare/route.ts:99-102 | the `forEach` loop builds exactly the map of all `set` calls in order |
| InsuranceCompare.LastRecordWins | src/app/api/insurance/compare/route.ts:99-102 | a record that no later record of the same plan follows is the one the map keeps |
| InsuranceCompare.OutOfPocket | src/app/api/insurance/compare/route.ts:112-117 | avg − avg·pct/100 + deductible raised to 0: never negative, at least that figure, and equal to it or to 0 |
| InsuranceCompare.MoreCoverageNeverCostsMore | src/app/api/insurance/compare/route.ts:112-117 | for a non-negative cost a higher coverage percentage never raises the out-of-pocket cost |
| InsuranceCompare.OutOfPocketAtMostCostPlusDeductible | src/app/api/insurance/compare/route.ts:112-117 | with coverage in [0, 100] and non-negative cost and deductible, the patient pays at most cost + deductible |
| InsuranceCompare.MakeComparison | src/app/api/insurance/compare/route.ts:112-149 | the plan's ids, the estimated cost, the out-of-pocket figure, savings + out-of-pocket + premium = cost, and an out-of-pocket maximum of twice the deductible |
| InsuranceCompare.CoveredPlans | src/app/api/insurance/compare/route.ts:106-110 | every plan kept has a coverage record |
| InsuranceCompare.Comparisons | src/app/api/insurance/compare/route.ts:105-150 | no more entries than plans; every covered plan's comparison is present and every entry is the comparison of a covered plan |
| InsuranceCompare.ComparisonsFollowCoveredPlans | src/app/api/insurance/compare/route.ts:105-150 | one comparison per covered plan, in plan order: the k-th comparison is that of the k-th plan with a coverage record |
| InsuranceCompare.SortBySavingsDescending | src/app/api/insurance/compare/route.ts:153 | the in-place sort leaves a permutation of the array, highest savings first |
| InsuranceCompare.InsertIntoPrefix | src/app/api/insurance/compare/route.ts:153 | one insertion step extends the ordered prefix by one, permutes the array and leaves the rest untouched |
| InsuranceCompare.Swap | src/app/api/insurance/compare/route.ts:153 | exchanges two neighbours and nothing else |
| InsuranceCompare.CompareInsurance | src/app/api/insurance/compare/route.ts:61-153 | the result is a permutation of the covered plans' comparisons, highest savings first, and no longer than the plan list |
| ChatbotProcedures.CheckSymptoms | src/app/api/chatbot/procedures/route.ts:9-14 | 400 exactly when the symptoms are absent or empty |
| ChatbotProcedures.ReplaceNonWord | src/app/api/chatbot/procedures/route.ts:51 | same length; every word or white-space character kept in place, every other character replaced by one space |
| ChatbotProcedures.TrimStart | src/app/api/chatbot/procedures/route.ts:51 | a suffix whose removed front is all white space and which does not start with white space |
| ChatbotProcedures.TrimEnd | src/app/api/chatbot/procedures/route.ts:51 | a prefix whose removed back is all white space and which does not end with white space |
| ChatbotProcedures.TrimIsSlice | src/app/api/chatbot/procedures/route.ts:51 | the trimmed string is a contiguous slice of the input |
| ChatbotProcedures.TrimKeepsOnlyWhitespaceBehind | src/app/api/chatbot/procedures/route.ts:51 | everything behind that slice is white space |
| ChatbotProcedures.TrimLeavesNoOuterWhitespace | src/app/api/chatbot/procedures/route.ts:51 | the trimmed string neither starts nor ends with white space |
| ChatbotProcedures.TrimCutsOnlyOuterWhitespace | src/app/api/chatbot/procedures/route.ts:51 | `trim` removes exactly the leading and trailing white space and nothing else |
| ChatbotProcedures.SanitizedQueryIsClean | src/app/api/chatbot/procedures/route.ts:51 | the sanitised query holds only word and white-space characters, has no outer white space and is no longer than the input |
| ChatbotProcedures.SanitizeIsIdempotent | src/app/api/chatbot/procedures/route.ts:51 | sanitising a sanitised query changes nothing |
| ChatbotProcedures.RetrieveProcedures | src/app/api/chatbot/procedures/route.ts:16-83 | text search runs exactly when vector search found no ids, failed, or returned no rows; then text rows, else all rows, else the retry, else 500 |
| ChatbotProcedures.LowerChar | src/app/api/chatbot/procedures/route.ts:153 | upper-case ASCII letters move to lower case, every other character stays |
| ChatbotProcedures.ToLower | src/app/api/chatbot/procedures/route.ts:153 | lower-cases each character in place |
| ChatbotProcedures.FirstMatchingRule | src/app/api/chatbot/procedures/route.ts:154-170 | the reason of a branch is empty or the reason of one of its rules |
| ChatbotProcedures.PainRulesAsChain | src/app/api/chatbot/procedures/route.ts:154-160 | the pain rules of the table are the x-ray/mri, consultation, therapy chain |
| ChatbotProcedures.KneeRulesAsChain | src/app/api/chatbot/procedures/route.ts:162-166 | the knee rules of the table are the arthroscopy, replacement chain |
| ChatbotProcedures.FeverRulesAsChain | src/app/api/chatbot/procedures/route.ts:168-170 | the fever rule of the table is the blood test |
| ChatbotProcedures.TableRowsInOrder | src/app/api/chatbot/procedures/route.ts:153-174 | the table consults pain, then knee, then fever, then gives the default reason |
| ChatbotProcedures.ReasonTableAsChain | src/app/api/chatbot/procedures/route.ts:151-174 | the decision table gives the same reason as the endpoint's if/else chain for every symptoms and name |
| ChatbotProcedures.AssignReason | src/app/api/chatbot/procedures/route.ts:151-174 | the `let reason` chain assigns exactly the table's reason |
| ChatbotProcedures.DefaultReasonIffNoKeyword | src/app/api/chatbot/procedures/route.ts:171-174 | the default reason is given exactly when the symptoms mention none of pain, knee and fever |
| ChatbotProcedures.KeywordPriority | src/app/api/chatbot/procedures/route.ts:153-170 | pain outranks knee, which outranks fever: once a keyword matches only its own reasons, or none, can be given |
| ChatbotProcedures.PainBranchOrder | src/app/api/chatbot/procedures/route.ts:151-160 | in the pain branch x-ray/mri beat consultation, which beats therapy, and a name matching none leaves the reason empty |
| ChatbotProcedures.ReasonIgnoresCase | src/app/api/chatbot/procedures/route.ts:153-168 | upper-casing the symptoms or the name never changes the reason |
| ChatbotProcedures.SuggestWithReasons | src/app/api/chatbot/procedures/route.ts:149-180 | one suggestion per procedure, in order, each the procedure unchanged with its reason attached |

## Left out

- Database and remote calls are not modelled:
  - Supabase queries and their error paths outside the rows given as inputs;
  - the 404 responses of the handlers;
  - the vector search and OpenAI clients.
  Their answers are inputs.
- The procedure lookup of the insurance endpoint is not modelled. `procedure.id` is an input.
- `.limit(5)` on the text-search queries is not modelled: the returned rows are taken as given.
- The chatbot's cost lookup per procedure (`src/app/api/chatbot/procedures/route.ts:85-146`) is left out. It is I/O only; its results are the `ProcedureWithCost` inputs of `SuggestWithReasons`.
- The `created_at` and `updated_at` fields that each comparison copies from its plan and coverage record (lines 133-134 and 143-144 of `src/app/api/insurance/compare/route.ts`) are not modelled. They are passed through unchanged, and `MakeComparison` leaves them out.
- Floating point is not modelled: rounding error, `Math.round` of the reported figures, and `Math.pow`. Figures are exact reals and are reported before rounding.
- `Math.sqrt` is a parameter that satisfies the square-root law, not a computed function.
- `Math.random` is an input draw per point.
- JavaScript `Date` is not modelled:
  - parsing, `toISOString`, time zones and the day of the month;
  - `setMonth` overflow for days above 28.
  Dates are (year, month) pairs.
- `parseFloat` of "N miles" distance strings is not modelled. A distance is a number of miles.
- The confidence level of `calculateConfidenceIntervals` is a parameter. `forecastProcedureCosts` always passes 0.95; `ZScore` gives 2.58 for any other level.
- Forecasting.TrendAgainstPositiveHistory: states the ±5 % rule only for a positive last historical value. For a zero value the function follows the JavaScript infinities and NaN by the sign of the last forecast. For a negative value the comparison flips; cost rows are never negative.
- InsuranceCompare.SortBySavingsDescending: states order and permutation, not stability. The insertion step moves an entry only past strictly smaller savings, as a stable sort would.
- InsuranceCompare.CompareInsurance: states the result up to order among equal savings (a permutation of the covered plans' comparisons), not the exact order of ties.
- Falsy request values other than absent and empty strings (`null`, `0`, `false` in a JSON body) are not modelled. Parameters are optional strings.
- `toLowerCase` is modelled on ASCII letters only. Other Unicode case mappings (accented capitals, the Kelvin sign) are not modelled.
- Strings are sequences of code points. UTF-16 surrogate pairs are not modelled.
- `\w` and `\s` are modelled without the Unicode flag, as JavaScript reads them: ASCII word characters, and the ECMAScript white-space and line-terminator set.
- Of the error paths in `analyzeProcedureCosts`, only the empty input is modelled, as None for its mean, minimum and maximum (NaN, Infinity and −Infinity in JavaScript).

## Findings

| source | as written | input that shows it | evidently intended | confidence | as-written member | corrected member |
|---|---|---|---|---|---|---|
| src/lib/ml/forecasting.ts:117-118 | the lower bound is raised to 0 but the upper bound is not, so a negative projection deeper than the margin gets a band [0, f + margin] whose upper end is below 0 | history [100, 10] with two periods: the second projected value is −170, the margin 1.96·45 = 88.2, the band as written [0, −81.8] | a band never inverted: the upper bound raised to 0 as well, so 0 ≤ lower ≤ upper | not executed | Forecasting.AsWrittenBandInverts | Forecasting.ConfidenceIntervals |
