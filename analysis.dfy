/** The cost analysis helpers over hospital cost rows already fetched: summary
    figures, a majority vote on trend labels, rankings by cost, trend counts
    and the figures derived per cost row. Distances are numbers of miles. */
module Analysis {
  import opened Common

  const Rising: string := "Rising"
  const Stable: string := "Stable"
  const Decreasing: string := "Decreasing"
  const DefaultMaxDistance: real := 50.0

  datatype Procedure = Procedure(id: string, name: string)

  /** `insurance` is optional on a hospital: None when the list is absent. */
  datatype Hospital = Hospital(id: string, name: string, distance: real, insurance: Option<seq<string>>)

  /** A row of `procedure_costs`. */
  datatype ProcedureCost = ProcedureCost(
    averageCost: real, minCost: real, maxCost: real,
    insuranceCoverage: real, outOfPocketCost: real, costTrend: string)

  datatype HospitalCost = HospitalCost(hospital: Hospital, cost: ProcedureCost)

  /** An entry of the `hospitals` list of an analysis. */
  datatype RankedHospital = RankedHospital(hospital: Hospital, cost: real, distance: real)

  /** A figure that JavaScript computes as NaN or an infinity is None. */
  datatype CostAnalysis = CostAnalysis(
    procedure: Procedure, averageCost: Option<real>, minCost: Option<real>, maxCost: Option<real>,
    costTrend: string, hospitals: seq<RankedHospital>)

  /** `Math.min(...s)` for a non-empty s. */
  function MinOf(s: seq<real>): (m: real)
    requires |s| > 0
    ensures m in s && forall x :: x in s ==> m <= x
  {
    if |s| == 1 then s[0]
    else
      var rest := MinOf(s[1..]);
      assert forall x :: x in s ==> x == s[0] || x in s[1..];
      Min(s[0], rest)
  }

  /** `Math.max(...s)` for a non-empty s. */
  function MaxOf(s: seq<real>): (m: real)
    requires |s| > 0
    ensures m in s && forall x :: x in s ==> x <= m
  {
    if |s| == 1 then s[0]
    else
      var rest := MaxOf(s[1..]);
      assert forall x :: x in s ==> x == s[0] || x in s[1..];
      Max(s[0], rest)
  }

  function AverageCosts(hcs: seq<HospitalCost>): (r: seq<real>)
    ensures |r| == |hcs| && forall i :: 0 <= i < |hcs| ==> r[i] == hcs[i].cost.averageCost
  {
    seq(|hcs|, i requires 0 <= i < |hcs| => hcs[i].cost.averageCost)
  }

  function MinCosts(hcs: seq<HospitalCost>): (r: seq<real>)
    ensures |r| == |hcs| && forall i :: 0 <= i < |hcs| ==> r[i] == hcs[i].cost.minCost
  {
    seq(|hcs|, i requires 0 <= i < |hcs| => hcs[i].cost.minCost)
  }

  function MaxCosts(hcs: seq<HospitalCost>): (r: seq<real>)
    ensures |r| == |hcs| && forall i :: 0 <= i < |hcs| ==> r[i] == hcs[i].cost.maxCost
  {
    seq(|hcs|, i requires 0 <= i < |hcs| => hcs[i].cost.maxCost)
  }

  function Trends(hcs: seq<HospitalCost>): (r: seq<string>)
    ensures |r| == |hcs| && forall i :: 0 <= i < |hcs| ==> r[i] == hcs[i].cost.costTrend
  {
    seq(|hcs|, i requires 0 <= i < |hcs| => hcs[i].cost.costTrend)
  }

  /** The overall label: the more frequent of Rising and Decreasing, Stable on a tie. */
  function MajorityTrend(trends: seq<string>): (t: string)
    ensures t == Rising <==> Count(trends, Rising) > Count(trends, Decreasing)
    ensures t == Decreasing <==> Count(trends, Decreasing) > Count(trends, Rising)
    ensures t == Stable <==> Count(trends, Rising) == Count(trends, Decreasing)
  {
    var risingCount := Count(trends, Rising);
    var decreasingCount := Count(trends, Decreasing);
    if risingCount > decreasingCount then Rising
    else if decreasingCount > risingCount then Decreasing
    else Stable
  }

  /** The vote depends only on how many rows carry each label, not on their order. */
  lemma MajorityTrendIgnoresOrder(s: seq<string>, t: seq<string>)
    requires multiset(s) == multiset(t)
    ensures MajorityTrend(s) == MajorityTrend(t)
  {
  }

  /** Rows whose labels are all Rising vote Rising. */
  lemma UnanimousRisingVotesRising(trends: seq<string>)
    requires |trends| > 0 && forall i :: 0 <= i < |trends| ==> trends[i] == Rising
    ensures MajorityTrend(trends) == Rising
  {
    assert trends[0] in multiset(trends);
    assert Decreasing !in multiset(trends);
  }

  function RankOf(hc: HospitalCost): RankedHospital
  {
    RankedHospital(hc.hospital, hc.cost.averageCost, hc.hospital.distance)
  }

  function Ranked(hcs: seq<HospitalCost>): (r: seq<RankedHospital>)
    ensures |r| == |hcs| && forall i :: 0 <= i < |hcs| ==> r[i] == RankOf(hcs[i])
  {
    seq(|hcs|, i requires 0 <= i < |hcs| => RankOf(hcs[i]))
  }

  function RankedCost(h: RankedHospital): real
  {
    h.cost
  }

  /** The mean average cost of rows that exist. */
  function MeanAverageCost(hcs: seq<HospitalCost>): (m: real)
    requires |hcs| > 0
    ensures m * |hcs| as real == Sum(AverageCosts(hcs))
  {
    var costs := AverageCosts(hcs);
    var n := |costs|;
    assert n == |hcs|;
    Mean(costs)
  }

  /** `Math.min(...rows.map(min_cost))` for rows that exist. */
  function LowestMinCost(hcs: seq<HospitalCost>): (lo: real)
    requires |hcs| > 0
    ensures exists i :: 0 <= i < |hcs| && lo == hcs[i].cost.minCost
    ensures forall i :: 0 <= i < |hcs| ==> lo <= hcs[i].cost.minCost
  {
    var mins := MinCosts(hcs);
    assert forall i :: 0 <= i < |hcs| ==> mins[i] in mins;
    MinOf(mins)
  }

  /** `Math.max(...rows.map(max_cost))` for rows that exist. */
  function HighestMaxCost(hcs: seq<HospitalCost>): (hi: real)
    requires |hcs| > 0
    ensures exists i :: 0 <= i < |hcs| && hi == hcs[i].cost.maxCost
    ensures forall i :: 0 <= i < |hcs| ==> hcs[i].cost.maxCost <= hi
  {
    var maxs := MaxCosts(hcs);
    assert forall i :: 0 <= i < |hcs| ==> maxs[i] in maxs;
    MaxOf(maxs)
  }

  /** The `hospitals` list: one entry per row, cheapest first. */
  function RankByCost(hcs: seq<HospitalCost>): (r: seq<RankedHospital>)
    ensures |r| == |hcs| && multiset(r) == multiset(Ranked(hcs))
    ensures forall i, j :: 0 <= i < j < |r| ==> r[i].cost <= r[j].cost
  {
    var r := SortBy(Ranked(hcs), RankedCost);
    assert forall i, j :: 0 <= i < j < |r| ==> RankedCost(r[i]) <= RankedCost(r[j]);
    r
  }

  /** `analyzeProcedureCosts`: mean, minimum and maximum of the rows (NaN and
      the infinities for no rows), the majority trend, and one entry per row
      ascending by cost. */
  function AnalyzeProcedureCosts(procedure: Procedure, hcs: seq<HospitalCost>): (a: CostAnalysis)
    ensures a.procedure == procedure
    ensures a.averageCost.None? <==> |hcs| == 0
    ensures a.minCost.None? <==> |hcs| == 0
    ensures a.maxCost.None? <==> |hcs| == 0
    ensures |hcs| > 0 ==> a.averageCost.value == MeanAverageCost(hcs)
    ensures |hcs| > 0 ==>
      (exists i :: 0 <= i < |hcs| && a.minCost.value == hcs[i].cost.minCost)
      && forall i :: 0 <= i < |hcs| ==> a.minCost.value <= hcs[i].cost.minCost
    ensures |hcs| > 0 ==>
      (exists i :: 0 <= i < |hcs| && a.maxCost.value == hcs[i].cost.maxCost)
      && forall i :: 0 <= i < |hcs| ==> hcs[i].cost.maxCost <= a.maxCost.value
    ensures a.costTrend == MajorityTrend(Trends(hcs))
    ensures |a.hospitals| == |hcs| && multiset(a.hospitals) == multiset(Ranked(hcs))
    ensures forall i, j :: 0 <= i < j < |a.hospitals| ==> a.hospitals[i].cost <= a.hospitals[j].cost
  {
    if |hcs| == 0 then
      CostAnalysis(procedure, None, None, None, MajorityTrend(Trends(hcs)), RankByCost(hcs))
    else
      CostAnalysis(procedure, Some(MeanAverageCost(hcs)), Some(LowestMinCost(hcs)), Some(HighestMaxCost(hcs)),
        MajorityTrend(Trends(hcs)), RankByCost(hcs))
  }

  function AverageCostOf(hc: HospitalCost): real
  {
    hc.cost.averageCost
  }

  /** `findBestValueHospitals`: the rows within `maxDistance` miles (50 by
      default), cheapest first. */
  function FindBestValueHospitals(hcs: seq<HospitalCost>, maxDistance: real): (r: seq<HospitalCost>)
    ensures forall hc :: multiset(r)[hc] == if hc.hospital.distance <= maxDistance then multiset(hcs)[hc] else 0
    ensures forall i, j :: 0 <= i < j < |r| ==> r[i].cost.averageCost <= r[j].cost.averageCost
  {
    var withinReach := (hc: HospitalCost) => hc.hospital.distance <= maxDistance;
    KeepSelects(hcs, withinReach);
    var r := SortBy(Keep(hcs, withinReach), AverageCostOf);
    assert forall i, j :: 0 <= i < j < |r| ==> AverageCostOf(r[i]) <= AverageCostOf(r[j]);
    r
  }

  /** An entry of the savings list. */
  datatype HospitalSavings = HospitalSavings(hospital: Hospital, savings: real)

  function SavingsOf(hc: HospitalCost): (s: HospitalSavings)
    ensures s.hospital == hc.hospital
    ensures s.savings + hc.cost.outOfPocketCost == hc.cost.averageCost
  {
    HospitalSavings(hc.hospital, hc.cost.averageCost - hc.cost.outOfPocketCost)
  }

  function NegatedSavings(s: HospitalSavings): real
  {
    -s.savings
  }

  /** `calculateInsuranceSavings`: one entry per row, the largest saving first. */
  function CalculateInsuranceSavings(procedure: Procedure, hcs: seq<HospitalCost>): (r: seq<HospitalSavings>)
    ensures |r| == |hcs|
    ensures multiset(r) == multiset(seq(|hcs|, i requires 0 <= i < |hcs| => SavingsOf(hcs[i])))
    ensures forall i, j :: 0 <= i < j < |r| ==> r[i].savings >= r[j].savings
  {
    var r := SortBy(seq(|hcs|, i requires 0 <= i < |hcs| => SavingsOf(hcs[i])), NegatedSavings);
    assert forall i, j :: 0 <= i < j < |r| ==> NegatedSavings(r[i]) <= NegatedSavings(r[j]);
    r
  }

  /** The three label counts. */
  datatype TrendDistribution = TrendDistribution(rising: nat, stable: nat, decreasing: nat)

  /** `analyzeCostTrendDistribution`. */
  function AnalyzeCostTrendDistribution(hcs: seq<HospitalCost>): (d: TrendDistribution)
    ensures d.rising == multiset(Trends(hcs))[Rising]
    ensures d.stable == multiset(Trends(hcs))[Stable]
    ensures d.decreasing == multiset(Trends(hcs))[Decreasing]
  {
    var trends := Trends(hcs);
    TrendDistribution(Count(trends, Rising), Count(trends, Stable), Count(trends, Decreasing))
  }

  /** Where every label is one of the three, the counts add up to the number of rows. */
  lemma {:induction false} ValidLabelsAreAllCounted(trends: seq<string>)
    requires forall i :: 0 <= i < |trends| ==> trends[i] == Rising || trends[i] == Stable || trends[i] == Decreasing
    ensures Count(trends, Rising) + Count(trends, Stable) + Count(trends, Decreasing) == |trends|
  {
    if trends != [] {
      ValidLabelsAreAllCounted(trends[..|trends| - 1]);
    }
  }

  lemma DistributionCountsEveryRow(hcs: seq<HospitalCost>)
    requires forall i :: 0 <= i < |hcs| ==> hcs[i].cost.costTrend in {Rising, Stable, Decreasing}
    ensures var d := AnalyzeCostTrendDistribution(hcs);
            d.rising + d.stable + d.decreasing == |hcs|
  {
    ValidLabelsAreAllCounted(Trends(hcs));
  }

  function OutOfPocketOf(hc: HospitalCost): real
  {
    hc.cost.outOfPocketCost
  }

  /** Whether the hospital's insurance list names `insurance`. */
  predicate Accepts(hc: HospitalCost, insurance: string)
  {
    hc.hospital.insurance.Some? && insurance in hc.hospital.insurance.value
  }

  /** `findMostAffordableHospitals`: the rows of hospitals that accept
      `insurance`, lowest out-of-pocket cost first. `includes` is called on
      every row's list, so a row without one makes the call throw: None. */
  function FindMostAffordableHospitals(hcs: seq<HospitalCost>, insurance: string): (r: Option<seq<HospitalCost>>)
    ensures r.None? <==> exists i :: 0 <= i < |hcs| && hcs[i].hospital.insurance.None?
    ensures r.Some? ==> forall hc :: multiset(r.value)[hc] == if Accepts(hc, insurance) then multiset(hcs)[hc] else 0
    ensures r.Some? ==> forall i, j :: 0 <= i < j < |r.value| ==> r.value[i].cost.outOfPocketCost <= r.value[j].cost.outOfPocketCost
  {
    if exists i :: 0 <= i < |hcs| && hcs[i].hospital.insurance.None? then None
    else
      var accepts := (hc: HospitalCost) => Accepts(hc, insurance);
      KeepSelects(hcs, accepts);
      var r := SortBy(Keep(hcs, accepts), OutOfPocketOf);
      assert forall i, j :: 0 <= i < j < |r| ==> OutOfPocketOf(r[i]) <= OutOfPocketOf(r[j]);
      Some(r)
  }

  /** `(insurance_coverage / average_cost) * 100`; None where the average
      cost is 0 (an infinity or NaN in JavaScript). */
  function CoverageScore(cost: ProcedureCost): (s: Option<real>)
    ensures s.None? <==> cost.averageCost == 0.0
    ensures s.Some? ==> s.value * cost.averageCost == cost.insuranceCoverage * 100.0
  {
    if cost.averageCost == 0.0 then None
    else Some(cost.insuranceCoverage / cost.averageCost * 100.0)
  }

  /** A row of `compareProcedureCosts`. */
  datatype CostComparisonRow = CostComparisonRow(cost: ProcedureCost, savingsOpportunity: real, costEffectivenessScore: Option<real>)

  /** A row of `findCostEffectiveHospitals`. */
  datatype CostEffectiveRow = CostEffectiveRow(cost: ProcedureCost, valueScore: Option<real>, potentialSavings: real)

  function CompareRow(cost: ProcedureCost): (r: CostComparisonRow)
    ensures r.cost == cost
    ensures r.savingsOpportunity + cost.minCost == cost.maxCost
    ensures r.costEffectivenessScore == CoverageScore(cost)
  {
    CostComparisonRow(cost, cost.maxCost - cost.minCost, CoverageScore(cost))
  }

  function EffectiveRow(cost: ProcedureCost): (r: CostEffectiveRow)
    ensures r.cost == cost
    ensures r.potentialSavings + cost.averageCost == cost.maxCost
    ensures r.valueScore == CoverageScore(cost)
  {
    CostEffectiveRow(cost, CoverageScore(cost), cost.maxCost - cost.averageCost)
  }

  /** For a row whose average lies within its range, the potential saving is
      part of the saving opportunity and neither is negative. */
  lemma PotentialSavingsWithinOpportunity(cost: ProcedureCost)
    requires cost.minCost <= cost.averageCost <= cost.maxCost
    ensures 0.0 <= EffectiveRow(cost).potentialSavings <= CompareRow(cost).savingsOpportunity
  {
  }
}
