/** The insurance comparison endpoint, from the fetched rows onward: the mean
    procedure cost, a coverage map keyed by plan, one comparison per covered
    plan, and the comparisons sorted by annual savings, highest first. */
module InsuranceCompare {
  import opened Common

  const BadRequest: nat := 400
  const InNetwork: string := "in-network"

  /** `searchParams.get(...)`: None when the parameter is absent. */
  datatype Request = Request(procedure: Option<string>, zipCode: Option<string>)

  /** A parameter that is absent or empty is falsy. */
  predicate Present(p: Option<string>)
  {
    p.Some? && p.value != ""
  }

  /** The 400 check: both the procedure name and the ZIP code must be given. */
  function CheckRequest(request: Request): (r: Result<(string, string), nat>)
    ensures r.Err? <==> !Present(request.procedure) || !Present(request.zipCode)
    ensures r.Err? ==> r.error == BadRequest
    ensures r.Ok? ==> r.value == (request.procedure.value, request.zipCode.value) && r.value.0 != "" && r.value.1 != ""
  {
    if !Present(request.procedure) || !Present(request.zipCode) then Err(BadRequest)
    else Ok((request.procedure.value, request.zipCode.value))
  }

  /** A row of `procedure_costs` as selected here. */
  datatype CostRow = CostRow(averageCost: real, minCost: real, maxCost: real)

  function AverageCosts(rows: seq<CostRow>): (r: seq<real>)
    ensures |r| == |rows| && forall i :: 0 <= i < |rows| ==> r[i] == rows[i].averageCost
  {
    seq(|rows|, i requires 0 <= i < |rows| => rows[i].averageCost)
  }

  /** The mean of `average_cost` over the rows, 0 when there are none. */
  function AverageCost(rows: seq<CostRow>): (avg: real)
    ensures |rows| == 0 ==> avg == 0.0
    ensures |rows| > 0 ==> avg * |rows| as real == Sum(AverageCosts(rows))
  {
    if |rows| == 0 then 0.0
    else
      var costs := AverageCosts(rows);
      var n := |costs|;
      assert n == |rows|;
      Mean(costs)
  }

  /** A row of `insurance_plans`. */
  datatype Plan = Plan(
    id: string, provider: string, name: string, planType: string,
    annualPremium: real, deductible: real, copayPercentage: real)

  /** A row of `procedure_coverage`. */
  datatype Coverage = Coverage(id: string, insurancePlanId: string, coveragePercentage: real, priorAuthorizationRequired: bool)

  /** The coverage map after `set` has been called for every record in order. */
  function CoverageMapOf(coverageData: seq<Coverage>): map<string, Coverage>
  {
    if coverageData == [] then map[]
    else
      var last := coverageData[|coverageData| - 1];
      CoverageMapOf(coverageData[..|coverageData| - 1])[last.insurancePlanId := last]
  }

  /** Every plan with a record has an entry, and every entry is a record of
      its own plan. */
  lemma {:induction false} CoverageMapKeys(coverageData: seq<Coverage>)
    ensures forall c :: c in coverageData ==> c.insurancePlanId in CoverageMapOf(coverageData)
    ensures forall id :: id in CoverageMapOf(coverageData) ==>
      CoverageMapOf(coverageData)[id] in coverageData && CoverageMapOf(coverageData)[id].insurancePlanId == id
  {
    if coverageData != [] {
      var init := coverageData[..|coverageData| - 1];
      CoverageMapKeys(init);
      assert coverageData == init + [coverageData[|coverageData| - 1]];
    }
  }

  /** `coverageData.forEach(coverage => coverageMap.set(...))`. */
  method BuildCoverageMap(coverageData: seq<Coverage>) returns (coverageMap: map<string, Coverage>)
    ensures coverageMap == CoverageMapOf(coverageData)
  {
    coverageMap := map[];
    var i := 0;
    while i < |coverageData|
      invariant 0 <= i <= |coverageData|
      invariant coverageMap == CoverageMapOf(coverageData[..i])
    {
      assert coverageData[..i + 1][..i] == coverageData[..i];
      coverageMap := coverageMap[coverageData[i].insurancePlanId := coverageData[i]];
      i := i + 1;
    }
    assert coverageData[..i] == coverageData;
  }

  /** The map holds, for each plan, the last of its records: a record that
      no later record for the same plan follows is the one kept. */
  lemma {:induction false} LastRecordWins(coverageData: seq<Coverage>, i: nat)
    requires i < |coverageData|
    requires forall j :: i < j < |coverageData| ==> coverageData[j].insurancePlanId != coverageData[i].insurancePlanId
    ensures coverageData[i].insurancePlanId in CoverageMapOf(coverageData)
    ensures CoverageMapOf(coverageData)[coverageData[i].insurancePlanId] == coverageData[i]
  {
    var n := |coverageData|;
    if i < n - 1 {
      var init := coverageData[..n - 1];
      assert CoverageMapOf(coverageData) == CoverageMapOf(init)[coverageData[n - 1].insurancePlanId := coverageData[n - 1]];
      assert init[i] == coverageData[i];
      LastRecordWins(init, i);
    }
  }

  /** `plan` as the comparison reports it. */
  datatype PlanSummary = PlanSummary(
    id: string, providerName: string, planName: string, planType: string,
    annualPremium: real, annualDeductible: real, coinsurancePercentage: real,
    copayAmount: Option<real>, outOfPocketMax: real)

  /** `coverage` as the comparison reports it. */
  datatype CoverageSummary = CoverageSummary(
    id: string, insurancePlanId: string, procedureId: string, coveragePercentage: real,
    priorAuthorizationRequired: bool, networkStatus: string)

  datatype Comparison = Comparison(
    plan: PlanSummary, coverage: CoverageSummary,
    estimatedCost: real, outOfPocketCost: real, annualSavings: real)

  /** The part of the cost the plan pays. */
  function CoverageAmount(averageCost: real, coveragePercentage: real): real
  {
    (averageCost * coveragePercentage) / 100.0
  }

  /** The cost left after coverage, plus the deductible, never below 0. */
  function OutOfPocket(averageCost: real, coveragePercentage: real, deductible: real): (oop: real)
    ensures oop >= 0.0
    ensures oop >= averageCost - CoverageAmount(averageCost, coveragePercentage) + deductible
    ensures oop == 0.0 || oop == averageCost - CoverageAmount(averageCost, coveragePercentage) + deductible
  {
    Max(averageCost - CoverageAmount(averageCost, coveragePercentage) + deductible, 0.0)
  }

  /** For a non-negative cost, more coverage never raises the out-of-pocket cost. */
  lemma MoreCoverageNeverCostsMore(averageCost: real, p1: real, p2: real, deductible: real)
    requires averageCost >= 0.0 && p1 <= p2
    ensures OutOfPocket(averageCost, p2, deductible) <= OutOfPocket(averageCost, p1, deductible)
  {
    assert CoverageAmount(averageCost, p1) <= CoverageAmount(averageCost, p2) by {
      MultiplyMonotone(p2, p1, averageCost);
    }
  }

  /** Coverage between 0 and 100 percent, a non-negative cost and deductible:
      the patient pays at most the cost plus the deductible. */
  lemma OutOfPocketAtMostCostPlusDeductible(averageCost: real, coveragePercentage: real, deductible: real)
    requires averageCost >= 0.0 && deductible >= 0.0 && 0.0 <= coveragePercentage <= 100.0
    ensures OutOfPocket(averageCost, coveragePercentage, deductible) <= averageCost + deductible
  {
    assert CoverageAmount(averageCost, coveragePercentage) >= 0.0 by {
      MultiplyMonotone(coveragePercentage, 0.0, averageCost);
    }
  }

  /** The comparison of a plan that has a coverage record. */
  function MakeComparison(plan: Plan, coverage: Coverage, averageCost: real, procedureId: string): (c: Comparison)
    ensures c.plan.id == plan.id && c.coverage.insurancePlanId == plan.id && c.coverage.id == coverage.id
    ensures c.estimatedCost == averageCost
    ensures c.outOfPocketCost == OutOfPocket(averageCost, coverage.coveragePercentage, plan.deductible)
    ensures c.annualSavings + c.outOfPocketCost + plan.annualPremium == averageCost
    ensures c.plan.outOfPocketMax == 2.0 * plan.deductible
  {
    var outOfPocketCost := OutOfPocket(averageCost, coverage.coveragePercentage, plan.deductible);
    var annualSavings := averageCost - outOfPocketCost - plan.annualPremium;
    Comparison(
      PlanSummary(plan.id, plan.provider, plan.name, plan.planType, plan.annualPremium, plan.deductible,
        plan.copayPercentage, None, plan.deductible * 2.0),
      CoverageSummary(coverage.id, plan.id, procedureId, coverage.coveragePercentage,
        coverage.priorAuthorizationRequired, InNetwork),
      averageCost, outOfPocketCost, annualSavings)
  }

  /** The plans that have a coverage record, in plan order. */
  function CoveredPlans(plans: seq<Plan>, coverageMap: map<string, Coverage>): (covered: seq<Plan>)
    ensures forall k :: 0 <= k < |covered| ==> covered[k].id in coverageMap
  {
    var hasCoverage := (p: Plan) => p.id in coverageMap;
    var covered := Keep(plans, hasCoverage);
    KeepSelects(plans, hasCoverage);
    assert forall k :: 0 <= k < |covered| ==> covered[k] in multiset(covered);
    covered
  }

  /** `plans.map(...).filter(Boolean)`: a comparison for each plan that has a
      coverage record; plans without one are dropped. */
  function Comparisons(plans: seq<Plan>, coverageMap: map<string, Coverage>, averageCost: real, procedureId: string): (r: seq<Comparison>)
    ensures |r| <= |plans|
    ensures forall i :: 0 <= i < |r| ==> r[i].plan.id in coverageMap
    ensures forall p :: p in plans && p.id in coverageMap ==>
      MakeComparison(p, coverageMap[p.id], averageCost, procedureId) in r
    ensures forall c :: c in r ==> exists p :: p in plans && p.id in coverageMap && c == MakeComparison(p, coverageMap[p.id], averageCost, procedureId)
  {
    if plans == [] then []
    else
      var init := plans[..|plans| - 1];
      var last := plans[|plans| - 1];
      var front := Comparisons(init, coverageMap, averageCost, procedureId);
      assert forall p :: p in plans ==> p == last || p in init;
      if last.id in coverageMap then
        front + [MakeComparison(last, coverageMap[last.id], averageCost, procedureId)]
      else front
  }

  /** `r` holds, position by position, the comparisons of the plans `covered`. */
  ghost predicate ComparesInOrder(r: seq<Comparison>, covered: seq<Plan>, coverageMap: map<string, Coverage>, averageCost: real, procedureId: string)
  {
    && |r| == |covered|
    && forall k :: 0 <= k < |r| ==>
         covered[k].id in coverageMap && r[k] == MakeComparison(covered[k], coverageMap[covered[k].id], averageCost, procedureId)
  }

  lemma ComparesInOrderAppend(r: seq<Comparison>, covered: seq<Plan>, plan: Plan, coverageMap: map<string, Coverage>, averageCost: real, procedureId: string)
    requires ComparesInOrder(r, covered, coverageMap, averageCost, procedureId)
    requires plan.id in coverageMap
    ensures ComparesInOrder(r + [MakeComparison(plan, coverageMap[plan.id], averageCost, procedureId)], covered + [plan], coverageMap, averageCost, procedureId)
  {
  }

  /** Exactly one comparison per covered plan, in plan order: the k-th
      comparison is that of the k-th covered plan. */
  lemma {:induction false} ComparisonsFollowCoveredPlans(plans: seq<Plan>, coverageMap: map<string, Coverage>, averageCost: real, procedureId: string)
    ensures ComparesInOrder(Comparisons(plans, coverageMap, averageCost, procedureId), CoveredPlans(plans, coverageMap), coverageMap, averageCost, procedureId)
  {
    if plans != [] {
      var init := plans[..|plans| - 1];
      var last := plans[|plans| - 1];
      ComparisonsFollowCoveredPlans(init, coverageMap, averageCost, procedureId);
      CoveredPlansStep(plans, coverageMap);
      if last.id in coverageMap {
        ComparesInOrderAppend(Comparisons(init, coverageMap, averageCost, procedureId), CoveredPlans(init, coverageMap),
          last, coverageMap, averageCost, procedureId);
      }
    }
  }

  /** Filtering one more plan appends it exactly when it is covered. */
  lemma CoveredPlansStep(plans: seq<Plan>, coverageMap: map<string, Coverage>)
    requires plans != []
    ensures CoveredPlans(plans, coverageMap) ==
      CoveredPlans(plans[..|plans| - 1], coverageMap) + (if plans[|plans| - 1].id in coverageMap then [plans[|plans| - 1]] else [])
  {
  }

  /** Ascending order of annual savings reversed: highest first. */
  ghost predicate SavingsDescending(s: seq<Comparison>)
  {
    forall i, j :: 0 <= i < j < |s| ==> s[i].annualSavings >= s[j].annualSavings
  }

  /** `comparisons.sort((a, b) => b.annual_savings - a.annual_savings)`, in
      place: an insertion sort from the front. */
  method SortBySavingsDescending(a: array<Comparison>)
    modifies a
    ensures SavingsDescending(a[..])
    ensures multiset(a[..]) == multiset(old(a[..]))
  {
    var i := 0;
    while i < a.Length
      invariant 0 <= i <= a.Length
      invariant SavingsDescending(a[..i])
      invariant multiset(a[..]) == multiset(old(a[..]))
    {
      InsertIntoPrefix(a, i);
      i := i + 1;
    }
    assert a[..i] == a[..];
  }

  /** Moves `a[i]` ahead past the entries of the sorted prefix `a[..i]` with
      strictly smaller savings, so that it stays behind equal ones. */
  method InsertIntoPrefix(a: array<Comparison>, i: nat)
    requires i < a.Length && SavingsDescending(a[..i])
    modifies a
    ensures SavingsDescending(a[..i + 1])
    ensures multiset(a[..]) == multiset(old(a[..]))
    ensures a[i + 1..] == old(a[i + 1..])
  {
    var j := i;
    while j > 0 && a[j - 1].annualSavings < a[j].annualSavings
      invariant 0 <= j <= i
      invariant multiset(a[..]) == multiset(old(a[..]))
      invariant a[i + 1..] == old(a[i + 1..])
      invariant forall k, m :: 0 <= k < m <= i && m != j ==> a[k].annualSavings >= a[m].annualSavings
      invariant j < i ==> a[j].annualSavings > a[j + 1].annualSavings
    {
      Swap(a, j - 1);
      j := j - 1;
    }
  }

  /** Exchanges the neighbours `a[k]` and `a[k + 1]`. */
  method Swap(a: array<Comparison>, k: nat)
    requires k + 1 < a.Length
    modifies a
    ensures a[..] == old(a[..])[k := old(a[k + 1])][k + 1 := old(a[k])]
    ensures multiset(a[..]) == multiset(old(a[..]))
  {
    a[k], a[k + 1] := a[k + 1], a[k];
  }

  /** The comparison step of the endpoint, the rows given instead of fetched. */
  method CompareInsurance(procedureId: string, procedureCosts: seq<CostRow>, plans: seq<Plan>, coverageData: seq<Coverage>)
    returns (comparisons: seq<Comparison>)
    ensures multiset(comparisons) == multiset(Comparisons(plans, CoverageMapOf(coverageData), AverageCost(procedureCosts), procedureId))
    ensures SavingsDescending(comparisons)
    ensures |comparisons| <= |plans|
  {
    var averageCost := AverageCost(procedureCosts);
    var coverageMap := BuildCoverageMap(coverageData);
    var unsorted := Comparisons(plans, coverageMap, averageCost, procedureId);
    var a := new Comparison[|unsorted|](i requires 0 <= i < |unsorted| => unsorted[i]);
    assert a[..] == unsorted;
    SortBySavingsDescending(a);
    comparisons := a[..];
    assert |comparisons| == |multiset(comparisons)| == |multiset(unsorted)| == |unsorted|;
  }
}
