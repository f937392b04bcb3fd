/** `NaiveBudgetAccountant`: splits (epsilon, delta) over the registered
    mechanisms in proportion to their final weights and counts. */
module NaiveAccountant {
  import opened Wrappers
  import opened Errors
  import opened Mechanisms
  import opened Accountant

  // ---------------------------------------------------------------------
  // The proportional split, as functions of the registry
  // ---------------------------------------------------------------------

  /** One record's share of the total weight: `weight * count`. */
  function Share(m: MechanismSpecInternal): real
  {
    m.weight * (m.mechanismSpec.count as real)
  }

  /** `total_weight_eps`: the sum of `weight * count` over all records. */
  function WeightedTotal(ms: seq<MechanismSpecInternal>): real
  {
    if ms == [] then 0.0 else Share(ms[0]) + WeightedTotal(ms[1..])
  }

  /** `total_weight_delta`: the same sum over the records that use delta. */
  function DeltaWeightedTotal(ms: seq<MechanismSpecInternal>): real
  {
    if ms == [] then 0.0
    else (if ms[0].mechanismSpec.UseDelta() then Share(ms[0]) else 0.0) + DeltaWeightedTotal(ms[1..])
  }

  /** `total * weight / t`, or 0 when `t` is 0 (the `if total_weight:` guard). */
  function Portion(total: real, weight: real, t: real): real
  {
    if t != 0.0 then total * weight / t else 0.0
  }

  /** The eps the naive split gives record `k`. */
  function NaiveEps(totalEpsilon: real, ms: seq<MechanismSpecInternal>, k: nat): (e: real)
    requires k < |ms|
    ensures WeightedTotal(ms) == 0.0 ==> e == 0.0
    ensures WeightedTotal(ms) != 0.0 ==> e * WeightedTotal(ms) == totalEpsilon * ms[k].weight
  {
    Portion(totalEpsilon, ms[k].weight, WeightedTotal(ms))
  }

  /** The delta the naive split gives record `k`: nothing to a Laplace record. */
  function NaiveDelta(totalDelta: real, ms: seq<MechanismSpecInternal>, k: nat): (d: real)
    requires k < |ms|
    ensures !ms[k].mechanismSpec.UseDelta() ==> d == 0.0
    ensures ms[k].mechanismSpec.mechanismType == Laplace ==> d == 0.0
  {
    if ms[k].mechanismSpec.UseDelta() then Portion(totalDelta, ms[k].weight, DeltaWeightedTotal(ms))
    else 0.0
  }

  /** Sum of `Portion(total, weight, t) * count` over the records: with
      `t == WeightedTotal(ms)` this is the sum of `NaiveEps * count`. */
  function SpentEps(total: real, t: real, ms: seq<MechanismSpecInternal>): real
  {
    if ms == [] then 0.0
    else Portion(total, ms[0].weight, t) * (ms[0].mechanismSpec.count as real) + SpentEps(total, t, ms[1..])
  }

  /** The same over the records that use delta: with
      `t == DeltaWeightedTotal(ms)` this is the sum of `NaiveDelta * count`. */
  function SpentDelta(total: real, t: real, ms: seq<MechanismSpecInternal>): real
  {
    if ms == [] then 0.0
    else
      (if ms[0].mechanismSpec.UseDelta()
       then Portion(total, ms[0].weight, t) * (ms[0].mechanismSpec.count as real)
       else 0.0) +
      SpentDelta(total, t, ms[1..])
  }

  // ---------------------------------------------------------------------
  // Conservation and proportionality
  // ---------------------------------------------------------------------

  /** `total / t`: the budget per unit of weight (0 when `t` is 0). */
  function PerWeight(total: real, t: real): real
  {
    if t != 0.0 then total / t else 0.0
  }

  lemma PortionPerWeight(total: real, w: real, c: real, t: real)
    ensures Portion(total, w, t) * c == PerWeight(total, t) * (w * c)
  {
    if t != 0.0 {
      assert total * w / t == total / t * w;
      assert total / t * w * c == total / t * (w * c);
    }
  }

  lemma {:induction false} SpentEpsScales(total: real, t: real, ms: seq<MechanismSpecInternal>)
    ensures SpentEps(total, t, ms) == PerWeight(total, t) * WeightedTotal(ms)
  {
    if ms != [] {
      SpentEpsScales(total, t, ms[1..]);
      PortionPerWeight(total, ms[0].weight, ms[0].mechanismSpec.count as real, t);
      var f, head, rest := PerWeight(total, t), Share(ms[0]), WeightedTotal(ms[1..]);
      assert f * head + f * rest == f * (head + rest);
    }
  }

  /** If the total weight is nonzero, `sum(eps_k * count_k) == total_epsilon`. */
  lemma NaiveEpsConserved(totalEpsilon: real, ms: seq<MechanismSpecInternal>)
    requires WeightedTotal(ms) != 0.0
    ensures SpentEps(totalEpsilon, WeightedTotal(ms), ms) == totalEpsilon
  {
    var t := WeightedTotal(ms);
    SpentEpsScales(totalEpsilon, t, ms);
    assert totalEpsilon / t * t == totalEpsilon;
  }

  lemma {:induction false} SpentDeltaScales(total: real, t: real, ms: seq<MechanismSpecInternal>)
    ensures SpentDelta(total, t, ms) == PerWeight(total, t) * DeltaWeightedTotal(ms)
  {
    if ms != [] {
      SpentDeltaScales(total, t, ms[1..]);
      var f := PerWeight(total, t);
      var rest, restWeight := SpentDelta(total, t, ms[1..]), DeltaWeightedTotal(ms[1..]);
      var c := ms[0].mechanismSpec.count as real;
      if ms[0].mechanismSpec.UseDelta() {
        var head := Portion(total, ms[0].weight, t) * c;
        assert SpentDelta(total, t, ms) == head + rest;
        assert DeltaWeightedTotal(ms) == Share(ms[0]) + restWeight;
        PortionPerWeight(total, ms[0].weight, c, t);
        assert f * Share(ms[0]) + f * restWeight == f * (Share(ms[0]) + restWeight);
      } else {
        assert SpentDelta(total, t, ms) == rest;
        assert DeltaWeightedTotal(ms) == restWeight;
      }
    }
  }

  /** Over the records that use delta, if their total weight is nonzero,
      `sum(delta_k * count_k) == total_delta`. */
  lemma NaiveDeltaConserved(totalDelta: real, ms: seq<MechanismSpecInternal>)
    requires DeltaWeightedTotal(ms) != 0.0
    ensures SpentDelta(totalDelta, DeltaWeightedTotal(ms), ms) == totalDelta
  {
    var t := DeltaWeightedTotal(ms);
    SpentDeltaScales(totalDelta, t, ms);
    assert totalDelta / t * t == totalDelta;
  }

  /** `sum(eps_k * count_k)` over the records from index `i` on, with each
      record's eps as the naive split assigns it. */
  function NaiveEpsSpentFrom(totalEpsilon: real, ms: seq<MechanismSpecInternal>, i: nat): real
    decreases |ms| - i
  {
    if i >= |ms| then 0.0
    else NaiveEps(totalEpsilon, ms, i) * (ms[i].mechanismSpec.count as real) +
         NaiveEpsSpentFrom(totalEpsilon, ms, i + 1)
  }

  /** `sum(delta_k * count_k)` over the records from index `i` on. */
  function NaiveDeltaSpentFrom(totalDelta: real, ms: seq<MechanismSpecInternal>, i: nat): real
    decreases |ms| - i
  {
    if i >= |ms| then 0.0
    else NaiveDelta(totalDelta, ms, i) * (ms[i].mechanismSpec.count as real) +
         NaiveDeltaSpentFrom(totalDelta, ms, i + 1)
  }

  lemma {:induction false} NaiveEpsSpentFromSuffix(totalEpsilon: real, ms: seq<MechanismSpecInternal>, i: nat)
    requires i <= |ms|
    ensures NaiveEpsSpentFrom(totalEpsilon, ms, i) == SpentEps(totalEpsilon, WeightedTotal(ms), ms[i..])
    decreases |ms| - i
  {
    if i < |ms| {
      NaiveEpsSpentFromSuffix(totalEpsilon, ms, i + 1);
      assert ms[i..][1..] == ms[i + 1..];
    }
  }

  lemma {:induction false} NaiveDeltaSpentFromSuffix(totalDelta: real, ms: seq<MechanismSpecInternal>, i: nat)
    requires i <= |ms|
    ensures NaiveDeltaSpentFrom(totalDelta, ms, i) == SpentDelta(totalDelta, DeltaWeightedTotal(ms), ms[i..])
    decreases |ms| - i
  {
    if i < |ms| {
      NaiveDeltaSpentFromSuffix(totalDelta, ms, i + 1);
      assert ms[i..][1..] == ms[i + 1..];
    }
  }

  /** The eps the naive split hands out, counted with multiplicity, is the
      whole `total_epsilon` whenever the weighted total is nonzero. */
  lemma NaiveSplitSpendsEpsilon(totalEpsilon: real, ms: seq<MechanismSpecInternal>)
    requires WeightedTotal(ms) != 0.0
    ensures NaiveEpsSpentFrom(totalEpsilon, ms, 0) == totalEpsilon
  {
    NaiveEpsSpentFromSuffix(totalEpsilon, ms, 0);
    assert ms[0..] == ms;
    NaiveEpsConserved(totalEpsilon, ms);
  }

  /** The same for delta, whenever the weighted total of the records that
      use delta is nonzero (Laplace records contribute nothing). */
  lemma NaiveSplitSpendsDelta(totalDelta: real, ms: seq<MechanismSpecInternal>)
    requires DeltaWeightedTotal(ms) != 0.0
    ensures NaiveDeltaSpentFrom(totalDelta, ms, 0) == totalDelta
  {
    NaiveDeltaSpentFromSuffix(totalDelta, ms, 0);
    assert ms[0..] == ms;
    NaiveDeltaConserved(totalDelta, ms);
  }

  /** Every record's eps is its weight times one factor common to all
      records (stated cross-multiplied). */
  lemma NaiveEpsProportional(totalEpsilon: real, ms: seq<MechanismSpecInternal>, i: nat, j: nat)
    requires i < |ms| && j < |ms|
    ensures NaiveEps(totalEpsilon, ms, i) * ms[j].weight == NaiveEps(totalEpsilon, ms, j) * ms[i].weight
  {
    var t := WeightedTotal(ms);
    var f := PerWeight(totalEpsilon, t);
    PortionPerWeight(totalEpsilon, ms[i].weight, ms[j].weight, t);
    PortionPerWeight(totalEpsilon, ms[j].weight, ms[i].weight, t);
    assert f * (ms[i].weight * ms[j].weight) == f * (ms[j].weight * ms[i].weight);
  }

  // ---------------------------------------------------------------------
  // The accountant
  // ---------------------------------------------------------------------

  /** What compute_budgets has written into record `k`'s handle. */
  ghost predicate NaiveAssigned(totalEpsilon: real, totalDelta: real, ms: seq<MechanismSpecInternal>, k: nat)
    requires k < |ms|
    reads ms[k].mechanismSpec
  {
    ms[k].mechanismSpec.eps == Some(NaiveEps(totalEpsilon, ms, k)) &&
    ms[k].mechanismSpec.delta == Some(NaiveDelta(totalDelta, ms, k)) &&
    ms[k].mechanismSpec.noiseStandardDeviation.None?
  }

  /** The first loop of `compute_budgets`: the weighted totals. */
  method TotalWeights(ms: seq<MechanismSpecInternal>) returns (totalWeightEps: real, totalWeightDelta: real)
    ensures totalWeightEps == WeightedTotal(ms)
    ensures totalWeightDelta == DeltaWeightedTotal(ms)
  {
    totalWeightEps, totalWeightDelta := 0.0, 0.0;
    for i := 0 to |ms|
      invariant totalWeightEps + WeightedTotal(ms[i..]) == WeightedTotal(ms)
      invariant totalWeightDelta + DeltaWeightedTotal(ms[i..]) == DeltaWeightedTotal(ms)
    {
      assert ms[i..][1..] == ms[i + 1..];
      var m := ms[i];
      totalWeightEps := totalWeightEps + m.weight * (m.mechanismSpec.count as real);
      if m.mechanismSpec.UseDelta() {
        totalWeightDelta := totalWeightDelta + m.weight * (m.mechanismSpec.count as real);
      }
    }
  }

  class NaiveBudgetAccountant {
    /** The state shared with the other accountant (the Python base class). */
    const base: BudgetAccountant

    ghost predicate Valid()
      reads this, base, base.created, base.Specs()
    {
      base.Valid()
    }

    constructor (totalEpsilon: real, totalDelta: real,
                 nAggregations: Option<int> := None, aggregationWeights: Option<seq<real>> := None)
      requires ValidateConstruction(totalEpsilon, totalDelta, nAggregations, aggregationWeights).Pass?
      ensures Valid() && fresh(base) && base.Initial()
      ensures base.totalEpsilon == totalEpsilon && base.totalDelta == totalDelta
      ensures base.nAggregations == nAggregations && base.aggregationWeights == aggregationWeights
    {
      base := new BudgetAccountant(totalEpsilon, totalDelta, nAggregations, aggregationWeights);
    }

    /** `request_budget`: checks the request, then creates an unset handle
        and registers it globally and in every open scope. */
    method RequestBudget(mechanismType: MechanismType, sensitivity: real := 1.0, weight: real := 1.0,
                         count: int := 1, noiseStandardDeviation: Option<real> := None)
      returns (r: Result<MechanismSpec, BudgetError>)
      requires Valid()
      modifies base, base.scopesStack
      ensures Valid()
      ensures var check := CheckRequest(old(base.finalized), mechanismType, count,
                                        noiseStandardDeviation, base.totalDelta, false);
        (check.Fail? ==> r == Failure(check.error) && unchanged(base) && unchanged(old(base.scopesStack))) &&
        (check.Pass? ==> r.Success?)
      ensures r.Success? ==>
        fresh(r.value) && r.value.Unset() &&
        r.value.mechanismType == mechanismType && r.value.count == count &&
        base.Appended(MechanismSpecInternal(sensitivity, weight, r.value))
    {
      var check := CheckRequest(base.finalized, mechanismType, count,
                                noiseStandardDeviation, base.totalDelta, false);
      if check.Fail? {
        return Failure(check.error);
      }
      var spec := new MechanismSpec(mechanismType, count);
      base.RegisterMechanism(MechanismSpecInternal(sensitivity, weight, spec));
      r := Success(spec);
    }

    /** `compute_budgets`: finalises, then writes every handle's eps and
        delta from the proportional split. */
    method ComputeBudgets() returns (r: Outcome<BudgetError>)
      requires Valid()
      modifies base, base.Specs()
      ensures Valid()
      ensures base.mechanisms == old(base.mechanisms) && base.scopesStack == old(base.scopesStack)
      ensures base.nextAggregationIndex == old(base.nextAggregationIndex)
      ensures base.insideAggregationScope == old(base.insideAggregationScope)
      ensures base.created == old(base.created)
      ensures base.finalized == (old(base.finalized) || base.CheckNumberAggregationScopes().Pass?)
      ensures var step := old(base.ComputeStepFrom(base.finalized));
        (step.Reject? ==> r == Fail(step.error)) &&
        (!step.Reject? ==> r == Pass) &&
        (!step.Assign? ==> unchanged(base.Specs())) &&
        (step.Assign? ==> forall k :: 0 <= k < |base.mechanisms| ==>
           NaiveAssigned(base.totalEpsilon, base.totalDelta, base.mechanisms, k))
    {
      var step := base.BeginComputeBudgets();
      if !step.Assign? {
        return if step.Reject? then Fail(step.error) else Pass;
      }
      AssignBudgets();
      r := Pass;
    }

    /** The part of `compute_budgets` after the checks: the totals, then
        one pass over the registry. */
    method AssignBudgets()
      requires Valid() && base.finalized
      requires forall k :: 0 <= k < |base.mechanisms| ==> base.mechanisms[k].mechanismSpec.Unset()
      modifies base.Specs()
      ensures Valid()
      ensures forall k :: 0 <= k < |base.mechanisms| ==>
        NaiveAssigned(base.totalEpsilon, base.totalDelta, base.mechanisms, k)
    {
      var ms := base.mechanisms;
      var totalWeightEps, totalWeightDelta := TotalWeights(ms);
      for i := 0 to |ms|
        invariant forall k :: 0 <= k < i ==> NaiveAssigned(base.totalEpsilon, base.totalDelta, ms, k)
        invariant forall k :: i <= k < |ms| ==> ms[k].mechanismSpec.Unset()
      {
        AssignShare(ms[i], totalWeightEps, totalWeightDelta);
      }
    }

    /** One pass of the loop: the record's `(eps, delta)` from the totals. */
    method AssignShare(m: MechanismSpecInternal, totalWeightEps: real, totalWeightDelta: real)
      modifies m.mechanismSpec
      ensures m.mechanismSpec.eps == Some(Portion(base.totalEpsilon, m.weight, totalWeightEps))
      ensures m.mechanismSpec.delta ==
        Some(if m.mechanismSpec.UseDelta() then Portion(base.totalDelta, m.weight, totalWeightDelta) else 0.0)
      ensures m.mechanismSpec.noiseStandardDeviation == old(m.mechanismSpec.noiseStandardDeviation)
    {
      var eps, delta := 0.0, 0.0;
      if totalWeightEps != 0.0 {
        eps := base.totalEpsilon * m.weight / totalWeightEps;
      }
      if m.mechanismSpec.UseDelta() {
        if totalWeightDelta != 0.0 {
          delta := base.totalDelta * m.weight / totalWeightDelta;
        }
      }
      assert eps == Portion(base.totalEpsilon, m.weight, totalWeightEps);
      assert delta == if m.mechanismSpec.UseDelta() then Portion(base.totalDelta, m.weight, totalWeightDelta) else 0.0;
      var outcome := m.mechanismSpec.SetEpsDelta(Some(eps), Some(delta));
    }
  }

  /** Constructing a `NaiveBudgetAccountant`, with the constructor's errors. */
  method NewNaiveBudgetAccountant(totalEpsilon: real, totalDelta: real,
                                  nAggregations: Option<int> := None,
                                  aggregationWeights: Option<seq<real>> := None)
    returns (r: Result<NaiveBudgetAccountant, BudgetError>)
    ensures var check := ValidateConstruction(totalEpsilon, totalDelta, nAggregations, aggregationWeights);
      (check.Fail? ==> r == Failure(check.error)) && (check.Pass? ==> r.Success?)
    ensures r.Success? ==>
      fresh(r.value) && fresh(r.value.base) && r.value.Valid() && r.value.base.Initial() &&
      r.value.base.totalEpsilon == totalEpsilon && r.value.base.totalDelta == totalDelta &&
      r.value.base.nAggregations == nAggregations && r.value.base.aggregationWeights == aggregationWeights
  {
    var check := ValidateConstruction(totalEpsilon, totalDelta, nAggregations, aggregationWeights);
    if check.Fail? {
      return Failure(check.error);
    }
    var accountant := new NaiveBudgetAccountant(totalEpsilon, totalDelta, nAggregations, aggregationWeights);
    r := Success(accountant);
  }
}
