/** `PLDBudgetAccountant`: one noise level for the whole pipeline, scaled
    per mechanism by sensitivity and weight. */
module PldAccountant {
  import opened Wrappers
  import opened Errors
  import opened Mechanisms
  import opened Accountant

  /** `math.sqrt(2)`: the exact value of the IEEE-754 double nearest to the
      square root of 2. */
  const Sqrt2: real := 1.4142135623730951454746218587388284504413604736328125

  /** The default `pld_discretization`, `1e-4`. */
  const DefaultPldDiscretization: real := 0.0001

  // ---------------------------------------------------------------------
  // The noise assignment, as functions of the registry
  // ---------------------------------------------------------------------

  /** Sum of the weights of all records (the pure-epsilon branch). */
  function SumOfWeights(ms: seq<MechanismSpecInternal>): real
  {
    if ms == [] then 0.0 else ms[0].weight + SumOfWeights(ms[1..])
  }

  /** The pipeline noise level when `total_delta == 0`:
      `sum_weights / total_epsilon * sqrt(2)`. */
  function PureEpsilonNoiseStd(totalEpsilon: real, ms: seq<MechanismSpecInternal>): (noise: real)
    requires totalEpsilon != 0.0
    ensures noise * totalEpsilon == SumOfWeights(ms) * Sqrt2
  {
    SumOfWeights(ms) / totalEpsilon * Sqrt2
  }

  /** The pipeline noise level `compute_budgets` uses: the closed form when
      delta is 0, otherwise the value found by the search. */
  function MinimumNoiseStd(totalEpsilon: real, totalDelta: real, ms: seq<MechanismSpecInternal>,
                           searchedNoiseStd: real): (noise: real)
    requires totalEpsilon != 0.0
    ensures totalDelta == 0.0 ==> noise * totalEpsilon == SumOfWeights(ms) * Sqrt2
    ensures totalDelta != 0.0 ==> noise == searchedNoiseStd
  {
    if totalDelta == 0.0 then PureEpsilonNoiseStd(totalEpsilon, ms) else searchedNoiseStd
  }

  /** A record's own noise: `sensitivity * minimum_noise_std / weight`. */
  function MechanismNoiseStd(m: MechanismSpecInternal, minStd: real): (noise: real)
    requires m.weight != 0.0
    ensures noise * m.weight == m.sensitivity * minStd
  {
    m.sensitivity * minStd / m.weight
  }

  /** `epsilon_0 = sqrt(2) / noise` for a GENERIC mechanism. */
  function GenericEps(noise: real): (e: real)
    requires noise != 0.0
    ensures e * noise == Sqrt2
  {
    Sqrt2 / noise
  }

  /** `delta_0 = epsilon_0 / total_epsilon * total_delta`: the GENERIC
      mechanism keeps the pipeline's delta-to-epsilon ratio. */
  function GenericDelta(totalEpsilon: real, totalDelta: real, noise: real): (d: real)
    requires noise != 0.0 && totalEpsilon != 0.0
    ensures d * totalEpsilon == GenericEps(noise) * totalDelta
  {
    GenericEps(noise) / totalEpsilon * totalDelta
  }

  /** Record `m` makes the assignment loop divide by zero: its weight is 0,
      or it is GENERIC and its noise is 0. */
  predicate FailsAt(m: MechanismSpecInternal, minStd: real)
  {
    m.weight == 0.0 ||
    (m.mechanismSpec.mechanismType == Generic && MechanismNoiseStd(m, minStd) == 0.0)
  }

  /** The index of the first record the loop fails on, `|ms|` if none. */
  function FirstFailure(ms: seq<MechanismSpecInternal>, minStd: real): (k: nat)
    ensures k <= |ms|
    ensures forall j :: 0 <= j < k ==> !FailsAt(ms[j], minStd)
    ensures k < |ms| ==> FailsAt(ms[k], minStd)
  {
    if ms == [] then 0
    else if FailsAt(ms[0], minStd) then 0
    else 1 + FirstFailure(ms[1..], minStd)
  }

  /** What the loop has written into a record's handle once it has passed it. */
  ghost predicate PldAssigned(totalEpsilon: real, totalDelta: real, m: MechanismSpecInternal, minStd: real)
    requires !FailsAt(m, minStd) && totalEpsilon != 0.0
    reads m.mechanismSpec
  {
    var noise := MechanismNoiseStd(m, minStd);
    m.mechanismSpec.noiseStandardDeviation == Some(noise) &&
    if m.mechanismSpec.mechanismType == Generic then
      m.mechanismSpec.eps == Some(GenericEps(noise)) &&
      m.mechanismSpec.delta == Some(GenericDelta(totalEpsilon, totalDelta, noise))
    else
      m.mechanismSpec.eps.None? && m.mechanismSpec.delta.None?
  }

  /** The record the loop fails on: a zero weight fails before anything is
      written; a GENERIC record with zero noise gets its noise, not its eps. */
  ghost predicate FailedAt(m: MechanismSpecInternal, minStd: real)
    reads m.mechanismSpec
  {
    if m.weight == 0.0 then m.mechanismSpec.Unset()
    else
      m.mechanismSpec.noiseStandardDeviation == Some(MechanismNoiseStd(m, minStd)) &&
      m.mechanismSpec.eps.None? && m.mechanismSpec.delta.None?
  }

  // ---------------------------------------------------------------------
  // The pure-epsilon closed form spends exactly total_epsilon
  // ---------------------------------------------------------------------

  /** The Laplace epsilon a noise level gives a record: the Laplace scale is
      `noise / sqrt(2)`, and epsilon is `sensitivity / scale`. */
  function LaplaceEps(m: MechanismSpecInternal, noise: real): real
    requires noise != 0.0
  {
    m.sensitivity * Sqrt2 / noise
  }

  /** Sum of the Laplace epsilons of the records under `minStd`. */
  function SpentLaplaceEps(ms: seq<MechanismSpecInternal>, minStd: real): real
    requires forall j :: 0 <= j < |ms| ==> ms[j].weight != 0.0 && ms[j].sensitivity != 0.0
    requires minStd != 0.0
  {
    if ms == [] then 0.0
    else
      var m := ms[0];
      assert MechanismNoiseStd(m, minStd) != 0.0 by {
        assert MechanismNoiseStd(m, minStd) * m.weight == m.sensitivity * minStd;
      }
      LaplaceEps(m, MechanismNoiseStd(m, minStd)) + SpentLaplaceEps(ms[1..], minStd)
  }

  /** For one record, the Laplace epsilon is the weight times `sqrt(2) / minStd`. */
  lemma LaplaceEpsOfRecord(s: real, w: real, minStd: real, noise: real)
    requires w != 0.0 && s != 0.0 && minStd != 0.0
    requires noise == s * minStd / w
    ensures noise != 0.0
    ensures s * Sqrt2 / noise == w * (Sqrt2 / minStd)
  {
    assert noise * w == s * minStd;
    calc {
      s * Sqrt2 / noise;
      s * Sqrt2 * w / (noise * w);
      s * Sqrt2 * w / (s * minStd);
      w * (Sqrt2 / minStd);
    }
  }

  lemma {:induction false} SpentLaplaceEpsScales(ms: seq<MechanismSpecInternal>, minStd: real)
    requires forall j :: 0 <= j < |ms| ==> ms[j].weight != 0.0 && ms[j].sensitivity != 0.0
    requires minStd != 0.0
    ensures SpentLaplaceEps(ms, minStd) == SumOfWeights(ms) * (Sqrt2 / minStd)
  {
    if ms != [] {
      SpentLaplaceEpsScales(ms[1..], minStd);
      var m := ms[0];
      LaplaceEpsOfRecord(m.sensitivity, m.weight, minStd, MechanismNoiseStd(m, minStd));
      var c := Sqrt2 / minStd;
      assert m.weight * c + SumOfWeights(ms[1..]) * c == (m.weight + SumOfWeights(ms[1..])) * c;
    }
  }

  /** In the pure-epsilon branch (every weight and sensitivity nonzero and
      the weights not summing to 0), the Laplace epsilons implied by the
      assigned noise add up to `total_epsilon`. */
  lemma PureEpsilonSpendsTotal(totalEpsilon: real, ms: seq<MechanismSpecInternal>)
    requires totalEpsilon > 0.0
    requires forall j :: 0 <= j < |ms| ==> ms[j].weight != 0.0 && ms[j].sensitivity != 0.0
    requires SumOfWeights(ms) != 0.0
    ensures PureEpsilonNoiseStd(totalEpsilon, ms) != 0.0
    ensures SpentLaplaceEps(ms, PureEpsilonNoiseStd(totalEpsilon, ms)) == totalEpsilon
  {
    var w := SumOfWeights(ms);
    var minStd := PureEpsilonNoiseStd(totalEpsilon, ms);
    ClosedFormCancels(w, totalEpsilon, minStd);
    SpentLaplaceEpsScales(ms, minStd);
  }

  /** `w * (sqrt(2) / (w / e * sqrt(2))) == e`. */
  lemma ClosedFormCancels(w: real, e: real, minStd: real)
    requires w != 0.0 && e != 0.0
    requires minStd == w / e * Sqrt2
    ensures minStd != 0.0
    ensures w * (Sqrt2 / minStd) == e
  {
    assert minStd * e == w * Sqrt2;
    assert minStd != 0.0;
    calc {
      w * (Sqrt2 / minStd);
      w * Sqrt2 / minStd;
      minStd * e / minStd;
      e;
    }
  }

  /** The noise of every assigned record is inversely proportional to its
      weight and proportional to its sensitivity (stated cross-multiplied). */
  lemma NoiseInverseToWeight(m1: MechanismSpecInternal, m2: MechanismSpecInternal, minStd: real)
    requires m1.weight != 0.0 && m2.weight != 0.0
    ensures MechanismNoiseStd(m1, minStd) * m1.weight * m2.sensitivity ==
            MechanismNoiseStd(m2, minStd) * m2.weight * m1.sensitivity
  {
    var n1 := MechanismNoiseStd(m1, minStd);
    var n2 := MechanismNoiseStd(m2, minStd);
    assert n1 * m1.weight == m1.sensitivity * minStd;
    assert n2 * m2.weight == m2.sensitivity * minStd;
    assert n1 * m1.weight * m2.sensitivity == m1.sensitivity * minStd * m2.sensitivity;
    assert n2 * m2.weight * m1.sensitivity == m2.sensitivity * minStd * m1.sensitivity;
  }

  // ---------------------------------------------------------------------
  // The accountant
  // ---------------------------------------------------------------------

  class PLDBudgetAccountant {
    /** The state shared with the other accountant (the Python base class). */
    const base: BudgetAccountant
    /** `value_discretization_interval` of the PLD library; only the search uses it. */
    const pldDiscretization: real
    /** Set by `compute_budgets`. */
    var minimumNoiseStd: Option<real>

    ghost predicate Valid()
      reads this, base, base.created, base.Specs()
    {
      base.Valid()
    }

    constructor (totalEpsilon: real, totalDelta: real, pldDiscretization: real := DefaultPldDiscretization,
                 nAggregations: Option<int> := None, aggregationWeights: Option<seq<real>> := None)
      requires ValidateConstruction(totalEpsilon, totalDelta, nAggregations, aggregationWeights).Pass?
      ensures Valid() && fresh(base) && base.Initial()
      ensures base.totalEpsilon == totalEpsilon && base.totalDelta == totalDelta
      ensures base.nAggregations == nAggregations && base.aggregationWeights == aggregationWeights
      ensures this.pldDiscretization == pldDiscretization && minimumNoiseStd.None?
    {
      base := new BudgetAccountant(totalEpsilon, totalDelta, nAggregations, aggregationWeights);
      this.pldDiscretization := pldDiscretization;
      minimumNoiseStd := None;
    }

    /** `request_budget`: only single-use mechanisms without a given noise
        are accepted; the handle is registered like the naive one. */
    method RequestBudget(mechanismType: MechanismType, sensitivity: real := 1.0, weight: real := 1.0,
                         count: int := 1, noiseStandardDeviation: Option<real> := None)
      returns (r: Result<MechanismSpec, BudgetError>)
      requires Valid()
      modifies base, base.scopesStack
      ensures Valid()
      ensures var check := CheckRequest(old(base.finalized), mechanismType, count,
                                        noiseStandardDeviation, base.totalDelta, true);
        (check.Fail? ==> r == Failure(check.error) && unchanged(base) && unchanged(old(base.scopesStack))) &&
        (check.Pass? ==> r.Success?)
      ensures r.Success? ==>
        fresh(r.value) && r.value.Unset() &&
        r.value.mechanismType == mechanismType && r.value.count == 1 &&
        base.Appended(MechanismSpecInternal(sensitivity, weight, r.value))
    {
      var check := CheckRequest(base.finalized, mechanismType, count,
                                noiseStandardDeviation, base.totalDelta, true);
      if check.Fail? {
        return Failure(check.error);
      }
      var spec := new MechanismSpec(mechanismType, 1);
      base.RegisterMechanism(MechanismSpecInternal(sensitivity, weight, spec));
      r := Success(spec);
    }

    /** The loop of the pure-epsilon branch: the sum of the weights. */
    static method SumWeights(ms: seq<MechanismSpecInternal>) returns (sumWeights: real)
      ensures sumWeights == SumOfWeights(ms)
    {
      sumWeights := 0.0;
      for i := 0 to |ms|
        invariant sumWeights + SumOfWeights(ms[i..]) == SumOfWeights(ms)
      {
        assert ms[i..][1..] == ms[i + 1..];
        sumWeights := sumWeights + ms[i].weight;
      }
    }

    /** One pass of the assignment loop: the noise of `m`, and for a GENERIC
        mechanism its (eps, delta). `ok` is false where Python raises
        ZeroDivisionError. */
    method AssignNoise(m: MechanismSpecInternal, minStd: real) returns (ok: bool)
      requires base.totalEpsilon > 0.0
      requires m.mechanismSpec.Unset()
      modifies m.mechanismSpec
      ensures ok <==> !FailsAt(m, minStd)
      ensures ok ==> PldAssigned(base.totalEpsilon, base.totalDelta, m, minStd)
      ensures !ok ==> FailedAt(m, minStd)
    {
      if m.weight == 0.0 {
        return false;
      }
      var noise := m.sensitivity * minStd / m.weight;
      assert noise == MechanismNoiseStd(m, minStd);
      m.mechanismSpec.noiseStandardDeviation := Some(noise);
      if m.mechanismSpec.mechanismType == Generic {
        if noise == 0.0 {
          return false;
        }
        var eps0 := Sqrt2 / noise;
        var delta0 := eps0 / base.totalEpsilon * base.totalDelta;
        assert eps0 == GenericEps(noise) && delta0 == GenericDelta(base.totalEpsilon, base.totalDelta, noise);
        var outcome := m.mechanismSpec.SetEpsDelta(Some(eps0), Some(delta0));
      }
      ok := true;
    }

    /** The assignment loop of `compute_budgets` over the registry `ms`. */
    method AssignNoiseLevels(ms: seq<MechanismSpecInternal>, minStd: real) returns (r: Outcome<BudgetError>)
      requires base.totalEpsilon > 0.0
      requires forall a, b :: 0 <= a < b < |ms| ==> ms[a].mechanismSpec != ms[b].mechanismSpec
      requires forall j :: 0 <= j < |ms| ==> ms[j].mechanismSpec.Unset()
      modifies set j | 0 <= j < |ms| :: ms[j].mechanismSpec
      ensures var k := FirstFailure(ms, minStd);
        (forall j :: 0 <= j < k ==> PldAssigned(base.totalEpsilon, base.totalDelta, ms[j], minStd)) &&
        (k == |ms| ==> r == Pass) &&
        (k < |ms| ==>
           r == Fail(DivisionByZero) && FailedAt(ms[k], minStd) &&
           (forall j :: k < j < |ms| ==> ms[j].mechanismSpec.Unset()))
    {
      ghost var k := FirstFailure(ms, minStd);
      for i := 0 to |ms|
        invariant i <= k
        invariant forall j :: 0 <= j < i ==> PldAssigned(base.totalEpsilon, base.totalDelta, ms[j], minStd)
        invariant forall j :: i <= j < |ms| ==> ms[j].mechanismSpec.Unset()
      {
        var ok := AssignNoise(ms[i], minStd);
        if !ok {
          return Fail(DivisionByZero);
        }
      }
      r := Pass;
    }

    /** `compute_budgets`. When `total_delta > 0` the pipeline noise level
        comes from the privacy-loss-distribution search, which is not
        modelled: its result is the parameter `searchedNoiseStd`. Every
        handle gets its noise; GENERIC handles also get (eps, delta). The
        loop stops with a division by zero at `FirstFailure`, leaving the
        earlier handles assigned and the later ones untouched. */
    method ComputeBudgets(searchedNoiseStd: real) returns (r: Outcome<BudgetError>)
      requires Valid()
      modifies this, base, base.Specs()
      ensures Valid()
      ensures base.mechanisms == old(base.mechanisms) && base.scopesStack == old(base.scopesStack)
      ensures base.nextAggregationIndex == old(base.nextAggregationIndex)
      ensures base.insideAggregationScope == old(base.insideAggregationScope)
      ensures base.created == old(base.created)
      ensures base.finalized == (old(base.finalized) || base.CheckNumberAggregationScopes().Pass?)
      ensures var step := old(base.ComputeStepFrom(base.finalized));
        (step.Reject? ==> r == Fail(step.error)) &&
        (step.NoBudgets? ==> r == Pass) &&
        (!step.Assign? ==> unchanged(base.Specs()) && minimumNoiseStd == old(minimumNoiseStd))
      ensures old(base.ComputeStepFrom(base.finalized)).Assign? ==>
        var ms := base.mechanisms;
        var minStd := MinimumNoiseStd(base.totalEpsilon, base.totalDelta, ms, searchedNoiseStd);
        var k := FirstFailure(ms, minStd);
        minimumNoiseStd == Some(minStd) &&
        (forall j :: 0 <= j < k ==> PldAssigned(base.totalEpsilon, base.totalDelta, ms[j], minStd)) &&
        (k == |ms| ==> r == Pass) &&
        (k < |ms| ==>
           r == Fail(DivisionByZero) && FailedAt(ms[k], minStd) &&
           (forall j :: k < j < |ms| ==> ms[j].mechanismSpec.Unset()))
    {
      var step := base.BeginComputeBudgets();
      if !step.Assign? {
        return if step.Reject? then Fail(step.error) else Pass;
      }
      r := AssignBudgets(searchedNoiseStd);
    }

    /** The part of `compute_budgets` after the checks: the pipeline noise
        level, then the assignment loop. */
    method AssignBudgets(searchedNoiseStd: real) returns (r: Outcome<BudgetError>)
      requires Valid() && base.finalized
      requires forall j :: 0 <= j < |base.mechanisms| ==> base.mechanisms[j].mechanismSpec.Unset()
      modifies this`minimumNoiseStd, base.Specs()
      ensures Valid()
      ensures
        var ms := base.mechanisms;
        var minStd := MinimumNoiseStd(base.totalEpsilon, base.totalDelta, ms, searchedNoiseStd);
        var k := FirstFailure(ms, minStd);
        minimumNoiseStd == Some(minStd) &&
        (forall j :: 0 <= j < k ==> PldAssigned(base.totalEpsilon, base.totalDelta, ms[j], minStd)) &&
        (k == |ms| ==> r == Pass) &&
        (k < |ms| ==>
           r == Fail(DivisionByZero) && FailedAt(ms[k], minStd) &&
           (forall j :: k < j < |ms| ==> ms[j].mechanismSpec.Unset()))
    {
      var ms := base.mechanisms;
      var minStd: real;
      if base.totalDelta == 0.0 {
        var sumWeights := SumWeights(ms);
        minStd := sumWeights / base.totalEpsilon * Sqrt2;
      } else {
        minStd := searchedNoiseStd;
      }
      assert minStd == MinimumNoiseStd(base.totalEpsilon, base.totalDelta, ms, searchedNoiseStd);
      minimumNoiseStd := Some(minStd);
      r := AssignNoiseLevels(ms, minStd);
    }
  }

  /** Constructing a `PLDBudgetAccountant`, with the constructor's errors. */
  method NewPLDBudgetAccountant(totalEpsilon: real, totalDelta: real,
                                pldDiscretization: real := DefaultPldDiscretization,
                                nAggregations: Option<int> := None,
                                aggregationWeights: Option<seq<real>> := None)
    returns (r: Result<PLDBudgetAccountant, BudgetError>)
    ensures var check := ValidateConstruction(totalEpsilon, totalDelta, nAggregations, aggregationWeights);
      (check.Fail? ==> r == Failure(check.error)) && (check.Pass? ==> r.Success?)
    ensures r.Success? ==>
      fresh(r.value) && fresh(r.value.base) && r.value.Valid() && r.value.base.Initial() &&
      r.value.minimumNoiseStd.None? && r.value.pldDiscretization == pldDiscretization &&
      r.value.base.totalEpsilon == totalEpsilon && r.value.base.totalDelta == totalDelta &&
      r.value.base.nAggregations == nAggregations && r.value.base.aggregationWeights == aggregationWeights
  {
    var check := ValidateConstruction(totalEpsilon, totalDelta, nAggregations, aggregationWeights);
    if check.Fail? {
      return Failure(check.error);
    }
    var accountant := new PLDBudgetAccountant(totalEpsilon, totalDelta, pldDiscretization,
                                              nAggregations, aggregationWeights);
    r := Success(accountant);
  }
}
