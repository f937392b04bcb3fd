/** The shared budget-accounting state machine: the accountant base class
    (global mechanism registry, LIFO scope stack, aggregation-scope
    discipline, finalise-once lifecycle) and the budget scopes.

    Mechanism records live in an arena (`BudgetAccountant.mechanisms`); a
    scope holds the arena indices of the mechanisms registered while it was
    open, so the in-place `weight *= factor` of normalisation has a single
    owner. */
module Accountant {
  import opened Wrappers
  import opened Errors
  import opened Mechanisms

  // ---------------------------------------------------------------------
  // Validation rules
  // ---------------------------------------------------------------------

  /** Module-level `_validate_epsilon_delta`. */
  function ValidateEpsilonDelta(epsilon: real, delta: real): (r: Outcome<BudgetError>)
    ensures r.Pass? <==> epsilon > 0.0 && delta >= 0.0
    ensures epsilon <= 0.0 ==> r == Fail(NonPositiveEpsilon)
    ensures epsilon > 0.0 && delta < 0.0 ==> r == Fail(NegativeDelta)
  {
    if epsilon <= 0.0 then Fail(NonPositiveEpsilon)
    else if delta < 0.0 then Fail(NegativeDelta)
    else Pass
  }

  /** The checks a concrete accountant's constructor runs, in order: the base
      constructor's checks on the aggregation limits, then the totals. */
  function ValidateConstruction(totalEpsilon: real, totalDelta: real,
                                nAggregations: Option<int>,
                                aggregationWeights: Option<seq<real>>): (r: Outcome<BudgetError>)
    ensures r.Pass? <==>
      !(nAggregations.Some? && aggregationWeights.Some?) &&
      (nAggregations.Some? ==> nAggregations.value > 0) &&
      totalEpsilon > 0.0 && totalDelta >= 0.0
    ensures nAggregations.Some? && aggregationWeights.Some? ==> r == Fail(BothAggregationLimitsSet)
    ensures aggregationWeights.None? && nAggregations.Some? && nAggregations.value <= 0 ==>
      r == Fail(NonPositiveAggregationCount)
  {
    if nAggregations.Some? && aggregationWeights.Some? then Fail(BothAggregationLimitsSet)
    else if nAggregations.Some? && nAggregations.value <= 0 then Fail(NonPositiveAggregationCount)
    else ValidateEpsilonDelta(totalEpsilon, totalDelta)
  }

  /** The checks `request_budget` runs before registering anything.
      `singleUse` is set for the PLD accountant, which also refuses count != 1. */
  function CheckRequest(finalized: bool, mechanismType: MechanismType, count: int,
                        noiseStandardDeviation: Option<real>, totalDelta: real,
                        singleUse: bool): (r: Outcome<BudgetError>)
    ensures r.Pass? <==>
      !finalized && noiseStandardDeviation.None? && (singleUse ==> count == 1) &&
      !(mechanismType == Gaussian && totalDelta == 0.0)
    ensures finalized ==> r == Fail(RequestAfterFinalize)
    ensures !finalized && (noiseStandardDeviation.Some? || (singleUse && count != 1)) ==>
      r == Fail(NotImplemented)
  {
    if finalized then Fail(RequestAfterFinalize)
    else if (singleUse && count != 1) || noiseStandardDeviation.Some? then Fail(NotImplemented)
    else if mechanismType == Gaussian && totalDelta == 0.0 then Fail(GaussianNeedsDelta)
    else Pass
  }

  // ---------------------------------------------------------------------
  // Eager budget of aggregation scopes
  // ---------------------------------------------------------------------

  /** Python's `sum` of a list of weights. */
  function SumReals(ws: seq<real>): real
  {
    if ws == [] then 0.0 else ws[0] + SumReals(ws[1..])
  }

  /** Sum of the shares `w / total` over a list of weights. */
  function SumShares(ws: seq<real>, total: real): real
    requires total != 0.0
  {
    if ws == [] then 0.0 else ws[0] / total + SumShares(ws[1..], total)
  }

  /** The budget ratio of the aggregation scope with the given index
      (`_compute_budget_for_aggregation_scope`): `1 / n_aggregations`, or the
      declared weight over the sum of declared weights (a zero sum is Python's
      ZeroDivisionError), or no eager budget when neither limit is set. */
  function AggregationBudgetRatio(nAggregations: Option<int>,
                                  aggregationWeights: Option<seq<real>>,
                                  index: nat): (r: Result<Option<real>, BudgetError>)
    requires nAggregations.Some? ==> nAggregations.value != 0
    requires nAggregations.None? && aggregationWeights.Some? ==> index < |aggregationWeights.value|
    ensures nAggregations.Some? ==> r == Success(Some(1.0 / (nAggregations.value as real)))
    ensures nAggregations.None? && aggregationWeights.Some? ==>
      (r.Failure? <==> SumReals(aggregationWeights.value) == 0.0) &&
      (r.Failure? ==> r.error == DivisionByZero) &&
      (r.Success? ==> r == Success(Some(aggregationWeights.value[index] / SumReals(aggregationWeights.value))))
    ensures nAggregations.None? && aggregationWeights.None? ==> r == Success(None)
  {
    if nAggregations.Some? then Success(Some(1.0 / (nAggregations.value as real)))
    else if aggregationWeights.Some? then
      var total := SumReals(aggregationWeights.value);
      if total == 0.0 then Failure(DivisionByZero)
      else Success(Some(aggregationWeights.value[index] / total))
    else Success(None)
  }

  lemma {:induction false} SumSharesIsScaledSum(ws: seq<real>, total: real)
    requires total != 0.0
    ensures SumShares(ws, total) == SumReals(ws) / total
  {
    if ws != [] {
      SumSharesIsScaledSum(ws[1..], total);
      assert ws[0] / total + SumReals(ws[1..]) / total == (ws[0] + SumReals(ws[1..])) / total;
    }
  }

  /** The shares of all declared aggregations add up to the whole budget. */
  lemma DeclaredSharesSumToOne(ws: seq<real>)
    requires SumReals(ws) != 0.0
    ensures SumShares(ws, SumReals(ws)) == 1.0
  {
    SumSharesIsScaledSum(ws, SumReals(ws));
    assert SumReals(ws) / SumReals(ws) == 1.0;
  }

  // ---------------------------------------------------------------------
  // Weight normalisation over arena indices
  // ---------------------------------------------------------------------

  /** A scope's index list: every index names an arena record, and the
      indices strictly increase (registration only ever appends the newest). */
  predicate IndicesOk(idx: seq<nat>, n: nat)
  {
    (forall k :: 0 <= k < |idx| ==> idx[k] < n) &&
    (forall k, l :: 0 <= k < l < |idx| ==> idx[k] < idx[l])
  }

  /** Sum of the weights of the listed records. */
  function SumWeights(ms: seq<MechanismSpecInternal>, idx: seq<nat>): real
    requires forall k :: 0 <= k < |idx| ==> idx[k] < |ms|
  {
    if idx == [] then 0.0
    else ms[idx[0]].weight + SumWeights(ms, idx[1..])
  }

  /** `mechanism.weight *= factor`. */
  function Scaled(m: MechanismSpecInternal, factor: real): MechanismSpecInternal
  {
    m.(weight := m.weight * factor)
  }

  /** The arena after multiplying the weight of every listed record by `factor`. */
  function Rescaled(ms: seq<MechanismSpecInternal>, idx: seq<nat>, factor: real): seq<MechanismSpecInternal>
  {
    seq(|ms|, k requires 0 <= k < |ms| => if k in idx then Scaled(ms[k], factor) else ms[k])
  }

  lemma {:induction false} ScaledSum(ms: seq<MechanismSpecInternal>, ms': seq<MechanismSpecInternal>,
                                     idx: seq<nat>, factor: real)
    requires forall k :: 0 <= k < |idx| ==> idx[k] < |ms| && idx[k] < |ms'|
    requires forall k :: 0 <= k < |idx| ==> ms'[idx[k]].weight == ms[idx[k]].weight * factor
    ensures SumWeights(ms', idx) == factor * SumWeights(ms, idx)
  {
    if idx != [] {
      ScaledSum(ms, ms', idx[1..], factor);
    }
  }

  /** After normalisation the weights a scope holds sum to the scope's weight. */
  lemma NormalisedWeightsSumToScopeWeight(ms: seq<MechanismSpecInternal>, idx: seq<nat>, scopeWeight: real)
    requires IndicesOk(idx, |ms|)
    requires SumWeights(ms, idx) != 0.0
    ensures SumWeights(Rescaled(ms, idx, scopeWeight / SumWeights(ms, idx)), idx) == scopeWeight
  {
    var factor := scopeWeight / SumWeights(ms, idx);
    var ms' := Rescaled(ms, idx, factor);
    forall k | 0 <= k < |idx|
      ensures ms'[idx[k]].weight == ms[idx[k]].weight * factor
    {
      assert idx[k] in idx;
    }
    ScaledSum(ms, ms', idx, factor);
  }

  /** Normalisation keeps the ratio between any two weights of the scope
      (stated cross-multiplied, so that zero weights are covered). */
  lemma NormalisationPreservesRatios(ms: seq<MechanismSpecInternal>, idx: seq<nat>, factor: real, i: nat, j: nat)
    requires IndicesOk(idx, |ms|)
    requires i in idx && j in idx
    ensures Rescaled(ms, idx, factor)[i].weight * ms[j].weight ==
            Rescaled(ms, idx, factor)[j].weight * ms[i].weight
  {
    var a, b := ms[i].weight, ms[j].weight;
    assert a * factor * b == b * factor * a;
  }

  lemma RescaledStep(ms: seq<MechanismSpecInternal>, idx: seq<nat>, i: nat, factor: real)
    requires IndicesOk(idx, |ms|)
    requires i < |idx|
    ensures Rescaled(ms, idx[..i], factor)[idx[i]] == ms[idx[i]]
    ensures Rescaled(ms, idx[..i + 1], factor) ==
            Rescaled(ms, idx[..i], factor)[idx[i] := Scaled(ms[idx[i]], factor)]
  {
    var k := idx[i];
    assert k !in idx[..i] by {
      forall l | 0 <= l < i ensures idx[..i][l] != k {
        assert idx[l] < idx[i];
      }
    }
    assert idx[..i + 1] == idx[..i] + [k];
    var lhs := Rescaled(ms, idx[..i + 1], factor);
    var rhs := Rescaled(ms, idx[..i], factor)[k := Scaled(ms[k], factor)];
    forall j | 0 <= j < |ms|
      ensures lhs[j] == rhs[j]
    {
      assert (j in idx[..i + 1]) == (j in idx[..i] || j == k);
    }
  }

  /** The handles of the records. */
  ghost function SpecsOf(ms: seq<MechanismSpecInternal>): set<MechanismSpec>
  {
    set k | 0 <= k < |ms| :: ms[k].mechanismSpec
  }

  lemma SpecsOfAppend(ms: seq<MechanismSpecInternal>, m: MechanismSpecInternal)
    ensures SpecsOf(ms + [m]) == SpecsOf(ms) + {m.mechanismSpec}
  {
    var ms' := ms + [m];
    forall x | x in SpecsOf(ms') ensures x in SpecsOf(ms) + {m.mechanismSpec} {
      var k :| 0 <= k < |ms'| && ms'[k].mechanismSpec == x;
      if k < |ms| { assert ms[k].mechanismSpec == x; }
    }
    forall x | x in SpecsOf(ms) ensures x in SpecsOf(ms') {
      var k :| 0 <= k < |ms| && ms[k].mechanismSpec == x;
      assert ms'[k].mechanismSpec == x;
    }
    assert ms'[|ms|].mechanismSpec == m.mechanismSpec;
  }

  /** Rescaling changes weights only: the records keep their handles. */
  lemma RescaledKeepsSpecs(ms: seq<MechanismSpecInternal>, idx: seq<nat>, factor: real)
    ensures |Rescaled(ms, idx, factor)| == |ms|
    ensures forall k :: 0 <= k < |ms| ==> Rescaled(ms, idx, factor)[k].mechanismSpec == ms[k].mechanismSpec
    ensures SpecsOf(Rescaled(ms, idx, factor)) == SpecsOf(ms)
  {
    var ms' := Rescaled(ms, idx, factor);
    forall x | x in SpecsOf(ms') ensures x in SpecsOf(ms) {
      var k :| 0 <= k < |ms'| && ms'[k].mechanismSpec == x;
      assert ms[k].mechanismSpec == x;
    }
    forall x | x in SpecsOf(ms) ensures x in SpecsOf(ms') {
      var k :| 0 <= k < |ms| && ms[k].mechanismSpec == x;
      assert ms'[k].mechanismSpec == x;
    }
  }

  /** Appending the newest index keeps a scope's index list well formed. */
  lemma IndicesOkAppend(idx: seq<nat>, n: nat)
    requires IndicesOk(idx, n)
    ensures IndicesOk(idx, n + 1)
    ensures IndicesOk(idx + [n], n + 1)
  {
  }

  // ---------------------------------------------------------------------
  // Scopes
  // ---------------------------------------------------------------------

  /** The eager (epsilon, delta) of an aggregation scope; both are computed
      together or not at all. */
  datatype AggregationBudget = AggregationBudget(epsilon: real, delta: real)

  /** `BudgetAccountantScope`: weight, optional aggregation index and eager
      budget are fixed at creation; `mechanisms` holds the arena indices
      registered while the scope was open. */
  class BudgetAccountantScope {
    const weight: real
    const aggregationIndex: Option<nat>
    const budget: Option<AggregationBudget>
    var mechanisms: seq<nat>

    constructor (weight: real, aggregationIndex: Option<nat>, budget: Option<AggregationBudget>)
      ensures this.weight == weight && this.aggregationIndex == aggregationIndex
      ensures this.budget == budget && mechanisms == []
    {
      this.weight := weight;
      this.aggregationIndex := aggregationIndex;
      this.budget := budget;
      mechanisms := [];
    }

    /** The `is_aggregation_scope` property: only a scope that took an
        aggregation index is one, and only such a scope may have a budget read. */
    predicate IsAggregationScope()
      ensures IsAggregationScope() <==> aggregationIndex.Some?
      ensures !IsAggregationScope() ==> ValidateBudget() == Fail(NotAggregationScope)
    {
      aggregationIndex.Some?
    }

    /** The scope's `_validate_epsilon_delta`. */
    function ValidateBudget(): (r: Outcome<BudgetError>)
      ensures r.Pass? <==> aggregationIndex.Some? && budget.Some?
      ensures aggregationIndex.None? ==> r == Fail(NotAggregationScope)
      ensures aggregationIndex.Some? && budget.None? ==> r == Fail(AggregationBudgetUnknown)
    {
      if aggregationIndex.None? then Fail(NotAggregationScope)
      else if budget.None? then Fail(AggregationBudgetUnknown)
      else Pass
    }

    /** The `epsilon` property. */
    function Epsilon(): (r: Result<real, BudgetError>)
      ensures r.Success? <==> ValidateBudget().Pass?
      ensures r.Success? ==> r.value == budget.value.epsilon
      ensures r.Failure? ==> r.error == ValidateBudget().error
    {
      var check := ValidateBudget();
      if check.Fail? then Failure(check.error) else Success(budget.value.epsilon)
    }

    /** The `delta` property. */
    function Delta(): (r: Result<real, BudgetError>)
      ensures r.Success? <==> ValidateBudget().Pass?
      ensures r.Success? ==> r.value == budget.value.delta
      ensures r.Failure? ==> r.error == ValidateBudget().error
    {
      var check := ValidateBudget();
      if check.Fail? then Failure(check.error) else Success(budget.value.delta)
    }
  }

  // ---------------------------------------------------------------------
  // The accountant
  // ---------------------------------------------------------------------

  /** What `compute_budgets` does once its checks have run. */
  datatype ComputeStep = Reject(error: BudgetError) | NoBudgets | Assign

  /** The state shared by both accountants (`BudgetAccountant`). */
  class BudgetAccountant {
    const totalEpsilon: real
    const totalDelta: real
    const nAggregations: Option<int>
    const aggregationWeights: Option<seq<real>>
    var scopesStack: seq<BudgetAccountantScope>
    var mechanisms: seq<MechanismSpecInternal>
    var finalized: bool
    var nextAggregationIndex: nat
    var insideAggregationScope: bool
    /** The scopes this accountant has created (each Python scope keeps a
        reference to the accountant that made it). */
    ghost var created: set<BudgetAccountantScope>

    /** The handles of all registered mechanisms. */
    ghost function Specs(): set<MechanismSpec>
      reads this
    {
      SpecsOf(mechanisms)
    }

    /** The invariant on the accountant's own fields and its scopes. */
    ghost predicate ValidShape()
      reads this, created
    {
      ValidateConstruction(totalEpsilon, totalDelta, nAggregations, aggregationWeights).Pass? &&
      (forall i :: 0 <= i < |scopesStack| ==> scopesStack[i] in created) &&
      (forall i, j :: 0 <= i < j < |scopesStack| ==> scopesStack[i] != scopesStack[j]) &&
      (forall s :: s in created ==> IndicesOk(s.mechanisms, |mechanisms|)) &&
      (forall i, j :: 0 <= i < j < |mechanisms| ==>
         mechanisms[i].mechanismSpec != mechanisms[j].mechanismSpec)
    }

    /** `ValidShape`, and before compute_budgets no handle carries a value. */
    ghost predicate Valid()
      reads this, created, Specs()
    {
      ValidShape() &&
      (!finalized ==> forall i :: 0 <= i < |mechanisms| ==> mechanisms[i].mechanismSpec.Unset())
    }

    /** The state right after construction. */
    ghost predicate Initial()
      reads this
    {
      scopesStack == [] && mechanisms == [] && !finalized &&
      nextAggregationIndex == 0 && !insideAggregationScope && created == {}
    }

    constructor (totalEpsilon: real, totalDelta: real,
                 nAggregations: Option<int>, aggregationWeights: Option<seq<real>>)
      requires ValidateConstruction(totalEpsilon, totalDelta, nAggregations, aggregationWeights).Pass?
      ensures Valid() && Initial()
      ensures this.totalEpsilon == totalEpsilon && this.totalDelta == totalDelta
      ensures this.nAggregations == nAggregations && this.aggregationWeights == aggregationWeights
    {
      this.totalEpsilon := totalEpsilon;
      this.totalDelta := totalDelta;
      this.nAggregations := nAggregations;
      this.aggregationWeights := aggregationWeights;
      scopesStack := [];
      mechanisms := [];
      finalized := false;
      nextAggregationIndex := 0;
      insideAggregationScope := false;
      created := {};
    }

    /** Python's truthiness of `_n_aggregations`. */
    predicate CountLimited()
    {
      nAggregations.Some? && nAggregations.value != 0
    }

    /** Python's truthiness of `_n_aggregations or _aggregation_weights`. */
    predicate HasAggregationLimit()
    {
      CountLimited() || (aggregationWeights.Some? && |aggregationWeights.value| > 0)
    }

    /** `_get_next_aggregation_index`. */
    method NextAggregationIndex() returns (index: nat)
      modifies this`nextAggregationIndex
      ensures index == old(nextAggregationIndex) && nextAggregationIndex == index + 1
    {
      nextAggregationIndex := nextAggregationIndex + 1;
      index := nextAggregationIndex - 1;
    }

    /** What `scope()` decides for an aggregation scope once it has taken the
        index `index`: the bound and weight checks of the declared limit, then
        the eager budget the new scope's constructor computes. */
    function AggregationScopeBudget(index: nat, weight: real): (r: Result<AggregationBudget, BudgetError>)
      requires ValidateConstruction(totalEpsilon, totalDelta, nAggregations, aggregationWeights).Pass?
      requires HasAggregationLimit()
      ensures CountLimited() ==>
        if index >= nAggregations.value then r == Failure(TooManyAggregations)
        else if weight != 1.0 then r == Failure(AggregationWeightNotOne)
        else
          r == Success(EagerBudget(1.0 / (nAggregations.value as real)))
      ensures !CountLimited() ==>
        var ws := aggregationWeights.value;
        if index >= |ws| then r == Failure(TooManyAggregations)
        else if weight != ws[index] then r == Failure(AggregationWeightMismatch)
        else if SumReals(ws) == 0.0 then r == Failure(DivisionByZero)
        else
          r == Success(EagerBudget(ws[index] / SumReals(ws)))
    {
      if CountLimited() then
        if index >= nAggregations.value then Failure(TooManyAggregations)
        else if weight != 1.0 then Failure(AggregationWeightNotOne)
        else AggregationBudgetOf(index)
      else
        // aggregationWeights is set and non-empty here
        var ws := aggregationWeights.value;
        if index >= |ws| then Failure(TooManyAggregations)
        else if weight != ws[index] then Failure(AggregationWeightMismatch)
        else AggregationBudgetOf(index)
    }

    /** `_compute_budget_for_aggregation_scope` for a checked index. */
    function AggregationBudgetOf(index: nat): (r: Result<AggregationBudget, BudgetError>)
      requires ValidateConstruction(totalEpsilon, totalDelta, nAggregations, aggregationWeights).Pass?
      requires HasAggregationLimit()
      requires !CountLimited() ==> index < |aggregationWeights.value|
    {
      var ratio := AggregationBudgetRatio(nAggregations, aggregationWeights, index);
      if ratio.Failure? then Failure(ratio.error)
      else Success(EagerBudget(ratio.value.value))
    }

    /** The eager budget of an aggregation scope with the given budget ratio. */
    function EagerBudget(ratio: real): AggregationBudget
    {
      AggregationBudget(totalEpsilon * ratio, totalDelta * ratio)
    }

    /** `scope(weight, aggregation_scope)`: validates an aggregation scope
        and creates the scope object (with its eager budget). */
    method Scope(weight: real, aggregationScope: bool := false)
      returns (r: Result<BudgetAccountantScope, BudgetError>)
      requires Valid()
      modifies this
      ensures Valid()
      ensures scopesStack == old(scopesStack) && mechanisms == old(mechanisms)
      ensures finalized == old(finalized) && insideAggregationScope == old(insideAggregationScope)
      ensures r.Success? ==> fresh(r.value) && created == old(created) + {r.value}
      ensures r.Success? ==> r.value.weight == weight && r.value.mechanisms == []
      ensures r.Failure? ==> created == old(created)
      // a plain scope, or any scope while no aggregation limit is declared
      ensures !(aggregationScope && HasAggregationLimit()) ==>
        r.Success? && r.value.aggregationIndex.None? && r.value.budget.None? &&
        nextAggregationIndex == old(nextAggregationIndex)
      // nesting is refused before an index is taken
      ensures aggregationScope && HasAggregationLimit() && old(insideAggregationScope) ==>
        r == Failure(NestedAggregationScopes) && nextAggregationIndex == old(nextAggregationIndex)
      // otherwise an index is consumed, whether or not the scope is then refused
      ensures aggregationScope && HasAggregationLimit() && !old(insideAggregationScope) ==>
        nextAggregationIndex == old(nextAggregationIndex) + 1 &&
        var budget := old(AggregationScopeBudget(nextAggregationIndex, weight));
        (r.Failure? <==> budget.Failure?) &&
        (r.Failure? ==> r.error == budget.error) &&
        (r.Success? ==> r.value.aggregationIndex == Some(old(nextAggregationIndex)) &&
                        r.value.budget == Some(budget.value))
    {
      if aggregationScope && HasAggregationLimit() {
        if insideAggregationScope {
          return Failure(NestedAggregationScopes);
        }
        var i := NextAggregationIndex();
        var budget := AggregationScopeBudget(i, weight);
        if budget.Failure? {
          return Failure(budget.error);
        }
        var s := new BudgetAccountantScope(weight, Some(i), Some(budget.value));
        created := created + {s};
        r := Success(s);
      } else {
        var s := new BudgetAccountantScope(weight, None, None);
        created := created + {s};
        r := Success(s);
      }
    }

    /** Registration leaves everything as it was except that `m` is appended
        to the registry and its index to every open scope. */
    twostate predicate Appended(new m: MechanismSpecInternal)
      reads this, scopesStack
    {
      mechanisms == old(mechanisms) + [m] && scopesStack == old(scopesStack) &&
      (forall i :: 0 <= i < |scopesStack| ==>
         scopesStack[i].mechanisms == old(scopesStack[i].mechanisms) + [|old(mechanisms)|]) &&
      finalized == old(finalized) && nextAggregationIndex == old(nextAggregationIndex) &&
      insideAggregationScope == old(insideAggregationScope) && created == old(created)
    }

    /** `_register_mechanism`. The record's handle is new (request_budget has
        just made it). */
    method RegisterMechanism(m: MechanismSpecInternal)
      requires Valid()
      requires m.mechanismSpec !in Specs()
      requires !finalized ==> m.mechanismSpec.Unset()
      modifies this, scopesStack
      ensures Valid()
      ensures Appended(m)
    {
      var index := |mechanisms|;
      mechanisms := mechanisms + [m];
      for i := 0 to |scopesStack|
        modifies scopesStack
        invariant forall j :: 0 <= j < i ==>
          scopesStack[j].mechanisms == old(scopesStack[j].mechanisms) + [index]
        invariant forall j :: i <= j < |scopesStack| ==>
          scopesStack[j].mechanisms == old(scopesStack[j].mechanisms)
      {
        var scope := scopesStack[i];
        scope.mechanisms := scope.mechanisms + [index];
      }
      assert forall s :: s in created ==> IndicesOk(s.mechanisms, |mechanisms|) by {
        forall s | s in created ensures IndicesOk(s.mechanisms, |mechanisms|) {
          assert old(allocated(s));
          IndicesOkAppend(old(s.mechanisms), index);
          if s in scopesStack {
            var j :| 0 <= j < |scopesStack| && scopesStack[j] == s;
            assert s.mechanisms == old(s.mechanisms) + [index];
          } else {
            assert s.mechanisms == old(s.mechanisms);
          }
        }
      }
      SpecsOfAppend(old(mechanisms), m);
    }

    /** `BudgetAccountantScope.__enter__` / `_enter_scope`. A scope is entered
        on the accountant that made it and is not already open. */
    method EnterScope(s: BudgetAccountantScope)
      requires Valid()
      requires s in created && s !in scopesStack
      modifies this
      ensures Valid()
      ensures scopesStack == old(scopesStack) + [s]
      ensures insideAggregationScope == (s.IsAggregationScope() || old(insideAggregationScope))
      ensures mechanisms == old(mechanisms) && finalized == old(finalized)
      ensures nextAggregationIndex == old(nextAggregationIndex) && created == old(created)
    {
      if s.IsAggregationScope() {
        insideAggregationScope := true;
      }
      scopesStack := scopesStack + [s];
    }

    /** `_exit_scope`: pops the innermost scope. */
    method PopScope() returns (scope: BudgetAccountantScope)
      requires Valid()
      requires |scopesStack| > 0
      modifies this`scopesStack, this`insideAggregationScope
      ensures Valid()
      ensures scope == old(scopesStack[|scopesStack| - 1])
      ensures scopesStack == old(scopesStack[..|scopesStack| - 1])
      ensures insideAggregationScope == (!scope.IsAggregationScope() && old(insideAggregationScope))
    {
      scope := scopesStack[|scopesStack| - 1];
      scopesStack := scopesStack[..|scopesStack| - 1];
      if scope.IsAggregationScope() {
        insideAggregationScope := false;
      }
    }

    /** `_normalise_mechanism_weights`: rescales every weight the scope holds
        by `scope.weight / sum`, so that they sum to the scope's weight. An
        empty scope does nothing; a zero sum is Python's ZeroDivisionError. */
    method NormaliseMechanismWeights(s: BudgetAccountantScope) returns (r: Outcome<BudgetError>)
      requires Valid()
      requires s in created
      modifies this`mechanisms
      ensures Valid()
      ensures s.mechanisms == [] ==> r == Pass && mechanisms == old(mechanisms)
      ensures s.mechanisms != [] && SumWeights(old(mechanisms), s.mechanisms) == 0.0 ==>
        r == Fail(DivisionByZero) && mechanisms == old(mechanisms)
      ensures s.mechanisms != [] && SumWeights(old(mechanisms), s.mechanisms) != 0.0 ==>
        r == Pass &&
        mechanisms == Rescaled(old(mechanisms), s.mechanisms, s.weight / SumWeights(old(mechanisms), s.mechanisms)) &&
        SumWeights(mechanisms, s.mechanisms) == s.weight
      // weights of the scope are multiplied by one factor, other records are untouched
      ensures |mechanisms| == |old(mechanisms)|
      ensures s.mechanisms != [] && SumWeights(old(mechanisms), s.mechanisms) != 0.0 ==>
        forall k :: 0 <= k < |mechanisms| ==>
          mechanisms[k] == if k in s.mechanisms
                           then Scaled(old(mechanisms[k]), s.weight / SumWeights(old(mechanisms), s.mechanisms))
                           else old(mechanisms[k])
    {
      if s.mechanisms == [] {
        return Pass;
      }
      var idx := s.mechanisms;
      var total := SumWeights(mechanisms, idx);
      if total == 0.0 {
        return Fail(DivisionByZero);
      }
      var factor := s.weight / total;
      ghost var ms0 := mechanisms;
      assert Rescaled(ms0, idx[..0], factor) == ms0;
      for i := 0 to |idx|
        invariant mechanisms == Rescaled(ms0, idx[..i], factor)
      {
        var k := idx[i];
        RescaledStep(ms0, idx, i, factor);
        var current := mechanisms;
        var m := current[k];
        mechanisms := current[k := Scaled(m, factor)];
      }
      NormalisedWeightsSumToScopeWeight(ms0, idx, s.weight);
      RescaledKeepsSpecs(ms0, idx, factor);
      r := Pass;
    }

    /** `BudgetAccountantScope.__exit__`: pops the scope (which, under the
        `with`-block discipline, is the innermost one) and normalises it. */
    method ExitScope(s: BudgetAccountantScope) returns (r: Outcome<BudgetError>)
      requires Valid()
      requires |scopesStack| > 0 && scopesStack[|scopesStack| - 1] == s
      modifies this
      ensures Valid()
      ensures scopesStack == old(scopesStack[..|scopesStack| - 1])
      ensures insideAggregationScope == (!s.IsAggregationScope() && old(insideAggregationScope))
      ensures finalized == old(finalized) && nextAggregationIndex == old(nextAggregationIndex)
      ensures created == old(created)
      ensures s.mechanisms == [] ==> r == Pass && mechanisms == old(mechanisms)
      ensures s.mechanisms != [] && SumWeights(old(mechanisms), s.mechanisms) == 0.0 ==>
        r == Fail(DivisionByZero) && mechanisms == old(mechanisms)
      ensures s.mechanisms != [] && SumWeights(old(mechanisms), s.mechanisms) != 0.0 ==>
        r == Pass &&
        mechanisms == Rescaled(old(mechanisms), s.mechanisms, s.weight / SumWeights(old(mechanisms), s.mechanisms)) &&
        SumWeights(mechanisms, s.mechanisms) == s.weight
      // weights of the scope are multiplied by one factor, other records are untouched
      ensures |mechanisms| == |old(mechanisms)|
      ensures s.mechanisms != [] && SumWeights(old(mechanisms), s.mechanisms) != 0.0 ==>
        forall k :: 0 <= k < |mechanisms| ==>
          mechanisms[k] == if k in s.mechanisms
                           then Scaled(old(mechanisms[k]), s.weight / SumWeights(old(mechanisms), s.mechanisms))
                           else old(mechanisms[k])
    {
      var popped := PopScope();
      r := NormaliseMechanismWeights(s);
    }

    /** `_check_number_aggregation_scopes`. */
    function CheckNumberAggregationScopes(): (r: Outcome<BudgetError>)
      reads this
      ensures r.Pass? <==>
        (CountLimited() ==> nextAggregationIndex == nAggregations.value) &&
        (aggregationWeights.Some? ==> nextAggregationIndex == |aggregationWeights.value|)
      ensures CountLimited() && nextAggregationIndex != nAggregations.value ==>
        r == Fail(AggregationCountMismatch)
    {
      if CountLimited() && nAggregations.value != nextAggregationIndex then Fail(AggregationCountMismatch)
      else if aggregationWeights.Some? && nextAggregationIndex != |aggregationWeights.value| then
        Fail(AggregationWeightsLengthMismatch)
      else Pass
    }

    /** `_finalize`: the aggregation-count check runs first, then the
        called-twice check; only a call that passes both sets the flag. */
    method Finalize() returns (r: Outcome<BudgetError>)
      requires Valid()
      modifies this`finalized
      ensures Valid()
      ensures CheckNumberAggregationScopes().Fail? ==>
        r == CheckNumberAggregationScopes() && finalized == old(finalized)
      ensures CheckNumberAggregationScopes().Pass? && old(finalized) ==>
        r == Fail(ComputeBudgetsTwice) && finalized
      ensures CheckNumberAggregationScopes().Pass? && !old(finalized) ==> r == Pass && finalized
    {
      r := CheckNumberAggregationScopes();
      if r.Fail? {
        return;
      }
      if finalized {
        return Fail(ComputeBudgetsTwice);
      }
      finalized := true;
    }

    /** The path `compute_budgets` takes from a state whose `finalized` flag
        was `wasFinalized`: `_finalize`'s errors, then the no-mechanisms
        warning (which hides any open scope), then the open-scope error. */
    function ComputeStepFrom(wasFinalized: bool): (step: ComputeStep)
      reads this
      ensures CheckNumberAggregationScopes().Fail? ==> step == Reject(CheckNumberAggregationScopes().error)
      ensures CheckNumberAggregationScopes().Pass? && wasFinalized ==> step == Reject(ComputeBudgetsTwice)
      ensures step == NoBudgets <==>
        CheckNumberAggregationScopes().Pass? && !wasFinalized && mechanisms == []
      ensures step == Assign <==>
        CheckNumberAggregationScopes().Pass? && !wasFinalized && mechanisms != [] && scopesStack == []
      ensures CheckNumberAggregationScopes().Pass? && !wasFinalized && mechanisms != [] && scopesStack != [] ==>
        step == Reject(InsideBudgetScope)
    {
      var check := CheckNumberAggregationScopes();
      if check.Fail? then Reject(check.error)
      else if wasFinalized then Reject(ComputeBudgetsTwice)
      else if mechanisms == [] then NoBudgets
      else if scopesStack != [] then Reject(InsideBudgetScope)
      else Assign
    }

    /** The shared start of both `compute_budgets`: `_finalize`, then the
        early return and the open-scope check. The flag is set before the
        latter two, so a call refused for an open scope still finalises. */
    method BeginComputeBudgets() returns (step: ComputeStep)
      requires Valid()
      modifies this`finalized
      ensures Valid()
      ensures step == old(ComputeStepFrom(finalized))
      ensures finalized == (old(finalized) || CheckNumberAggregationScopes().Pass?)
    {
      var f := Finalize();
      if f.Fail? {
        return Reject(f.error);
      }
      if |mechanisms| == 0 {
        // the source logs a warning here
        return NoBudgets;
      }
      if |scopesStack| > 0 {
        return Reject(InsideBudgetScope);
      }
      step := Assign;
    }
  }
}
