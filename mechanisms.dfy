/** Mechanism descriptors: the caller-visible lazy handle `MechanismSpec`
    and the accountant's bookkeeping record `MechanismSpecInternal`. */
module Mechanisms {
  import opened Wrappers
  import opened Errors

  /** The closed set of noise distributions a mechanism may use. */
  datatype MechanismType = Laplace | Gaussian | Generic

  /** A handle returned by `request_budget`. Its type and count are fixed at
      creation; the noise standard deviation, eps and delta start unset and
      are written by the owning accountant's `compute_budgets`. */
  class MechanismSpec {
    const mechanismType: MechanismType
    const count: int
    var noiseStandardDeviation: Option<real>
    var eps: Option<real>
    var delta: Option<real>

    /** Nothing has been computed for this handle yet. */
    ghost predicate Unset()
      reads this
    {
      noiseStandardDeviation.None? && eps.None? && delta.None?
    }

    constructor (mechanismType: MechanismType, count: int)
      ensures this.mechanismType == mechanismType && this.count == count
      ensures Unset()
    {
      this.mechanismType := mechanismType;
      this.count := count;
      noiseStandardDeviation, eps, delta := None, None, None;
    }

    /** The `noise_standard_deviation` property: fails until it is set. */
    function NoiseStandardDeviation(): (r: Result<real, BudgetError>)
      reads this
      ensures r.Success? <==> noiseStandardDeviation.Some?
      ensures r.Success? ==> r.value == noiseStandardDeviation.value
      ensures r.Failure? ==> r.error == NoiseNotCalculated
    {
      if noiseStandardDeviation.None? then Failure(NoiseNotCalculated)
      else Success(noiseStandardDeviation.value)
    }

    /** The `eps` property: fails until the budget is set. */
    function Eps(): (r: Result<real, BudgetError>)
      reads this
      ensures r.Success? <==> eps.Some?
      ensures r.Success? ==> r.value == eps.value
      ensures r.Failure? ==> r.error == BudgetNotCalculated
    {
      if eps.None? then Failure(BudgetNotCalculated) else Success(eps.value)
    }

    /** The `delta` property: fails until the budget is set. */
    function Delta(): (r: Result<real, BudgetError>)
      reads this
      ensures r.Success? <==> delta.Some?
      ensures r.Success? ==> r.value == delta.value
      ensures r.Failure? ==> r.error == BudgetNotCalculated
    {
      if delta.None? then Failure(BudgetNotCalculated) else Success(delta.value)
    }

    /** `set_eps_delta`: refuses a missing eps, otherwise writes exactly
        eps and delta (delta may be None). */
    method SetEpsDelta(eps: Option<real>, delta: Option<real>) returns (r: Outcome<BudgetError>)
      modifies this
      ensures eps.None? ==> r == Fail(EpsNotGiven) && unchanged(this)
      ensures eps.Some? ==> r == Pass && this.eps == eps && this.delta == delta
      ensures noiseStandardDeviation == old(noiseStandardDeviation)
    {
      if eps.None? {
        return Fail(EpsNotGiven);
      }
      this.eps := eps;
      this.delta := delta;
      r := Pass;
    }

    /** `use_delta`: every mechanism except Laplace consumes delta. */
    predicate UseDelta()
      ensures UseDelta() <==> mechanismType.Gaussian? || mechanismType.Generic?
    {
      mechanismType != Laplace
    }
  }

  /** The accountant's record of one mechanism: its declared sensitivity, its
      weight (rescaled in place as enclosing scopes close) and its handle. */
  datatype MechanismSpecInternal = MechanismSpecInternal(
    sensitivity: real,
    weight: real,
    mechanismSpec: MechanismSpec)
}
