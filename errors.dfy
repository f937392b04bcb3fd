/** The errors raised by the budget accountants: one constructor per
    condition the source checks explicitly, and `DivisionByZero` for every
    unguarded division by zero (a scope's zero weight sum, zero declared
    aggregation weights, a zero PLD weight, a zero GENERIC noise). */
module Errors {

  datatype BudgetError =
      // construction
    | BothAggregationLimitsSet     // 'n_aggregations' and 'aggregation_weights' both given
    | NonPositiveAggregationCount  // 'n_aggregations' <= 0
    | NonPositiveEpsilon           // epsilon <= 0
    | NegativeDelta                // delta < 0
      // request_budget
    | RequestAfterFinalize         // request_budget() after compute_budgets()
    | NotImplemented               // a noise std given, or (PLD) count != 1
    | GaussianNeedsDelta           // GAUSSIAN requested while total delta is 0
      // scope creation
    | NestedAggregationScopes
    | TooManyAggregations          // aggregation index beyond the declared count / list
    | AggregationWeightNotOne      // weight != 1 while 'n_aggregations' is set
    | AggregationWeightMismatch    // weight differs from 'aggregation_weights[index]'
      // finalisation
    | AggregationCountMismatch     // scopes created != 'n_aggregations'
    | AggregationWeightsLengthMismatch  // scopes created != len('aggregation_weights')
    | ComputeBudgetsTwice
    | InsideBudgetScope
      // readers
    | NotAggregationScope          // epsilon/delta read on a non-aggregation scope
    | AggregationBudgetUnknown     // aggregation scope without an eager budget
    | NoiseNotCalculated           // noise_standard_deviation read before it is set
    | BudgetNotCalculated          // eps/delta read before they are set
    | EpsNotGiven                  // set_eps_delta called with eps = None
      // arithmetic
    | DivisionByZero               // Python's ZeroDivisionError
}
