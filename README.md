# Privacy budget accounting

A Dafny model of the budget accountants of PipelineDP
(`pipeline_dp/budget_accounting.py`). A pipeline asks an accountant for a
budget for each differentially private mechanism it is going to run. The
accountant hands back a lazy handle (`MechanismSpec`) and keeps a record of
the mechanism's sensitivity and weight. Budget scopes opened around groups of
requests rescale the weights of the mechanisms inside them when they close.
The number or the weights of the aggregations can be declared up front.
When they are, a scope created as an aggregation scope takes the next
aggregation index and an eager (epsilon, delta) share, and it cannot be
created while another aggregation scope is entered. The check is made at
creation against a flag set on entry and cleared on exit, so it does not
make aggregation scopes top-level: two created before either is entered can
still nest. Without a declared limit, an aggregation scope is a plain scope.
Finally, `compute_budgets` finalises the accountant, which can happen only
once, and writes a budget into every handle:

- the naive accountant splits total epsilon and delta in proportion to
  weight times count;
- the PLD accountant assigns every handle one pipeline-wide noise level,
  scaled by the handle's sensitivity over its weight.

Modules:

- `Wrappers`: `Option`, `Result` and `Outcome`.
- `Errors`: every exception the core raises, as one `BudgetError`
  datatype.
- `Mechanisms`: `MechanismType`, the `MechanismSpec` handle class (its
  fields are written in place by the accountant) and the
  `MechanismSpecInternal` record.
- `Accountant`: the shared base accountant, the scope class, and the
  validation, aggregation-budget and normalisation rules.
- `NaiveAccountant`: `NaiveBudgetAccountant` and the proportional split,
  with its conservation laws.
- `PldAccountant`: the request checks and the noise-assignment part of
  `PLDBudgetAccountant`.

Design of the model:

- The accountant's `mechanisms` list is an arena of
  `MechanismSpecInternal` values.
- A scope holds the arena indices of the mechanisms registered while it was
  open. Normalisation therefore rewrites one owner's records in place.
- The two concrete accountants hold the shared state as `base`, which
  replaces inheritance.
- Every Python exception becomes a `Failure`/`Fail` value. The
  `BudgetError` variant names the condition the source checks, not the
  Python exception class. Every unguarded division by zero is
  `DivisionByZero`.

## Model

| member | source | states |
|---|---|---|
| Mechanisms.MechanismSpec.constructor | pipeline_dp/budget_accounting.py:34-46 | a new handle has the given type and count, and its noise, eps and delta are all unset |
| Mechanisms.MechanismSpec.NoiseStandardDeviation | pipeline_dp/budget_accounting.py:48-58 | succeeds exactly when the noise has been set and returns it; otherwise fails with "noise not calculated" |
| Mechanisms.MechanismSpec.Eps | pipeline_dp/budget_accounting.py:60-68 | succeeds exactly when eps has been set and returns it; otherwise fails with "budget not calculated" |
| Mechanisms.MechanismSpec.Delta | pipeline_dp/budget_accounting.py:70-78 | succeeds exactly when delta has been set and returns it; otherwise fails with "budget not calculated" |
| Mechanisms.MechanismSpec.SetEpsDelta | pipeline_dp/budget_accounting.py:85-95 | a missing eps is refused and leaves the handle unchanged; otherwise exactly eps and delta are written and the noise is kept |
| Mechanisms.MechanismSpec.UseDelta | pipeline_dp/budget_accounting.py:97-98 | true exactly for Gaussian and Generic mechanisms |
| Accountant.ValidateEpsilonDelta | pipeline_dp/budget_accounting.py:634-647 | passes iff epsilon > 0 and delta >= 0; a non-positive epsilon is reported before a negative delta |
| Accountant.ValidateConstruction | pipeline_dp/budget_accounting.py:117-124 | construction passes iff at most one aggregation limit is given, a given count is positive, and epsilon and delta are in range (the `_validate_epsilon_delta` call both concrete constructors make after the base constructor, lines 357 and 470); both limits given is reported first |
| Accountant.CheckRequest | pipeline_dp/budget_accounting.py:386-399 | a request passes iff the accountant is not finalised, no noise is given, the count is 1 where the PLD rule applies, and it is not Gaussian with zero total delta; finalisation is reported first |
| Accountant.AggregationBudgetRatio | pipeline_dp/budget_accounting.py:316-328 | the ratio is 1/n with a declared count, w_i/sum(w) with declared weights (a zero sum is a division by zero), and absent with neither |
| Accountant.DeclaredSharesSumToOne | pipeline_dp/budget_accounting.py:320-323 | the budget ratios of all declared aggregation weights add up to 1 |
| Accountant.SumSharesIsScaledSum | pipeline_dp/budget_accounting.py:322-323 | the sum of the shares w_i/t equals sum(w)/t |
| Accountant.NormalisedWeightsSumToScopeWeight | pipeline_dp/budget_accounting.py:311-314 | after rescaling by scope weight over the current sum, the scope's weights sum to the scope weight |
| Accountant.NormalisationPreservesRatios | pipeline_dp/budget_accounting.py:313-314 | rescaling keeps the ratio of any two weights held by the scope |
| Accountant.BudgetAccountantScope.constructor | pipeline_dp/budget_accounting.py:261-272 | a new scope has the given weight, index and eager budget, and holds no mechanisms |
| Accountant.BudgetAccountantScope.IsAggregationScope | pipeline_dp/budget_accounting.py:284-286 | a scope is an aggregation scope exactly when it took an aggregation index; reading the budget of any other scope fails with "not an aggregation scope" |
| Accountant.BudgetAccountantScope.ValidateBudget | pipeline_dp/budget_accounting.py:288-295 | passes iff the scope is an aggregation scope that has a budget; a non-aggregation scope is reported first |
| Accountant.BudgetAccountantScope.Epsilon | pipeline_dp/budget_accounting.py:274-277 | returns the eager epsilon exactly when the budget check passes, otherwise the check's error |
| Accountant.BudgetAccountantScope.Delta | pipeline_dp/budget_accounting.py:279-282 | returns the eager delta exactly when the budget check passes, otherwise the check's error |
| Accountant.BudgetAccountant.constructor | pipeline_dp/budget_accounting.py:112-128 | a new accountant keeps its limits and totals, and has no scopes, no mechanisms, index 0, and is neither finalised nor inside an aggregation scope |
| Accountant.BudgetAccountant.NextAggregationIndex | pipeline_dp/budget_accounting.py:234-236 | returns the old counter and advances it by one |
| Accountant.BudgetAccountant.AggregationScopeBudget | pipeline_dp/budget_accounting.py:178-201 | with a count: index >= n fails and weight != 1 fails, otherwise the share is 1/n; with weights: index >= len fails and weight != w[index] fails, a zero sum(w) is a division by zero, otherwise the share is w[index]/sum(w) |
| Accountant.BudgetAccountant.Scope | pipeline_dp/budget_accounting.py:144-204 | a plain scope, or any scope when no limit is declared (no count and no or an empty list of weights), always succeeds with no index and no budget; an aggregation scope is refused while another aggregation scope is entered (the flag set by `EnterScope`), without taking an index; otherwise it takes an index even when it is then refused, and its result follows `AggregationScopeBudget` for that index |
| Accountant.BudgetAccountant.RegisterMechanism | pipeline_dp/budget_accounting.py:206-216 | the record is appended to the registry, its index is appended to every open scope, and nothing else changes |
| Accountant.BudgetAccountant.EnterScope | pipeline_dp/budget_accounting.py:218-221 | pushes the scope and sets the inside-aggregation flag when it is an aggregation scope; nothing else changes |
| Accountant.BudgetAccountant.PopScope | pipeline_dp/budget_accounting.py:223-226 | pops the top of the stack and clears the inside-aggregation flag when the popped scope is an aggregation scope |
| Accountant.BudgetAccountant.NormaliseMechanismWeights | pipeline_dp/budget_accounting.py:305-314 | an empty scope changes nothing; a zero weight sum is a division by zero and changes nothing; otherwise every held weight is multiplied by scope weight over the sum, the others are untouched, and the held weights then sum to the scope weight |
| Accountant.BudgetAccountant.ExitScope | pipeline_dp/budget_accounting.py:301-303 | pops the scope off the top of the stack, then normalises it with the same outcomes as `NormaliseMechanismWeights` |
| Accountant.BudgetAccountant.CheckNumberAggregationScopes | pipeline_dp/budget_accounting.py:238-252 | passes iff the number of created aggregation scopes equals the declared count or the length of the declared weights |
| Accountant.BudgetAccountant.Finalize | pipeline_dp/budget_accounting.py:228-232 | the aggregation-count check runs first and leaves the flag as it was; then a second call fails; a call that passes both sets the flag |
| Accountant.BudgetAccountant.ComputeStepFrom | pipeline_dp/budget_accounting.py:410-420 | the order of outcomes: the count error, "called twice", no mechanisms (which hides open scopes), "inside a budget scope", then assignment |
| Accountant.BudgetAccountant.BeginComputeBudgets | pipeline_dp/budget_accounting.py:410-420 | its step follows `ComputeStepFrom`; the accountant ends finalised whenever the count check passes, even when it is refused for an open scope |
| NaiveAccountant.NaiveEps | pipeline_dp/budget_accounting.py:429-432 | a record's eps times the weighted total equals total epsilon times its weight; with a zero weighted total the eps is 0 |
| NaiveAccountant.NaiveDelta | pipeline_dp/budget_accounting.py:433-436 | a mechanism that does not use delta, Laplace in particular, gets delta 0 |
| NaiveAccountant.TotalWeights | pipeline_dp/budget_accounting.py:422-426 | returns the weighted totals of all records and of the records that use delta |
| NaiveAccountant.SpentEpsScales | pipeline_dp/budget_accounting.py:428-432 | the eps handed out (times count) equals the per-unit share times the weighted total |
| NaiveAccountant.SpentDeltaScales | pipeline_dp/budget_accounting.py:433-436 | the delta handed out (times count) equals the per-unit share times the delta-weighted total |
| NaiveAccountant.NaiveEpsConserved | pipeline_dp/budget_accounting.py:428-432 | with a nonzero weighted total, the eps handed out times count adds up to total epsilon |
| NaiveAccountant.NaiveDeltaConserved | pipeline_dp/budget_accounting.py:433-436 | with a nonzero delta-weighted total, the delta handed out times count adds up to total delta |
| NaiveAccountant.NaiveEpsSpentFromSuffix | pipeline_dp/budget_accounting.py:428-437 | summing each record's assigned eps times its count, by index, is the same as the fixed-total spend over the registry |
| NaiveAccountant.NaiveDeltaSpentFromSuffix | pipeline_dp/budget_accounting.py:428-437 | the same for each record's assigned delta |
| NaiveAccountant.NaiveSplitSpendsEpsilon | pipeline_dp/budget_accounting.py:422-437 | with a nonzero weighted total, the sum of eps_k * count_k over all records equals total epsilon |
| NaiveAccountant.NaiveSplitSpendsDelta | pipeline_dp/budget_accounting.py:422-437 | with a nonzero delta-weighted total, the sum of delta_k * count_k over all records equals total delta |
| NaiveAccountant.NaiveEpsProportional | pipeline_dp/budget_accounting.py:430-432 | any two records' eps are in the ratio of their weights |
| NaiveAccountant.NaiveBudgetAccountant.constructor | pipeline_dp/budget_accounting.py:334-361 | a valid accountant in the initial state that keeps its totals and limits |
| NaiveAccountant.NaiveBudgetAccountant.RequestBudget | pipeline_dp/budget_accounting.py:363-408 | a refused request changes nothing and returns the check's error; an accepted one returns a fresh unset handle with the given type and count, registered as by `RegisterMechanism` |
| NaiveAccountant.NaiveBudgetAccountant.ComputeBudgets | pipeline_dp/budget_accounting.py:410-437 | leaves the registry and the scopes alone, follows `ComputeStepFrom`, writes no handle unless it assigns, and then gives every record its `NaiveEps` and `NaiveDelta` with the noise left unset |
| NaiveAccountant.NaiveBudgetAccountant.AssignBudgets | pipeline_dp/budget_accounting.py:422-437 | every record ends with its naive eps and delta |
| NaiveAccountant.NaiveBudgetAccountant.AssignShare | pipeline_dp/budget_accounting.py:429-437 | the handle gets eps = total epsilon * weight / total weight (0 when the total is 0), and delta likewise over the delta total, or 0 when it does not use delta |
| NaiveAccountant.NewNaiveBudgetAccountant | pipeline_dp/budget_accounting.py:355-357 | construction fails with the validation error exactly when validation fails, and otherwise yields the initial accountant |
| PldAccountant.PureEpsilonNoiseStd | pipeline_dp/budget_accounting.py:540-544 | the delta-0 noise level times total epsilon equals the sum of the weights times sqrt(2) |
| PldAccountant.MinimumNoiseStd | pipeline_dp/budget_accounting.py:540-546 | with total delta 0 the noise level is the closed form (level times total epsilon equals sum of weights times sqrt(2)), otherwise it is the searched value |
| PldAccountant.MechanismNoiseStd | pipeline_dp/budget_accounting.py:550 | the mechanism's noise times its weight equals its sensitivity times the pipeline noise level |
| PldAccountant.GenericDelta | pipeline_dp/budget_accounting.py:553-554 | a Generic mechanism's (eps, delta) keeps the pipeline's delta-to-epsilon ratio |
| PldAccountant.GenericEps | pipeline_dp/budget_accounting.py:553 | a Generic mechanism's epsilon times its noise equals sqrt(2) |
| PldAccountant.FirstFailure | pipeline_dp/budget_accounting.py:549-555 | the first record the loop divides by zero on: every record before it is safe, and the one at it fails |
| PldAccountant.SpentLaplaceEpsScales | pipeline_dp/budget_accounting.py:540-551 | the Laplace epsilons implied by the assigned noise sum to the total weight times sqrt(2) over the noise level |
| PldAccountant.PureEpsilonSpendsTotal | pipeline_dp/budget_accounting.py:540-551 | with delta 0, the closed-form noise level is nonzero, and the Laplace epsilons it implies add up to total epsilon |
| PldAccountant.NoiseInverseToWeight | pipeline_dp/budget_accounting.py:550 | assigned noise is proportional to sensitivity and inversely proportional to weight |
| PldAccountant.PLDBudgetAccountant.constructor | pipeline_dp/budget_accounting.py:450-475 | a valid accountant in the initial state that keeps its totals, limits and discretization, and has no noise level yet |
| PldAccountant.PLDBudgetAccountant.RequestBudget | pipeline_dp/budget_accounting.py:477-521 | a refused request (including count != 1) changes nothing; an accepted one returns a fresh unset handle with count 1, registered as by `RegisterMechanism` |
| PldAccountant.PLDBudgetAccountant.SumWeights | pipeline_dp/budget_accounting.py:541-543 | returns the sum of all weights |
| PldAccountant.PLDBudgetAccountant.AssignNoise | pipeline_dp/budget_accounting.py:550-555 | succeeds iff the record causes no division by zero; it then has its noise and, if Generic, its (eps, delta); on failure the handle is left as Python leaves it |
| PldAccountant.PLDBudgetAccountant.AssignNoiseLevels | pipeline_dp/budget_accounting.py:549-555 | every record before `FirstFailure` is assigned; the loop passes if none fails, otherwise it is a division by zero and the handles after it stay unset |
| PldAccountant.PLDBudgetAccountant.ComputeBudgets | pipeline_dp/budget_accounting.py:523-555 | follows `ComputeStepFrom`; when it assigns, it records the noise level (the closed form when delta is 0, else the searched value) and its handles are as `AssignNoiseLevels` states |
| PldAccountant.PLDBudgetAccountant.AssignBudgets | pipeline_dp/budget_accounting.py:540-555 | records the noise level and assigns the handles as `AssignNoiseLevels` states |
| PldAccountant.NewPLDBudgetAccountant | pipeline_dp/budget_accounting.py:468-470 | construction fails with the validation error exactly when validation fails, and otherwise yields the initial accountant |

## Left out

- The privacy-loss-distribution search (`_find_minimum_noise_std`, `_calculate_max_noise_std`, `_compose_distributions`, lines 557-631) is not part of this model. It calls the external `dp_accounting` library. When total delta is positive, its result enters `PLDBudgetAccountant.ComputeBudgets` as the parameter `searchedNoiseStd`.
- `pld_discretization` is stored but never used, since only the search reads it.
- `math.sqrt(2)` is the exact rational value of the IEEE-754 double it returns (`Sqrt2`).
- Floating-point rounding: weights, budgets and noise are `real`, so the conservation laws hold exactly, and in Python they hold only up to rounding.
- The guarded import of `dp_accounting` and the `logging.warning` for an empty registry: the warning is the `NoBudgets` early return.
- Context-manager exception semantics: `with`-blocks become explicit `EnterScope`/`ExitScope` calls. Exit requires the scope to be the innermost open one, and entry requires a scope of this accountant that is not already open. Re-entering an open scope is allowed in Python but excluded here.
- A scope's back-reference to its accountant is the ghost set `created` of scopes the accountant made.
- Exception classes: `ValueError`, `AssertionError`, `NotImplementedError`, `ZeroDivisionError` and plain `Exception` all become `BudgetError` variants. Which Python class was raised, and its message, are not kept.
- Mutation of handles or records by callers: `mechanismType` and `count` of a handle are constants here. In Python they are writable dataclass fields.
- A caller writing into a handle before `compute_budgets` is not modelled. The accountant invariant `Valid()` requires every registered handle to stay unset until finalisation, and both accountants' `AssignBudgets` rely on it. A client that calls `SetEpsDelta` on a returned handle therefore cannot go on to call `ComputeBudgets` in the model. Python accepts that sequence: the naive accountant then overwrites eps and delta (line 437), and the PLD accountant overwrites them only on GENERIC handles and keeps the caller's values on the others (lines 551-555).
- The `assert False` branch of `scope` is unreachable, because the aggregation-limit test has just passed. It has no counterpart.
- Accountant.BudgetAccountant.EnterScope: does not model a scope being given to another accountant's `__enter__`, because the required `s in created` excludes it.
