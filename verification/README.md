# Hotelling-Lawley trace power, modelled in Dafny

This project models `hlt`, the routine of GLMPowerCalculation that computes
the power of the Hotelling-Lawley trace test of a general linear multivariate
hypothesis, and optionally confidence limits on that power. The routine has
five steps:

1. It derives the hypothesis degrees of freedom `df1 = rank_C * rank_U`.
2. It derives the error degrees of freedom `df2`. Method codes 1 and 3 use the
   Pillai one-moment form. Codes 2 and 4 use the McKeon two-moment form.
3. It declares the case not computable when `df2 <= 0` or the first
   eigenvalue of H·E⁻¹ is missing. It then records warning 15 and skips the
   F distribution entirely.
4. It computes the noncentrality `omega` for each eigenvalue. It turns the F
   probability into power, with the floor rule "exhausted fallback
   (method 4) and probability exactly 1 gives power = alpha".
5. It decides whether to call the confidence-limit solver. When limits are
   requested but there is no power, it records warning 16 instead.

The model uses exact `real` arithmetic. IEEE NaN becomes the explicit `NaN`
variant of `Numbers.Num`, and array arithmetic propagates it element by
element. The mutable warning accumulator becomes the `warnings` sequence of
the result. The three collaborators are fields of `Distributions.Oracles`:

- `finv`, the F quantile function;
- `probf`, the noncentral F probability function;
- `glmmpcl`, the confidence-limit solver.

The result also carries the sequence of collaborator calls, so "not
consulted" and "consulted once with these arguments" can be stated.

Modules:

- `Numbers`: the missing value and its arithmetic.
- `Diagnostics`: the warning records and their codes.
- `Distributions`: the collaborator interfaces.
- `HltPower`: the routine, corrected so that it always returns.
- `HltProperties`: lemmas relating calls and closed forms.
- `AsWritten`: the routine's ending as the program writes it.

Three points about what the code does:

- The code never sums the noncentrality. `omega` stays an array with one
  entry per eigenvalue (glmpowercalc/hlt.py:52-57), and the model keeps it as
  a sequence. `HltProperties.OmegaSumsToScalar` proves that the entries sum
  to the scalar Σ eigenvalue · factor, where the factor is `N - rank_X` or
  `df2 / min(rank_C, rank_U)`.
- The `eigenvalue * (N - rank_X) / N` form is chosen when `m_method[0] > 2`
  (codes 3 and 4, the OS-multiplier variants) or when
  `min(rank_C, rank_U) == 1`. The other form is used otherwise.
- `power_l` and `power_u` are bound only when the solver runs, but line 86
  returns them on every path. So the routine raises when limits are not
  requested, or when there is no power (see Findings).

The preconditions (`HltPower.Valid`) are what the model needs:

- A method selector whose first slot is in 1..4. Otherwise `df2` is never
  assigned and the code raises.
- A first eigenvalue whenever `df2 > 0`. The guard `df2 <= 0 or
  isnan(eval_HINVE[0])` short-circuits, so with `df2 <= 0` an empty
  eigenvalue array is accepted. The model accepts it too.
- A non-zero two-moment denominator for codes 2 and 4. Otherwise the
  division of two Python integers raises.
- Non-zero `rank_C`, `rank_U` and `total_N`. The code divides arrays by
  `min(rank_C, rank_U)`, `total_N` and `df1`. Such a division does not
  raise; it yields infinities or NaN, which the model does not represent
  (see Left out).

## Model

| member | source | states |
|---|---|---|
| `HltPower.Hlt` | glmpowercalc/hlt.py:31-86 | Not computable: power and both limits missing, no collaborator called, warnings exactly [15] (then 16 if limits were requested). Computable: the first two calls are finv(1-alpha, df1, df2) and then probf on its critical value and omega; the first warning is the method warning tagged 1; power is derived from probf's answer. Without limits, those two calls and that one warning are the whole record; with limits requested but no power, the record is those two calls and the warnings [method, 16]. Every call carries df1 = rank_C*rank_U whatever the method code. Limits not requested: both limits missing and the solver never called. |
| `HltPower.Df2` | glmpowercalc/hlt.py:40-45 | Codes 1 and 3 give a whole number. The closed forms of both branches are stated by `HltProperties.Df2ClosedForms`, and positivity by `HltProperties.Df2PositiveBeyondRanks`. |
| `HltPower.Evaluate` | glmpowercalc/hlt.py:48-66 | The point estimate is skipped exactly when the case is not computable. Otherwise omega is the per-eigenvalue noncentrality, the critical value is finv(1-alpha, df1, df2), probf is given that value, df1, df2 and omega, and power follows the floor rule applied to probf's answer. |
| `HltPower.ConfidenceLimits` | glmpowercalc/hlt.py:68-84 | The limits are not requested iff cl_type < 1. They are missing for lack of power iff cl_type >= 1 and the power is missing. When solved, the solver's answer is returned, its arguments are the routine's alpha, df1, N, df2, cl_type, n_est, rank_est, alpha_cl, alpha_cu and tolerance, and f_a has one entry per omega entry, missing exactly where omega is, with f_a*df1 = omega elsewhere. |
| `HltProperties.NotComputableReadsFirstOnly` | glmpowercalc/hlt.py:48 | With df2 <= 0 the case is not computable whatever the eigenvalues, even none. With df2 > 0 it is not computable iff the first eigenvalue is missing, so two arrays with the same first entry decide alike. |
| `HltPower.OmegaEntry` | glmpowercalc/hlt.py:52-57 | The program's noncentrality entry for one eigenvalue equals the eigenvalue times one factor: N - rank_X under the OS form, df2 / min-rank otherwise. A missing eigenvalue gives a missing entry. |
| `HltPower.Omega` | glmpowercalc/hlt.py:52-57 | omega has one entry per eigenvalue, and entry i is eigenvalue i times that factor (element-wise, never summed). |
| `HltPower.Power` | glmpowercalc/hlt.py:63-66 | Power is missing iff the probability is. Method 4 with probability exactly 1 gives power = alpha. Otherwise power + probability = 1. A probability in [0,1] with alpha in (0,1) gives power in [0,1]. |
| `Numbers.DivideAll` | glmpowercalc/hlt.py:72 | f_a = omega / df1 satisfies `Numbers.DividedBy`: the same length, missing exactly where omega is, and each present entry times df1 gives back the omega entry. |
| `HltProperties.Df2ClosedForms` | glmpowercalc/hlt.py:40-45 | Codes 1/3: df2 = min(rank_C,rank_U)*(N-rank_X-rank_U-1)+2. Codes 2/4: df2 = 4 + (rank_C*rank_U+2)*((m-rank_U)(m-rank_U-3)/de), where m = N - rank_X and de is the program's denominator. |
| `HltProperties.Df2NumeratorFactors` | glmpowercalc/hlt.py:43 | The two-moment numerator equals (m - rank_U)(m - rank_U - 3). |
| `HltProperties.Df2IgnoresOsMultiplier` | glmpowercalc/hlt.py:34-45 | Codes 1 and 3 give the same df2 for all ranks and N. Codes 2 and 4 give the same df2 whenever the two-moment denominator is non-zero. |
| `HltProperties.Df2OneMomentPositiveIff` | glmpowercalc/hlt.py:40-48 | With positive ranks, the one-moment df2 is positive iff N-rank_X-rank_U-1 >= 0, or it is -1 and min-rank is 1. |
| `HltProperties.Df2DenominatorPositive` | glmpowercalc/hlt.py:44 | With positive ranks and N-rank_X-rank_U-1 > 0, the two-moment denominator is positive, so it cannot be zero there. |
| `HltProperties.TwoMomentNumeratorCases` | glmpowercalc/hlt.py:43-44 | On that domain the two-moment numerator is non-negative, except for the value -2 when m = rank_U + 2. In that case the denominator is rank_C*rank_U + rank_C + rank_U + 3. |
| `HltProperties.Df2PositiveBeyondRanks` | glmpowercalc/hlt.py:40-48 | With positive ranks and N-rank_X-rank_U-1 > 0, every method code gives df2 > 0. There, only a missing first eigenvalue can make the case not computable. |
| `HltProperties.TwentySubjectsDf2` | glmpowercalc/hlt.py:42-45 | Ranks 2, 3, 4 with N = 20 under code 2 or 4 give df2 = 17. |
| `HltProperties.SmallSampleIsNotComputable` | glmpowercalc/hlt.py:40-50 | Ranks 2, 3, 4 with N = 7 under code 1 or 3 give df2 = 0. Power is then missing, no collaborator is called, and warning 15 is recorded exactly once. |
| `HltProperties.DegenerateIgnoresCollaborators` | glmpowercalc/hlt.py:48-50 | In the not-computable case the outcome is the same for any collaborators. |
| `HltProperties.DegenerateWarnsOnce` | glmpowercalc/hlt.py:48-50 | In the not-computable case warning 15 occurs exactly once, and no method warning is recorded. |
| `HltProperties.OmegaOsEntries` | glmpowercalc/hlt.py:52-54 | Under codes 3/4 or min-rank 1, each present entry is eigenvalue*(N-rank_X). Entries are missing exactly where eigenvalues are. |
| `HltProperties.OmegaPlainEntries` | glmpowercalc/hlt.py:55-57 | Otherwise each present entry is eigenvalue*(df2/min-rank). Entries are missing exactly where eigenvalues are. |
| `HltProperties.OmegaSumsToScalar` | glmpowercalc/hlt.py:52-57 | The sum of the omega entries is the summed eigenvalues times the same factor, which is the scalar noncentrality formula. |
| `HltProperties.PowerInUnitInterval` | glmpowercalc/hlt.py:59-66 | If probf only returns probabilities in [0,1] and alpha is in (0,1), a computable case has power in [0,1]. |
| `HltProperties.LimitsNeedPower` | glmpowercalc/hlt.py:68-70 | Limits requested in a case that is not computable, or whose probf probability is missing: the power is missing, the warnings are exactly the point estimate's one warning followed by 16, which occurs once. The calls are exactly the point estimate's, so the solver is not called. Both limits are missing. |
| `HltProperties.LimitsFromSolver` | glmpowercalc/hlt.py:68-84 | Limits requested in a computable case whose probf probability is present: the power is present, the first two calls are the point estimate's, and the solver is the third and last call. It gets f_a, missing exactly where an eigenvalue (hence omega) is, with f_a*df1 = omega elsewhere, plus the routine's df1, df2, N, alpha, cl_type, n_est, rank_est, alpha_cl, alpha_cu and tolerance. Its limits and warnings are returned unchanged. |
| `AsWritten.HltAsWritten` | glmpowercalc/hlt.py:68-86 | As written, the routine returns iff limits are requested and power is present, and it then agrees with `HltPower.Hlt`. In every other case it raises on the unbound `power_l`, after exactly the warnings and calls that `HltPower.Hlt` records. |
| `AsWritten.NotRequestedRaises` | glmpowercalc/hlt.py:68-86 | With cl_type < 1 the routine as written raises, while the corrected routine returns missing limits. |
| `AsWritten.TwentySubjectsWithoutLimitsRaises` | glmpowercalc/hlt.py:40-86 | With ranks 2, 3, 4, N = 20, eigenvalues 0.5 and 0.2, alpha 0.05, code 2 and cl_type 0, the routine raises as written for every set of collaborators, after two calls and one warning. |

## Findings

| source | as written | input that shows it | evidently intended | confidence | as-written member | corrected member |
|---|---|---|---|---|---|---|
| glmpowercalc/hlt.py:86 | `return power_l, power, power_u`, but `power_l`/`power_u` are assigned only when the solver runs (lines 73-84) | cl_type = 0 with any other valid input, e.g. ranks 2, 3, 4, N = 20, eigenvalues [0.5, 0.2], alpha 0.05, method [2,2,2]; also cl_type >= 1 with a missing power. Either way the routine raises UnboundLocalError instead of returning | missing-value limits whenever the solver is not run | high (not executed) | `AsWritten.HltAsWritten` (exhibited by `AsWritten.TwentySubjectsWithoutLimitsRaises`) | `HltPower.Hlt` (missing limits proved by `AsWritten.NotRequestedRaises` and `HltProperties.LimitsNeedPower`) |

## Left out

- The numerics of `finv`, `probf` and `glmmpcl` are not part of this model. Their source is not part of it either. They are parameters, and the one assumption ever made about them is that `probf` returns probabilities in [0,1], which only `HltProperties.PowerInUnitInterval` relies on.
- Properties that depend on the collaborators are not stated: power increasing with omega, lower limit ≤ power ≤ upper limit, and equal limits for equal confidence levels. Each depends on `probf` or on the solver, not on `hlt`.
- The model assumes `probf` returns one probability and one method code even though it is given the whole omega array. How the real function treats an array argument is not visible.
- Floating-point rounding is not modelled; the formulas are evaluated exactly in `real`. The test `prob == 1` is kept as a literal equality on the abstract value.
- HltPower.Valid: excludes zero `rank_C`, `rank_U` and `total_N` instead of modelling the infinities or NaN that numpy's array division yields there (with a runtime warning, not an exception); `Num` has no infinity.
- The string labels of `glmpowercalc/constants.py` carry no behaviour. The method codes and confidence-limit types are kept as the integers the routine compares. Like the code, the model treats `cl_type >= 1` as "limits requested".
- The calculation-state object that records warnings is not part of this model. Its two recording calls are modelled as appending `Direct(code)` and `FMethod(method, 1)` records.
- The Pillai-Bartlett and Wilks statistics and any batch driver are not part of this model.
