# Legacy reimbursement scorer and its grid-search harness, in Dafny

This project models the deterministic reimbursement scorer of a reverse-engineered travel-expense system. It also models the harness that tunes the scorer's parameters.

The scorer maps a trip to a dollar amount in a fixed order:
1. Compute the trip's features: days, miles, receipts, per-day rates and flags.
2. Pick one of six cluster labels with an ordered first-match rule chain.
3. Compute the base amount: per diem plus tiered mileage plus tiered receipts.
4. Multiply by the cluster's multiplier. Cluster 4 is split by the vacation flag.
5. Apply four compounding threshold multipliers.
6. Apply the "rounding bug" bonus when the receipts end in 49 or 99 cents.
7. Add the interaction bonus and the log bonus.
8. Clamp to [50, 5000] and round to cents.

There are two near-identical scorer files. They differ in how they compute the receipts subtotal:
- `calculate_reimbursement.py` uses fixed dollar offsets 15, 195 and 495.
- `calculate_reimbursement_optimized.py` uses a true progressive bracket.

One Dafny scorer covers both, selected by `Config.ReceiptTiers`.

The harness (`train_parameters.py`) does three things:
- It scores every training case and averages the absolute errors. A case whose scoring raises costs 1000.
- It enumerates the Cartesian product of five parameter ranges, 2400 combinations, and keeps the first combination with the smallest mean error (strict `<`).
- It reports the ten worst cases.

Modelling choices:
- Money and distances are `real`s, with exact arithmetic.
- Receipts are a whole number of cents, so the 49/99 test is exact.
- `math.log` is a parameter `ln: real -> real`.
- Python's exceptions become `Result` failures:
  - a zero duration is `ZeroDivision`;
  - the logarithm of a non-positive number is `MathDomain`;
  - an empty dataset is `EmptyDataset`;
  - an empty grid is `NoCandidates`.

Modules: `Wrappers`, `RealMath`, `Config`, `Features`, `Clusters`, `Tiers`, `Adjustments`, `Rounding`, `Scorer` (the scorer), then `Grid`, `Evaluation`, `Search`, `HighError` (the harness).

## Which logarithm the log bonus reads

Both scorer files take `log_receipts = features[0][32]` (calculate_reimbursement.py:280, calculate_reimbursement_optimized.py:273). Position 32 of the feature vector built at calculate_reimbursement.py:128-142 is `log_miles_traveled`; `log_receipts` is position 33. The variable's name and the comment at calculate_reimbursement.py:285 ("Log receipts effect") name the receipts.

`Config.LogBonus` selects the reading:
- `AsWritten` reads log(miles + 1), as the code does.
- `Corrected` reads log(receipts + 1), as the name says.

The harness imports calculate_reimbursement.py unchanged, so `Evaluation`, `Search` and `HighError` score with `AsWritten` and the fixed offsets. The scorer's lemmas hold for both readings. See Findings.

## Model

| member | source | states |
|---|---|---|
| Features.Engineer | calculate_reimbursement.py:54-115 | Fails exactly when days <= 0 or miles <= -1. Zero days is a division by zero; any other failure is a log domain error. On success the per-day rates times days give back miles and receipts. is_5_day_trip holds iff days == 5. vacation_penalty holds iff days >= 8 and receipts exceed 12000 cents a day. The 49/99 flag, log(miles+1) and log(receipts+1) are stored |
| Features.VacationFlagInCents | calculate_reimbursement.py:98 | receipts/days > 120 dollars holds iff the receipts exceed 12000 cents per day |
| Features.CentsEndings | calculate_reimbursement_optimized.py:69-70 | Amounts ending in .49 or .99 set the rounding-bug flag; whole and half dollars do not |
| Clusters.DetermineCluster | calculate_reimbursement.py:158-170 | The chain is total and returns a label in 0..5. The label's rule holds and no earlier rule holds |
| Clusters.ClusterIsFirstMatch | calculate_reimbursement_optimized.py:141-162 | Any label whose rule holds, with no earlier rule holding, is the label returned (the first-match label is unique) |
| Clusters.LongSlowExpensiveTripIsCluster1 | calculate_reimbursement.py:161-168 | A trip of more than 8 days, under 50 miles a day and over 1200 dollars satisfies rule 4 but gets cluster 1 |
| Clusters.OneDayLongDistanceIsCluster0 | calculate_reimbursement_optimized.py:141-142 | One day and 600 miles gives cluster 0, whatever the receipts |
| Tiers.MileageTier | calculate_reimbursement.py:195-200 | The three-branch mileage equals rate 0 on the miles up to 100, plus rate 1 on the miles in (100, 500], plus rate 2 on the miles above 500 |
| Tiers.MileageGrowth | calculate_reimbursement.py:195-200 | With non-negative rates, mileage never decreases in miles and grows by at most the rates' sum per extra mile, so it does not jump at 100 or 500 |
| Tiers.ProgressiveReceiptTier | calculate_reimbursement_optimized.py:192-199 | The receipts subtotal is a progressive bracket over the bands up to 50, (50, 500], (500, 1500] and above 1500 |
| Tiers.ProgressiveReceiptMonotone | calculate_reimbursement_optimized.py:192-199 | With non-negative rates, more receipts never give a smaller progressive subtotal |
| Tiers.ProgressiveReceiptSlope | calculate_reimbursement_optimized.py:192-199 | With non-negative rates, the progressive subtotal grows by at most the rates' sum per extra dollar, so it does not jump at 50, 500 or 1500 |
| Tiers.BreakpointsBelongToLowerTier | calculate_reimbursement_optimized.py:192-197 | At exactly 50, 500 or 1500 dollars (and at 100 or 500 miles) the rates above the breakpoint are irrelevant |
| Tiers.OptimizedDefaultsReceiptsAreMonotone | calculate_reimbursement_optimized.py:19-42 | The optimized file's default receipts rates make its bracket non-decreasing in receipts, adding at most 1.3 dollars per extra dollar |
| Tiers.OffsetReceiptTier | calculate_reimbursement.py:203-210 | The fixed-offset subtotal equals the progressive subtotal plus, for each breakpoint passed, how far the fixed offset stands from what the lower rates accumulate |
| Tiers.OffsetIgnoresFirstRateAbove50 | calculate_reimbursement.py:203-206 | For receipts in (50, 500] the subtotal is 15 + (r - 50) * rate 1 and does not depend on rate 0 |
| Tiers.OffsetMatchesProgressiveAtBakedRates | calculate_reimbursement.py:203-210 | With rates 0.3, 0.4, 0.3 the two receipts schemes agree everywhere |
| Tiers.OffsetContinuousAt50 | calculate_reimbursement.py:203-206 | When 50 * rate 0 = 15, the fixed-offset subtotal for receipts up to 500 changes by at most (abs(rate 0) + abs(rate 1)) times the distance from 50 |
| Tiers.OffsetDiscontinuousAt50 | calculate_reimbursement.py:203-206 | When 50 * rate 0 differs from 15, arbitrarily close above 50 the subtotal stays at least half of that jump away from its value at 50 |
| Tiers.OffsetDropsAt50WithBaseDefaults | calculate_reimbursement.py:203-206 | With the file's own default rates, 50.01 dollars of receipts reimburse almost 5 dollars less than 50.00 |
| Adjustments.ApplyClusterAdjustment | calculate_reimbursement.py:214-225 | `apply_cluster_adjustments`: the base times the cluster's multiplier, with cluster 4 split by the vacation flag. Its properties are stated by VacationBonusIff and ClusterMultiplierFourIsUnused |
| Adjustments.DefaultThresholdsNeverLower | calculate_reimbursement.py:227-253 | With either scorer file's default configuration, the thresholds never lower a non-negative amount |
| Adjustments.ClusterMultiplierFourIsUnused | calculate_reimbursement.py:220-225 | Entry 4 of the cluster multipliers never affects the adjusted amount |
| Adjustments.VacationBonusIff | calculate_reimbursement.py:214-225 | The vacation bonus multiplier applies iff the cluster is 4 and receipts exceed 120 dollars a day; otherwise cluster 4 takes the base vacation multiplier and cluster k takes entry k |
| Adjustments.ApplyThresholds | calculate_reimbursement.py:227-253 | `apply_threshold_effects`: four conditional multiplications in source order. ThresholdsAreAProduct shows they equal the amount times ThresholdFactor |
| Adjustments.ThresholdsAreAProduct | calculate_reimbursement.py:227-253 | The four sequential multiplications equal the amount times the product of exactly the multipliers whose conditions hold (5 days, receipts > 660.54, miles/day > 187.01, miles > 473.8) |
| Adjustments.ThresholdsReadOnlyTheirConditions | calculate_reimbursement_optimized.py:216-246 | Two feature records that agree on the four conditions get the same result; high_spending_flag and every other feature have no effect |
| Adjustments.ThresholdsNeverLower | calculate_reimbursement.py:238-251 | With every threshold multiplier at least 1, a non-negative amount is never lowered |
| Adjustments.ApplyRoundingBug | calculate_reimbursement.py:176-185 | `apply_rounding_bug`: when the 49/99 flag is set, adds bug_base_bonus + amount * bug_multiplier. RoundingBugIsAffine and RoundingBugNeverLowers state its properties |
| Adjustments.RoundingBugIsAffine | calculate_reimbursement.py:176-185 | Without the flag the step is the identity; with it the result is amount * (1 + bug_multiplier) + bug_base_bonus |
| Adjustments.RoundingBugNeverLowers | calculate_reimbursement.py:181-184 | With non-negative bug parameters a non-negative amount is never lowered |
| Rounding.Clamp | calculate_reimbursement.py:291 | The result lies in [50, 5000]. It is the input when the input is in range, and the nearer bound otherwise |
| Rounding.ClampIdempotentAndMonotone | calculate_reimbursement.py:291 | Clamping twice is clamping once, and the clamp preserves order |
| Rounding.RoundHalfEven | calculate_reimbursement.py:292 | The result is an integer within 1/2 of the input, and even on ties |
| Rounding.NearestHalfEvenIsUnique | calculate_reimbursement.py:292 | Exactly one integer rounds a value half-to-even |
| Rounding.RoundsToCentsIsUnique | calculate_reimbursement.py:292 | Exactly one whole number of cents rounds a value half-to-even at the cent, so `round(x, 2)` is determined |
| Rounding.RoundToCents | calculate_reimbursement.py:292 | The result is a whole number of cents: the nearest one to the input, with ties to an even number of cents. It is within half a cent of the input and stays in [50, 5000] when the input is there |
| Rounding.RoundToCentsFixesCents | calculate_reimbursement.py:292 | A whole number of cents is left unchanged |
| Rounding.RoundToCentsIdempotent | calculate_reimbursement.py:292 | Rounding to cents twice is rounding once |
| Scorer.BaseReimbursement | calculate_reimbursement.py:187-212 | `calculate_base_reimbursement`: per diem times days, plus the mileage tier, plus the receipts tier of the selected scheme. MileageTier and the receipts-tier members state its parts |
| Scorer.Adjust | calculate_reimbursement.py:262-288 | The stages after the base, with the log bonus corrected to log(receipts + 1): cluster adjustment, thresholds, rounding bug, then the interaction and log bonuses. AdjustClosedForm and LogBonusFollowsReceipts state its form |
| Scorer.AdjustAsWritten | calculate_reimbursement.py:280-288 | The same stages with the log bonus over position 32, log(miles + 1), as the source computes. AsWrittenIgnoresReceiptsLog and LogPositionExample state its behaviour |
| Scorer.PreClamp | calculate_reimbursement.py:259-288 | The amount before the clamp: features, cluster and base, then Adjust or AdjustAsWritten as the log bonus reading selects. OneDayBugScenario states a concrete case for both readings |
| Scorer.Score | calculate_reimbursement.py:255-292 | Succeeds iff days > 0 and miles > -1, failing with the feature step's error otherwise. The value is the clamped pre-clamp amount rounded half-to-even to whole cents, so it lies in [50, 5000] within half a cent of that amount. Holds for either receipts scheme and either log bonus reading |
| Scorer.AdjustClosedForm | calculate_reimbursement_optimized.py:262-281 | The stages after the base compose as: base * cluster multiplier * threshold product, then the bug step, then + interaction + log bonus |
| Scorer.AsWrittenIgnoresReceiptsLog | calculate_reimbursement.py:280-288 | As written, the log bonus reads position 32 (log of miles + 1), so changing log(receipts + 1) never changes the amount |
| Scorer.LogPositionExample | calculate_reimbursement_optimized.py:273-281 | 1 day, 0 miles, 1.00 dollar: as written the bonus takes log(1), as intended log(2); with the default coefficient the two amounts differ whenever the logarithm separates 1 and 2 |
| Scorer.LogBonusFollowsReceipts | calculate_reimbursement.py:285-288 | Corrected: the amount moves by log_bonus_coeff times any change in log(receipts + 1), and log(miles + 1) does not enter it |
| Scorer.LogReadingsAgreeWhenMilesEqualReceipts | calculate_reimbursement.py:280-288 | On a trip whose miles equal its receipts in dollars, the as-written and corrected log bonuses give the same score |
| Scorer.ScoreInRangeIsNearPreClamp | calculate_reimbursement.py:290-292 | When the pre-clamp amount is already in [50, 5000], the score is within half a cent of it |
| Scorer.VariantsAgreeUpTo50Dollars | calculate_reimbursement_optimized.py:192-193 | The two scorer files give the same result on every trip with receipts of at most 50 dollars |
| Scorer.VariantsAgreeAtBakedRates | calculate_reimbursement.py:203-210 | The two scorer files give the same result on every trip when the receipt rates are 0.3, 0.4, 0.3 |
| Scorer.FiveDayTripScenario | calculate_reimbursement.py:227-253 | 5 days, 900 miles, 45.00 dollars: no bug flag, and the threshold product is five_day * miles_threshold |
| Scorer.OneDayBugScenario | calculate_reimbursement.py:255-292 | 1 day, 850 miles, 300.49 dollars: cluster 0 with the bug bonus. The pre-clamp amount is thresholds(base * multiplier 0) * (1 + bug_multiplier) + bug_base_bonus + the interaction bonus + the log bonus, over log(851) as written and log(301.49) corrected |
| Grid.Product | train_parameters.py:115 | `itertools.product` over the ranges. ProductLength, ProductIsAllCombinations and ProductOrder state its length, members and order |
| Grid.ProductLength | train_parameters.py:108-115 | The enumeration has exactly as many entries as the product of the range lengths |
| Grid.ProductIsAllCombinations | train_parameters.py:115 | A tuple is enumerated iff it takes one value from each range, position by position |
| Grid.ProductOrder | train_parameters.py:115 | Entry k of the enumeration is the tuple whose digits are k written in the mixed radix of the range lengths, so the last range varies fastest |
| Grid.GridSize | train_parameters.py:96-110 | The five ranges give 6 * 5 * 5 * 4 * 4 = 2400 combinations |
| Grid.GridStartsAtSmallest | train_parameters.py:96-115 | Entries 0 and 1 are (1.0, 1.02, 1.5, 45, 0.25) and (1.0, 1.02, 1.5, 45, 0.30) |
| Grid.GridEndsAtLargest | train_parameters.py:96-115 | Entry 2399 is (1.5, 1.10, 3.5, 60, 0.40) |
| Grid.TotalCombinations | train_parameters.py:108-110 | The running product of the range lengths equals the number of enumerated tuples |
| Grid.Candidate | train_parameters.py:121-126 | The candidate's five searched entries read back the tuple in order, and every other entry equals the default configuration's |
| Grid.CandidateIsDefaultsElsewhere | train_parameters.py:121-126 | A configuration is the candidate of its own searched values iff it agrees with the defaults everywhere else |
| Grid.CandidateInjective | train_parameters.py:121-126 | Distinct tuples give distinct candidates |
| Evaluation.CaseError | train_parameters.py:37-43 | A case's error is non-negative. It is the penalty 1000 exactly when scoring raises, and otherwise the distance between prediction and target. The prediction is the fixed-offset score with the log bonus as written |
| Evaluation.Errors | train_parameters.py:36-43 | One error per zipped pair, in order; the count is the shorter length |
| Evaluation.EvaluateConfig | train_parameters.py:30-45 | Fails with EmptyDataset iff there are no cases; otherwise the mean error is non-negative |
| Evaluation.EvaluateConfigLoop | train_parameters.py:35-45 | The accumulate-then-divide loop computes the same result as EvaluateConfig |
| Evaluation.MeanBetweenExtremes | train_parameters.py:45 | The mean error lies between any lower and upper bound of the per-case errors |
| Evaluation.MeanZeroIffExact | train_parameters.py:36-45 | The mean error is 0 iff every case is scored without raising and hits its target exactly |
| Evaluation.ExactIffZero | train_parameters.py:38-39 | One case costs 0 iff it is scored and equals its target |
| Evaluation.AllFailingCostsThePenalty | train_parameters.py:41-45 | When no case can be scored the mean is exactly 1000 |
| Search.BestIndex | train_parameters.py:104-134 | The strict-< best-so-far fold returns nothing iff there are no errors, and otherwise the first position holding the minimum |
| Search.BestIndexIff | train_parameters.py:131-134 | The fold returns k iff k is the first position of the minimum |
| Search.BestErrorNonIncreasing | train_parameters.py:131-133 | The best error after more iterations is never larger |
| Search.GridErrors | train_parameters.py:120-129 | Entry k is the mean error of the candidate for the k-th enumerated tuple |
| Search.Optimize | train_parameters.py:104-134 | Empty data gives EmptyDataset and an empty grid gives NoCandidates. Otherwise the result is the first tuple in enumeration order with the minimum mean error, with its candidate configuration and its error |
| Search.OptimizeLoop | train_parameters.py:114-134 | The loop with best_error starting at infinity and a strict < returns the same as Optimize |
| Search.GridSearchSucceeds | train_parameters.py:96-134 | With at least one case the fixed grid always yields a best combination, at position below 2400 |
| HighError.Report | train_parameters.py:53-59 | Case i reports index i, its trip and target, and the case error. Its prediction is the score, or 0 when scoring raises |
| HighError.Reports | train_parameters.py:52-59 | One report per zipped case, in case order |
| HighError.SortByError | train_parameters.py:62 | The sort is a permutation. For input in case order, errors are non-increasing and tied errors keep case order, as a stable reverse sort does |
| HighError.OrderedPermutationUnique | train_parameters.py:62 | Two orderings of the same reports that both respect that order are equal, so the sorted list is determined |
| HighError.HighErrorCases | train_parameters.py:47-63 | Returns min(10, n) reports in that order. Each is a distinct case equal to its own report, and every case left out comes after every case kept |
| HighError.FailingCaseReport | train_parameters.py:58-59 | A case that raises reports error 1000 and prediction 0 |

## Left out

- The command-line `main` functions of both scorer files (argument parsing, printing, exit codes): I/O only.
- The trained k-means branch of `determine_cluster` (calculate_reimbursement.py:171-174): it calls a foreign library and cannot be reached, because `is_trained` is always false.
- `load_training_data`, `generate_optimized_script` and the progress and result printing in `optimize_parameters`: file I/O, source-text rewriting and console output.
  - The printed comparison with the previous high-error cases and the printed improvement are output only.
  - The initial evaluation of the default configuration is represented only by its failure on empty data.
- Floating point is not modelled: all arithmetic is exact over the reals.
  - The base file tests `(r*100) % 100` on the unrounded float (calculate_reimbursement.py:86), which can miss a .49 amount. The optimized file rounds that remainder (calculate_reimbursement_optimized.py:69), which can give 100 for an amount just below a whole dollar. Both files are modelled with the exact test on whole cents, where both agree with cents mod 100.
  - `round(x, 2)` is modelled as half-to-even rounding of the exact value, not of the nearest binary float.
  - `math.log` is the parameter `ln`; its values are not modelled.
- Receipts are whole non-negative cents. Negative or sub-cent receipts cannot be expressed. Durations are integers, as the scorers' command lines parse them.
- The roughly 25 engineered features that never reach the amount (squares, cubes, categories, ratios, productivity): no effect on the score.
- A NaN error in the grid loop (every comparison with it is false) is not modelled; errors are reals.
- Tiers.MileageGrowth: stated for non-negative rates only. The source puts no sign restriction on the rates; for arbitrary rates the mileage is still continuous, and that is not proved here.
- Tiers.ProgressiveReceiptSlope: stated for non-negative rates only. For arbitrary rates, continuity at 50, 500 and 1500 is not proved.
- Tiers.ProgressiveReceiptMonotone: stated for non-negative rates only. With a negative rate the source's subtotal can decrease.
- Tiers.OffsetContinuousAt50: stated for receipts up to 500 dollars only; the breakpoints at 500 and 1500 are not examined for the fixed-offset scheme.

## Findings

| source | as written | input that shows it | evidently intended | confidence | as-written member | corrected member |
|---|---|---|---|---|---|---|
| calculate_reimbursement.py:280 | `log_receipts = features[0][32]`; position 32 of the feature vector is `log_miles_traveled`, because `log_receipts` is position 33. The same line is at calculate_reimbursement_optimized.py:273 | 1 day, 0 miles, 1.00 dollar of receipts: the log bonus uses log(0 + 1) instead of log(1.00 + 1) | the log bonus over log(receipts + 1), as the variable name and its comment say | high; not executed | Scorer.AsWrittenIgnoresReceiptsLog | Scorer.LogBonusFollowsReceipts |

The scorer is stated for both readings; the harness keeps the as-written one because train_parameters.py imports the scorer file unchanged (train_parameters.py:11).
