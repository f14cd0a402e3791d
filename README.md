# Ordinal TDE, modelled in Dafny

This project models the Ordinal Temporal Dictionary Ensemble of aeon
(`OrdinalTDE` and its member classifier `IndividualOrdinalTDE`). It has four
parts:

- **The ensemble search.** It derives a window range and a window step from
  the series length. It enumerates the parameter grid. Then it runs a loop
  that pops one candidate per iteration and fits a member on a 70 %
  subsample. Each member is scored by its leave-one-out mean absolute error
  (MAE), with an early-reject cap of 100. The ensemble keeps a bounded pool
  of the best members, each weighted by `(1 / (1 + |mae|))^4`.
- **The member classifier.** It is a 1-nearest-neighbour classifier over
  word bags, compared by histogram intersection. Leave-one-out prediction
  takes the first best match. Test prediction breaks ties by coin flips.
  For multivariate series, the bags of the selected channels are merged by
  packing the channel index into the low bits of every key.
- **The channel selector.** It keeps the channels whose leave-one-out MAE
  lies within a band above the least MAE. When more than `max_dims`
  channels qualify, it thins them to `max_dims` by a draw without
  replacement.
- **Vote aggregation.** Members cast weighted one-hot votes and the rows are
  normalised. `_predict_proba` spreads every member over every test case.
  `_fit_predict_proba` uses either the members' leave-one-out predictions
  ("loocv") or their predictions on the cases outside their subsample
  ("oob"). A row no member voted on becomes uniform.

The files:

- `common.dfy`: shared helpers: Option and Result, truncation, pop,
  selection by index, ASCII lower-casing.
- `bags.dfy`: word bags and histogram intersection.
- `sfa.dfy`: the symbolic transform, which is a parameter of the model.
- `parameters.dfy`: window step and parameter grid.
- `packing.dfy`: channel packing of keys and merged bags.
- `member.dfy`: the member classifier and channel selection.
- `votes.dfy`: vote arithmetic over `array2` sums.
- `ensemble.dfy`: the ensemble.

The two classes are Dafny classes whose methods update their fields as the
Python methods do. Every modelled loop is a `while` or `for` loop with its
invariants; the loops of `_predict` and `_fit_predict` are left out (see
below). Most methods are proved against a specification function, and
lemmas state the properties of those functions. The search (`SearchStep`,
`Search`, `Fit`, `AdmitMember`, `RecordMember`, `RecordScored`) is proved
instead against invariant predicates: `Searched`, `Tracked` and `KeepsBest`
for the pool and the history, and `Scored` for how every member was scored.

The random generator, the wall clock, the surrogate model and the symbolic
transform are inputs: oracles the caller supplies (`SearchOracles`, coin
flips, samplers, an `SfaTransform` function). Preconditions state what the
model relies on of them:

- indices are in range;
- subsamples are distinct;
- the clock never reads below 0;
- the transform returns one bag per case, with the key shape its
  parameters call for.

All paths below are in `aeon/classification/ordinal_classification/`.

## Model

| member | source | states |
|---|---|---|
| Common.Lower | aeon/classification/ordinal_classification/_ordinal_tde.py:426-436 | `str.lower()` on ASCII: same length, every upper-case letter moved down 32 code points, every other character kept, no upper-case letter left |
| Common.Trunc | aeon/classification/ordinal_classification/_ordinal_tde.py:249 | `int(x)` truncates toward zero: floor for `x >= 0`, ceiling below 0 |
| Common.RemoveAt | aeon/classification/ordinal_classification/_ordinal_tde.py:299-301 | `list.pop(i)` leaves one element fewer, exactly the popped element is missing from the multiset, and the rest keep their order: positions before `i` stay, later ones shift down by one |
| Common.Select | aeon/classification/ordinal_classification/_ordinal_tde.py:315-316 | `X[subsample]`: element k is the case at the k-th index |
| Bags.HistogramIntersection | aeon/classification/ordinal_classification/_ordinal_tde.py:886 | the loop over the first bag's words returns the sum, over shared words, of the smaller count |
| Bags.SimSymmetric | aeon/classification/ordinal_classification/_ordinal_tde.py:968 | similarity does not depend on the argument order |
| Bags.SimSelf | aeon/classification/ordinal_classification/_ordinal_tde.py:968 | a bag's similarity with itself is its total word count |
| Bags.SimBounded | aeon/classification/ordinal_classification/_ordinal_tde.py:886 | similarity is at most either bag's total count, so it is never above a self-match |
| Bags.SimEmpty | aeon/classification/ordinal_classification/_ordinal_tde.py:886 | an empty bag has similarity 0 with every bag |
| ParameterSpace.WindowIncrement | aeon/classification/ordinal_classification/_ordinal_tde.py:248-262 | `win_inc` is at least 1; it is above 1 whenever the window span is at least twice `n_timepoints / 4`, and then it is the truncated quotient of the span by `n_timepoints / 4`, so the value is fixed for every input |
| ParameterSpace.Range | aeon/classification/ordinal_classification/_ordinal_tde.py:478 | `range(start, stop, step)`: element k is `start + k * step`, all below `stop`, and the next step would reach `stop` |
| ParameterSpace.RangeIncreasing | aeon/classification/ordinal_classification/_ordinal_tde.py:478 | the window sizes are strictly increasing, hence distinct |
| ParameterSpace.WindowBlockMembers | aeon/classification/ordinal_classification/_ordinal_tde.py:479-481 | one window's block holds exactly the vectors with that window, that norm flag, a word length in {16, 14, 12, 10, 8}, levels in {1, 2, 3} and igb true |
| ParameterSpace.WindowBlockDistinct | aeon/classification/ordinal_classification/_ordinal_tde.py:479-481 | no vector appears twice within one window's block |
| ParameterSpace.NormBlockFacts | aeon/classification/ordinal_classification/_ordinal_tde.py:477-481 | one norm flag contributes 15 vectors per window, exactly the grid vectors with that flag, distinct when the windows are |
| ParameterSpace.UniqueParametersGrid | aeon/classification/ordinal_classification/_ordinal_tde.py:474-484 | the grid has `2 * len(windows) * 5 * 3` vectors, all distinct, and holds exactly the vectors `[w, l, n, lv, True]` over the windows and option lists of lines 198-201 |
| ParameterSpace.EmptyGridWhenMinAboveMax | aeon/classification/ordinal_classification/_ordinal_tde.py:251-264 | the clamp writes `_min_window`, which the grid never reads, so `min_window > max_window` gives an empty grid |
| Packing.CeilLog2 | aeon/classification/ordinal_classification/_ordinal_tde.py:895 | `ceil(log2 n)` is the least `b` with `n <= 2^b` |
| Packing.ChannelFits | aeon/classification/ordinal_classification/_ordinal_tde.py:895 | every channel index is below `2^highest_dim_bit` |
| Packing.PackIsSum | aeon/classification/ordinal_classification/_ordinal_tde.py:794 | `(word << b) OR dim` equals `word * 2^b + dim` when `dim < 2^b` |
| Packing.LowBitsIsMod | aeon/classification/ordinal_classification/_ordinal_tde.py:794 | masking the low `b` bits is the remainder modulo `2^b` |
| Packing.PackUnpack | aeon/classification/ordinal_classification/_ordinal_tde.py:794 | the low `b` bits of a packed key give back the channel, and shifting right by `b` gives back the word |
| Packing.PackInjective | aeon/classification/ordinal_classification/_ordinal_tde.py:794 | two packed keys are equal only when both word and channel are equal |
| Packing.ChannelKeyTag | aeon/classification/ordinal_classification/_ordinal_tde.py:784-794 | under all three key forms (typed with levels, typed without levels, untyped), the channel can be read back from the merged key |
| Packing.ChannelKeyInjective | aeon/classification/ordinal_classification/_ordinal_tde.py:784-794 | under all three key forms, distinct (word, channel) pairs get distinct merged keys |
| Packing.TaggerInjective | aeon/classification/ordinal_classification/_ordinal_tde.py:784-794 | re-keying one channel's bag never makes two of its words collide |
| Packing.TaggedBag | aeon/classification/ordinal_classification/_ordinal_tde.py:783-794 | a channel's re-keyed bag holds every word's count under its merged key, and holds no other key |
| Packing.TaggedBagExact | aeon/classification/ordinal_classification/_ordinal_tde.py:783-794 | a channel's re-keyed bag covers that channel's words and holds only keys tagged with that channel |
| Packing.MergedBagCovers | aeon/classification/ordinal_classification/_ordinal_tde.py:778-796 | with distinct channels, the merged bag holds every channel's every word with its own count |
| Packing.MergedBagOnlyTagged | aeon/classification/ordinal_classification/_ordinal_tde.py:778-796 | every key of the merged bag is the merged key of some word of some selected channel |
| Member.FirstMaxBest | aeon/classification/ordinal_classification/_ordinal_tde.py:970-972 | the strict `sim > best_sim` scan ends at a largest value, with every earlier value smaller |
| Member.FirstMaxUnique | aeon/classification/ordinal_classification/_ordinal_tde.py:970-972 | the first position of the largest value is the only position with that property |
| Member.LooNeighbour | aeon/classification/ordinal_classification/_ordinal_tde.py:964-966 | the leave-one-out neighbour is another case, never the case itself |
| Member.LooNeighbourBest | aeon/classification/ordinal_classification/_ordinal_tde.py:964-972 | no other case is more similar than the neighbour, and every other case before it is strictly less similar |
| Member.LooNeighbourUnique | aeon/classification/ordinal_classification/_ordinal_tde.py:964-972 | any case that is first-most-similar among the others is the neighbour |
| Member.MinReal | aeon/classification/ordinal_classification/_ordinal_tde.py:938 | `min(maes)` is one of the errors and at most every error |
| Member.Band | aeon/classification/ordinal_classification/_ordinal_tde.py:940-946 | the kept channels are exactly those whose error is at most the limit, in ascending order |
| Member.KeepWithinBand | aeon/classification/ordinal_classification/_ordinal_tde.py:940-946 | the loop keeps exactly the band's channels, each with its own transformer |
| Member.LimitAtLeastMin | aeon/classification/ordinal_classification/_ordinal_tde.py:942-944 | with `dim_threshold <= 1`, the limit `min_mae * (1 + (1 - dim_threshold))` is at least the least error |
| Member.LeastErrorChannelInBand | aeon/classification/ordinal_classification/_ordinal_tde.py:938-946 | with `dim_threshold <= 1`, the first least-error channel is always kept |
| Member.DimSelectionFacts | aeon/classification/ordinal_classification/_ordinal_tde.py:938-954 | the selection has `min(len(band), max_dims)` distinct channels, all in the band; it is the whole band when that fits |
| Member.IndividualOrdinalTde.constructor | aeon/classification/ordinal_classification/_ordinal_tde.py:659-706 | stores the parameters and starts with empty state |
| Member.IndividualOrdinalTde.TrainPredict | aeon/classification/ordinal_classification/_ordinal_tde.py:956-974 | `_train_predict(i)` returns the label of the leave-one-out neighbour, or None when there is no other case |
| Member.IndividualOrdinalTde.TestNn | aeon/classification/ordinal_classification/_ordinal_tde.py:879-892 | `_test_nn`, whatever the coins: None exactly when there are no training bags, otherwise the label of a most similar bag; with no coin coming up, the label of the first most similar bag |
| Member.IndividualOrdinalTde.NearestLabels | aeon/classification/ordinal_classification/_ordinal_tde.py:870-877 | one nearest label per test bag, each one of the training labels |
| Member.IndividualOrdinalTde.MergeChannelInto | aeon/classification/ordinal_classification/_ordinal_tde.py:783-794 | the inner loop adds one channel's words to a case's bag under their merged keys |
| Member.IndividualOrdinalTde.MergedUpToStep | aeon/classification/ordinal_classification/_ordinal_tde.py:778-794 | one more selected channel adds exactly that channel's re-keyed bag |
| Member.IndividualOrdinalTde.MergeChannelWords | aeon/classification/ordinal_classification/_ordinal_tde.py:767-796 | every case's bag is the merge of its selected channels' bags; `_predict` (lines 836-865) calls the same method |
| Member.IndividualOrdinalTde.DimsFit | aeon/classification/ordinal_classification/_ordinal_tde.py:895 | every selected channel fits below `2^highest_dim_bit` |
| Member.IndividualOrdinalTde.LooMae | aeon/classification/ordinal_classification/_ordinal_tde.py:931-935 | a channel's error is the summed leave-one-out error divided by the case count |
| Member.IndividualOrdinalTde.ChannelErrors | aeon/classification/ordinal_classification/_ordinal_tde.py:900-936 | one error per channel, each from that channel's freshly fitted transformer |
| Member.IndividualOrdinalTde.SelectDims | aeon/classification/ordinal_classification/_ordinal_tde.py:894-954 | `_select_dims` sets `highest_dim_bit = ceil(log2 C) + 1` and returns the band-and-thin selection, each channel with its fitted transformer |
| Member.IndividualOrdinalTde.FitChannels | aeon/classification/ordinal_classification/_ordinal_tde.py:764-796 | multivariate fit: selected channels, equally many transformers, merged bags for every case |
| Member.IndividualOrdinalTde.FitSingle | aeon/classification/ordinal_classification/_ordinal_tde.py:797-818 | univariate fit: appends a transformer, fits the first one, and stores its bags |
| Member.IndividualOrdinalTde.Fit | aeon/classification/ordinal_classification/_ordinal_tde.py:740-818 | sets the shape and labels, then fits either branch as above; the subsample, train predictions and error are untouched |
| Member.IndividualOrdinalTde.Predict | aeon/classification/ordinal_classification/_ordinal_tde.py:820-877 | builds test bags exactly as `_fit` builds training bags, then gives every case a nearest training label; the first such label when no coin comes up |
| Ensemble.Worst | aeon/classification/ordinal_classification/_ordinal_tde.py:463-472 | the worst MAE is at least every MAE; when positive, its index is the first position holding it; otherwise it is `(0.0, 0)` |
| Ensemble.WorstAppend | aeon/classification/ordinal_classification/_ordinal_tde.py:345-350 | during filling, the running worst moves to the new member exactly when its MAE is strictly larger |
| Ensemble.OrdinalTde.WorstEnsembleMae | aeon/classification/ordinal_classification/_ordinal_tde.py:463-472 | the loop returns the running worst of the pool's MAEs |
| Ensemble.MemberWeightBounds | aeon/classification/ordinal_classification/_ordinal_tde.py:339-343 | the weight is `(1 / (1 + abs(mae)))^4` and lies in (0, 1]; `w >= 0` always holds, so the `1e-9` branch never runs |
| Ensemble.MemberWeightDecreasing | aeon/classification/ordinal_classification/_ordinal_tde.py:339-343 | for MAE at least 0, the weight strictly decreases as the MAE grows, and MAE 0 has weight 1 |
| Ensemble.PowMonotone | aeon/classification/ordinal_classification/_ordinal_tde.py:341 | `math.pow(w, n)` is strictly increasing in positive `w` |
| Ensemble.LooStep | aeon/classification/ordinal_classification/_ordinal_tde.py:503-509 | one iteration adds `abs(y[i] - c)` to the error and appends `c`, the label of case i's leave-one-out neighbour |
| Ensemble.LooErrorSumIsAbsErrorSum | aeon/classification/ordinal_classification/_ordinal_tde.py:503-509 | the accumulated error is the summed absolute difference between labels and leave-one-out predictions |
| Ensemble.AbsErrorSumZero | aeon/classification/ordinal_classification/_ordinal_tde.py:506 | summed absolute error is 0 exactly when every prediction equals its label |
| Ensemble.LooErrorSumZero | aeon/classification/ordinal_classification/_ordinal_tde.py:503-509 | the leave-one-out error is 0 exactly when every leave-one-out prediction is right |
| Ensemble.TrainMaeZero | aeon/classification/ordinal_classification/_ordinal_tde.py:511 | the MAE is at least 0, and is 0 exactly when every leave-one-out prediction is right |
| Ensemble.CappedFacts | aeon/classification/ordinal_classification/_ordinal_tde.py:511-514 | the MAE is kept exactly when it is at most the threshold (or is 100); otherwise it becomes 100; the result stays in [0, 100] |
| Ensemble.OrdinalTde.LooErrorTotal | aeon/classification/ordinal_classification/_ordinal_tde.py:502-509 | the sequential loop returns the leave-one-out error sum; with `keep_train_preds` it appends exactly `train_size` predictions in case order, otherwise none |
| Ensemble.OrdinalTde.IndividualTrainMae | aeon/classification/ordinal_classification/_ordinal_tde.py:486-514 | `_individual_train_mae` returns the capped leave-one-out MAE and appends the same predictions |
| Ensemble.SubsampleSize | aeon/classification/ordinal_classification/_ordinal_tde.py:266 | `int(n * 0.7)` is at most n, and at least 2 once n >= 3 |
| Ensemble.OrdinalTde.constructor | aeon/classification/ordinal_classification/_ordinal_tde.py:156-206 | stores the parameters and starts with an empty pool, no weights and no history |
| Ensemble.OrdinalTde.GridDistinct | aeon/classification/ordinal_classification/_ordinal_tde.py:264 | the candidate grid built by `_fit` has no repeated vector |
| Ensemble.OrdinalTde.Searching | aeon/classification/ordinal_classification/_ordinal_tde.py:270-297 | the loop condition: with no time limit, it runs while fewer than `n_parameter_samples` members were fitted; with a limit, it continues only while the elapsed time is below the limit and, when a contract cap is set, fewer than the cap were fitted, and it stops only for one of those reasons or an empty pool; never with an empty pool |
| Ensemble.OrdinalTde.CandidateIndex | aeon/classification/ordinal_classification/_ordinal_tde.py:298-312 | random and surrogate picks both index the remaining pool |
| Ensemble.OrdinalTde.NewMember | aeon/classification/ordinal_classification/_ordinal_tde.py:318-328 | a fresh member with the candidate's parameters, alphabet 4, the bigram choice of lines 282-288, fitted on the subsample |
| Ensemble.OrdinalTde.ScoreMember | aeon/classification/ordinal_classification/_ordinal_tde.py:331-337 | the member's MAE is its capped leave-one-out MAE on its own subsample, in [0, 100], with its kept predictions |
| Ensemble.OrdinalTde.FitMember | aeon/classification/ordinal_classification/_ordinal_tde.py:314-337 | subsample, fit and score: the member keeps the subsample, its labels are the subsample's labels, and its error is the leave-one-out MAE over the whole subsample, 100 when above the threshold; its leave-one-out predictions are kept exactly when asked |
| Ensemble.AdmitScored | aeon/classification/ordinal_classification/_ordinal_tde.py:331-355 | a member scored against 100 while the pool fills, or against the running worst once it is full, is admitted only when its error is the one it has against 100, so every member of the pool stays scored as against 100 |
| Ensemble.OrdinalTde.WorstWithinCap | aeon/classification/ordinal_classification/_ordinal_tde.py:335 | the running worst, the threshold once the pool is full, is at most 100 |
| Ensemble.Admit | aeon/classification/ordinal_classification/_ordinal_tde.py:345-354 | a non-full pool appends; a full pool overwrites only the worst slot, and only when the new MAE is strictly lower; a full pool that rejects the candidate is returned unchanged |
| Ensemble.OrdinalTde.UpdatePool | aeon/classification/ordinal_classification/_ordinal_tde.py:345-355 | members and weights are admitted together, and the new running worst is the worst of the admitted MAEs |
| Ensemble.AdmitReady | aeon/classification/ordinal_classification/_ordinal_tde.py:345-355 | admission keeps every member fitted and weighted by its MAE; the pool's MAEs and parameters are admitted alike |
| Ensemble.HistoryStep | aeon/classification/ordinal_classification/_ordinal_tde.py:299-312 | popping a candidate into the history keeps history plus pool a rearrangement of the grid |
| Ensemble.TrackedAppend | aeon/classification/ordinal_classification/_ordinal_tde.py:345-350 | filling keeps the worst-member bookkeeping and the history slots consistent |
| Ensemble.TrackedReplace | aeon/classification/ordinal_classification/_ordinal_tde.py:351-355 | replacing the worst member keeps them consistent and never raises the worst MAE |
| Ensemble.TrackedReject | aeon/classification/ordinal_classification/_ordinal_tde.py:351-352 | a full pool rejecting a member that is no better changes nothing but the history |
| Ensemble.TrackedStep | aeon/classification/ordinal_classification/_ordinal_tde.py:345-358 | every iteration keeps the pool size `min(num, max_ensemble_size)` and the running worst equal to `_worst_ensemble_mae()` |
| Ensemble.TrackedKeepsBest | aeon/classification/ordinal_classification/_ordinal_tde.py:345-358 | every member is a distinct history entry with that entry's candidate and MAE, and every history entry left out has an MAE no lower than any member's |
| Ensemble.SearchStateStep | aeon/classification/ordinal_classification/_ordinal_tde.py:298-360 | one iteration of the loop keeps the whole search invariant |
| Ensemble.SearchOutcome | aeon/classification/ordinal_classification/_ordinal_tde.py:291-364 | history plus pool is the grid; no vector is evaluated twice; both history lists have equal length; the pool has `min(num, max_ensemble_size)` members and keeps the best |
| Ensemble.OrdinalTde.AdmitMember | aeon/classification/ordinal_classification/_ordinal_tde.py:345-358 | pool, MAEs and parameters are admitted; the running worst is recomputed; both history lists grow by this candidate |
| Ensemble.OrdinalTde.RecordMember | aeon/classification/ordinal_classification/_ordinal_tde.py:345-358 | recording a scored member keeps the search invariant with the candidate removed from the pool |
| Ensemble.OrdinalTde.RecordScored | aeon/classification/ordinal_classification/_ordinal_tde.py:345-358 | recording a member scored as the search scores it keeps every pool member scored as against 100, on top of the search invariant |
| Ensemble.OrdinalTde.SearchStep | aeon/classification/ordinal_classification/_ordinal_tde.py:298-361 | one iteration pops the picked candidate and fits a member on the oracle's subsample; the error appended to the history is that member's leave-one-out MAE capped against 100 while the pool is not full and against the running worst once it is; the invariant and the scoring of every member are kept |
| Ensemble.OrdinalTde.Search | aeon/classification/ordinal_classification/_ordinal_tde.py:264-361 | the loop ends with distinct history drawn from the grid, `min(n_parameter_samples, len(grid))` iterations without a time limit, at most the cap with one, a pool of `min(num, max_ensemble_size)` members, the best kept, and every member fitted on its subsample's labels with its leave-one-out MAE capped at 100, never at the running worst, and, when asked, its kept predictions |
| Ensemble.OrdinalTde.Fit | aeon/classification/ordinal_classification/_ordinal_tde.py:208-366 | `_fit` records the shape and classes, resets and runs the search, and ends fitted with the above guarantees, including how every member was scored |
| Ensemble.OrdinalTde.Summarise | aeon/classification/ordinal_classification/_ordinal_tde.py:363-364 | `n_estimators_` is the pool size and `_weight_sum` the sum of the weights |
| Ensemble.SumPositive | aeon/classification/ordinal_classification/_ordinal_tde.py:364 | a sum of positive weights is 0 exactly for no weights |
| Ensemble.OrdinalTde.WeightSumPositive | aeon/classification/ordinal_classification/_ordinal_tde.py:339-364 | in a fitted ensemble every weight is positive, and `_weight_sum` is 0 exactly when the pool is empty |
| Ensemble.OrdinalTde.PredictAll | aeon/classification/ordinal_classification/_ordinal_tde.py:404-405 | one prediction list per member, each a possible outcome of that member's `predict(X)` |
| Ensemble.OrdinalTde.PredictionsKnown | aeon/classification/ordinal_classification/_ordinal_tde.py:405-407 | a member predicts one known class per case, so `_class_dictionary` lookups succeed |
| Ensemble.OrdinalTde.PredictProba | aeon/classification/ordinal_classification/_ordinal_tde.py:389-409 | the sums are each member's weight added to one class cell per case, divided by `_weight_sum`; every row is a distribution; no result (NaN) exactly when the pool is empty |
| Ensemble.OutOfBag | aeon/classification/ordinal_classification/_ordinal_tde.py:437-439 | the out-of-bag list holds exactly the cases outside the subsample, in ascending order |
| Ensemble.OrdinalTde.LooWeighable | aeon/classification/ordinal_classification/_ordinal_tde.py:426-435 | every member's kept leave-one-out predictions vote on cases of its subsample, with known classes |
| Ensemble.OrdinalTde.OobBallots | aeon/classification/ordinal_classification/_ordinal_tde.py:436-448 | every member predicts its out-of-bag cases; a member with none is skipped and casts no vote |
| Ensemble.OrdinalTde.TrainProba | aeon/classification/ordinal_classification/_ordinal_tde.py:423-459 | loocv and oob (any letter case) give weighted-vote rows, each a distribution; any other method is an error; every case a member voted on has a positive divisor, and out of bag every member votes on all cases outside its subsample |
| Ensemble.OrdinalTde.Covered | aeon/classification/ordinal_classification/_ordinal_tde.py:427-435 | every member weighs more than 0, so every case a member voted on has a positive divisor |
| Ensemble.OrdinalTde.OobComplete | aeon/classification/ordinal_classification/_ordinal_tde.py:437-448 | out of bag, a member predicts every case outside its subsample |
| Ensemble.OrdinalTde.FitPredictProba | aeon/classification/ordinal_classification/_ordinal_tde.py:420-461 | `_fit_predict_proba` fits with kept predictions and then estimates; an unknown method errors only after the fit; every member kept the leave-one-out predictions of its whole subsample, so every case in some member's subsample (loocv) or outside it (oob) has a positive divisor and is never given the uniform row |
| Votes.CastVotes | aeon/classification/ordinal_classification/_ordinal_tde.py:406-407 | one member's loop adds its weight to the predicted class cell of every case |
| Votes.CastPool | aeon/classification/ordinal_classification/_ordinal_tde.py:402-407 | the sums are the tally of every member's votes over every case, starting from zeros |
| Votes.VoteProba | aeon/classification/ordinal_classification/_ordinal_tde.py:402-409 | the sums divided by the weight sum; no result when that sum is 0; otherwise every row is a distribution |
| Votes.EveryCaseDistributions | aeon/classification/ordinal_classification/_ordinal_tde.py:402-409 | every row of the sums adds up to the weight sum, so each divided row sums to 1 |
| Votes.CastKeepsBalance | aeon/classification/ordinal_classification/_ordinal_tde.py:432-435 | adding a vote's weight to one cell and to that case's divisor keeps every row sum equal to its divisor |
| Votes.TallyConcat | aeon/classification/ordinal_classification/_ordinal_tde.py:427-434 | casting two batches of votes in turn equals casting them together |
| Votes.WeighConcat | aeon/classification/ordinal_classification/_ordinal_tde.py:427-435 | the same holds for the divisors |
| Votes.CastWeighedVotes | aeon/classification/ordinal_classification/_ordinal_tde.py:431-435 | one member's loop adds its weight to a class cell and to the divisor of each of its target cases |
| Votes.CastWeighedPool | aeon/classification/ordinal_classification/_ordinal_tde.py:427-448 | results and divisors are the tally of all members' votes |
| Votes.NormaliseRows | aeon/classification/ordinal_classification/_ordinal_tde.py:454-459 | every row with divisor 0 becomes uniform `1 / n_classes`; every other row is divided by its divisor |
| Votes.NormalisedDistributions | aeon/classification/ordinal_classification/_ordinal_tde.py:454-459 | with balanced rows and non-negative weights, every normalised row is a distribution |
| Votes.WeighedDistributions | aeon/classification/ordinal_classification/_ordinal_tde.py:423-459 | every train-estimate row is a distribution, and a case whose divisor is 0 gets the uniform row |
| Votes.WeighGrows | aeon/classification/ordinal_classification/_ordinal_tde.py:432-435 | with no negative weight, casting votes never lowers a divisor |
| Votes.WeighReached | aeon/classification/ordinal_classification/_ordinal_tde.py:432-435 | with no negative weight, a vote's case ends with at least the vote's weight added |
| Votes.PoolVoteCast | aeon/classification/ordinal_classification/_ordinal_tde.py:427-435 | every member's vote on each of its cases is one of the pool's votes |
| Votes.CastDivisorPositive | aeon/classification/ordinal_classification/_ordinal_tde.py:427-459 | a case some member of positive weight voted on ends with a positive divisor |
| Votes.WeighedProba | aeon/classification/ordinal_classification/_ordinal_tde.py:423-459 | zero arrays, casting and normalising give the weighted-vote rows, each a distribution |

## Left out

- The symbolic transform (SFA) is a function parameter of the model. Its
  construction, fitting and word extraction are not part of this model. The
  model keeps only one fact about a fitted transformer: the parameters,
  cases and labels it was fitted with.
- `histogram_intersection` comes from `aeon/classification/dictionary_based/_tde.py`,
  which is not part of this model. It is defined here as the sum, over the
  words of the first bag, of the smaller of the two counts.
- The KernelRidge/StandardScaler surrogate (lines 303-312) is an oracle that
  picks a position of the remaining pool. It is foreign floating-point
  regression.
- The random generator is replaced by caller-supplied oracles. This covers
  `randint`, `choice` and `random`, and the tie-breaking `rng.choice` in
  `_predict`/`_fit_predict`. Seeding and reproducibility are not modelled.
- The wall clock is an oracle `elapsed(k)`. Seconds and `time.time()` are
  not modelled.
- joblib `Parallel`: only the sequential branch of `_individual_train_mae`
  is modelled (it gives the same case-ordered results), and `_predict`
  predicts one case after another.
- `_predict` and `_fit_predict` (lines 368-387 and 411-418) are left out.
  They are an argmax with a random tie-break over the rows above.
- numba typed `Dict`, the pickling shim (`__getstate__`/`__setstate__`),
  the `NUMBA_DISABLE_JIT` switch, warnings, `get_test_params`, and the
  `BaseClassifier` plumbing behind `classes_`, `n_classes_` and
  `_class_dictionary` are left out. Classes are a sequence, and a class
  index is its first position in it.
- Floating point: MAEs, weights and probabilities are exact reals. `int()`
  is truncation, and `math.log2` with `ceil` is an integer ceiling log.
- Ensemble.SubsampleSize: truncates the exact product `n * 7/10`, while the
  source truncates the double product `n * 0.7`. The two differ by one for
  some n: the double `90 * 0.7` is `62.99999999999999`, so the source fits
  every member on 62 cases where the model uses 63. Below 400 this happens
  for n = 90, 170, 180, 330, 340, 350 and 360.
- ParameterSpace.MaxWindow: truncates the exact product
  `n_timepoints * max_win_len_prop`. The default proportion 1 gives the
  same value, but a non-default proportion whose double product falls just
  below a whole number gives one less in the source.
- Ensemble.OrdinalTde.CandidateIndex: with `randomly_selected_params == 0`,
  the first iteration fits `StandardScaler` on an empty history (lines
  303-304), which raises `ValueError` in the source. The model lets the
  surrogate oracle pick a candidate anyway, so `Fit` does not model that
  error.
- Ensemble.OrdinalTde.PredictProba: for an empty pool, `_predict_proba`
  divides by a zero weight sum and yields NaN rows. The model returns None.
- Ensemble.OrdinalTde.PredictProba: all members' predictions are collected
  before any vote is cast, not interleaved member by member. Predicting
  touches no sums, so the sums are the same.
- Ensemble.OrdinalTde.Fit: requires at least 3 cases. Below that, the 70 %
  subsample holds fewer than 2 cases and the source fails inside the first
  iteration (no leave-one-out neighbour, or a division by a zero
  `train_size`).
- Member.IndividualOrdinalTde.Fit: requires 2 cases for multivariate input
  for the same reason, at line 933.
- Common.Lower: lower-cases ASCII letters only, not the full Unicode rules
  of `str.lower()`.
- Ensemble.OrdinalTde.TrainProba: states that `ValueError` is raised as an
  `Err` result. The message text is not modelled.
- `aeon/transformations/_legacy/adapt.py` and
  `aeon/base/tests/test_base_collection.py` are context around other
  components and are not modelled.
