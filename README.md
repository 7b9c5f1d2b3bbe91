# Episodic engine of the few-shot template, in Dafny

This project models `MetaTemplate`, the base class that every few-shot algorithm of the
repository extends (`methods/meta_template.py`). It covers the bookkeeping that does not
depend on a particular algorithm:

- the episode-shape state `n_way`, `n_support`, `n_query`, refreshed batch by batch in
  `train_loop` and `test_loop` (class `MetaTemplates.MetaTemplate`);
- `parse_feature`, which flattens an episode, embeds it example by example and cuts every
  class row at `n_support` into support and query (`Episodes`);
- the canonical labels `np.repeat(range(n_way), n)` and the two correctness counters,
  `correct` (top-1 through `topk`) and `correct_rn` (`argmax`) (`Scoring`);
- `test_loop`'s accumulation of one percentage per episode, including its reuse of the
  previous count on list-shaped (multi-modal) episodes, and the mean and variance of the
  list (`Evaluation`);
- the mini-batch index arithmetic of `set_forward_adaptation` (`Adaptation`) and its
  `is_feature` assertion;
- the type check of `correlation` (`Correlation`).

Scores are integers. Each tensor is a `Grid`: one row per class, with the trailing
dimensions folded into one element. Python exceptions are values of `Failures.Error`
returned in a `Result`. The collaborators the engine only calls are parameters:

- the backbone is `Backbone.embed` per example, and `Backbone.embedModalities` for the
  modalities of a list-shaped batch;
- the algorithm's `set_forward` is `setForward(shape, batch)`;
- `torch.topk(1)` is `top1`, which is known only to return some index of a largest
  score (`Scoring.IsTopK`);
- `np.random.permutation` is the sequence `perms` with one permutation per epoch.

A list-shaped batch with no modality cannot be parsed (a shape error in `Episodes.ParseFeature`);
the loops never get that far with one, since reading its sizes fails first (`IndexError`).

`torch.argmax` is written out as `Scoring.ArgMax`, which returns the first index of a maximum.

The evaluation loop follows the code, not the usual description of it. Only single-tensor
episodes are counted. A list-shaped episode appends the percentage of the previous count
again, and a non-empty list-shaped first episode fails (`UnboundLocal`) because there is no
previous count; an empty one fails earlier, reading `x[0]` (`IndexError`).

## Model

| member | source | states |
|---|---|---|
| `Episodes.SplitAt` | methods/meta_template.py:53-54 | every row is cut at `n_support` (clamped): the support part has `min(n_support, len)` items and support followed by query is the original row |
| `Episodes.EmbedAll` | methods/meta_template.py:50-51 | the backbone output of a flattened single-tensor batch has one embedding per example, entry `k` being the backbone applied to example `k` |
| `Episodes.EmbedModalities` | methods/meta_template.py:49-51 | the backbone output of a list-shaped batch has one embedding per example, entry `k` being the backbone applied to example `k` of every modality |
| `Episodes.ParseFeature` | methods/meta_template.py:41-56 | succeeds exactly when the batch is already a feature tensor, or when class count and per-class count are positive and the flattened example count is their product (for every modality of a non-empty list of modalities); a list-shaped feature batch is a `TypeError`, any other failure a shape error |
| `Episodes.ParseFeatureLayout` | methods/meta_template.py:50-54 | for a single-tensor batch and every class `i`, its support row followed by its query row is exactly the embedding of the `i`-th block of `n_support + n_query` flattened examples, so support items come first and query items right after them |
| `Episodes.ParseModalitiesLayout` | methods/meta_template.py:49-54 | for a list-shaped batch and every class `i`, every modality holds `n_way*(n_support + n_query)` examples, and class `i`'s support row followed by its query row is exactly the `i`-th block of `n_support + n_query` examples embedded across the modalities |
| `Episodes.ParseFeatureShapes` | methods/meta_template.py:52-54 | a parsed batch has `n_way` support and query rows; each support row holds `min(n_support, n_support + n_query)` items and each row pair `n_support + n_query`; with `n_query >= 0` every support row holds `n_support` items and every query row `n_query` |
| `Episodes.CanonicalLabels` | methods/meta_template.py:60 | `np.repeat(range(n), k)` has `n*k` labels |
| `Episodes.CanonicalLabelAt` | methods/meta_template.py:60 | position `i` of the labels holds `i / k` |
| `Episodes.CanonicalLabelsExample` | methods/meta_template.py:80 | for three classes and two queries the labels are `[0,0,1,1,2,2]` |
| `Episodes.Labels` | methods/meta_template.py:60 | a negative repeat count fails (`NegativeRepeat`), a non-positive class count gives no labels, otherwise there are `n_way*n_query` labels |
| `Scoring.ArgMax` | methods/meta_template.py:74 | the result indexes a largest score and every earlier score is strictly smaller (first maximum) |
| `Scoring.Top1IsArgMax` | methods/meta_template.py:62-74 | without a tie at the top, any top-1 index equals the argmax |
| `Scoring.Matches` | methods/meta_template.py:64 | the result is the number of positions where prediction and label agree; it is at most the length, and equals it exactly when predictions and labels coincide |
| `Scoring.MatchesCanonical` | methods/meta_template.py:60-64 | against the canonical labels, the number of agreements is the number of queries `i` whose prediction is `i / n_query` |
| `Scoring.Correct` | methods/meta_template.py:58-65 | succeeds exactly when `n_query >= 0`, no score row is empty and there is one row per label; then `total = max(n_way, 0)*n_query` rows and `correct` is the number of queries `i` whose top-1 index is `i / n_query`, so `0 <= correct <= total`; a negative `n_query` fails first |
| `Scoring.CorrectRn` | methods/meta_template.py:69-84 | the same success condition and `total` as `correct`; `correct` is the number of queries `i` whose argmax is `i / n_query`; an empty score row fails before the labels are built |
| `Scoring.CorrectAllExactly` | methods/meta_template.py:58-65 | a count is all-correct exactly when query `i`'s top-1 class is `i / n_query` for every `i` |
| `Scoring.CountersAgreeWithoutTies` | methods/meta_template.py:58-84 | when `topk(1)` returns an index of a largest score and no score row is empty or has a tie at the top, `correct` and `correct_rn` return the same result, errors included |
| `Scoring.Percent` | methods/meta_template.py:144 | the percentage lies in [0, 100] and is 100 exactly when every query is correct |
| `Evaluation.Refresh` | methods/meta_template.py:104-111 | fails (`IndexError`) only on an empty modality list; otherwise `n_support` is kept, `n_support + n_query` equals the batch's per-class count, and `n_way` becomes the class count only when `change_way` is set |
| `Evaluation.RefreshAll` | methods/meta_template.py:103-111 | `train_loop`'s refresh over the batches fails, always with `IndexError`, exactly when some batch is an empty modality list |
| `Evaluation.RefreshedShapeParses` | methods/meta_template.py:41-56 | on a well-formed tensor (every row holding `size(1)` items) the refreshed shape always exists, and `parse_feature` accepts the tensor under it exactly when it has classes and items per class and, with `change_way` off, the kept `n_way` equals its class count |
| `Evaluation.RefreshAllFinalShape` | methods/meta_template.py:103-111 | after a pass, `n_query` comes from the last batch, `n_way` too when `change_way` is set (otherwise it is the initial one), and `n_support` is unchanged |
| `Evaluation.RefreshAllKeeps` | methods/meta_template.py:103-111 | no pass changes `n_support`, and none changes `n_way` when `change_way` is off |
| `Evaluation.Score` | methods/meta_template.py:140-143 | the counter chosen by `is_rn` succeeds exactly when `n_query >= 0`, no score row is empty and there are `max(n_way, 0)*n_query` rows; then `total` is the number of score rows and `correct` the number of queries `i` predicted as `i / n_query`, by top-1 or by argmax as `is_rn` says |
| `Evaluation.ScoreIgnoresCounter` | methods/meta_template.py:140-143 | when `topk(1)` returns an index of a largest score and no row has a tie at the top, the result does not depend on `is_rn` |
| `Evaluation.Record` | methods/meta_template.py:144 | the append fails with `UnboundLocal` when no count exists yet and with `ZeroDivision` on an empty count, appending nothing; otherwise it appends exactly the count's percentage, which lies in [0, 100], and changes nothing else |
| `Evaluation.EvalStep` | methods/meta_template.py:130-144 | one iteration moves to the refreshed shape (an empty modality list fails with `IndexError` and keeps the shape); a single-tensor episode's count becomes its `Score` under the new shape, a list-shaped one keeps the previous count; the iteration succeeds exactly when the refresh succeeds and that count exists and is non-empty; otherwise the failure is the counter's own error, `UnboundLocal` for a list-shaped episode with no count yet, or `ZeroDivision` for an empty count; a success appends exactly one entry, the percentage of that count, and a failure appends nothing |
| `Evaluation.Evaluate` | methods/meta_template.py:130-144 | the loop stops at the first failure (a failed run is returned unchanged), only appends to `acc_all`, never changes `n_support`, and changes `n_way` only under `change_way` |
| `Evaluation.EvaluateEntries` | methods/meta_template.py:130-144 | the loop only appends; without failure it appends one entry per episode, each in [0, 100]; a list-shaped episode's entry equals the entry before it |
| `Evaluation.TestLoopEntries` | methods/meta_template.py:124-144 | from the start of `test_loop`, without failure, `acc_all` has one entry per episode, each in [0, 100]; entry `k` of a single-tensor episode is the percentage of that episode's `Score` under the shape refreshed over episodes `0..k`; a list-shaped episode repeats the previous entry; the final shape is the one `train_loop`'s refresh reaches |
| `Evaluation.EvaluateShape` | methods/meta_template.py:130-139 | without failure, the loop ends in the shape that refreshing over the same episodes gives |
| `Evaluation.SingleEntryAt` | methods/meta_template.py:130-144 | without failure, from any run, the entry appended for the single-tensor episode at position `k` is the percentage of its `Score` under the shape refreshed over episodes `0..k` |
| `Evaluation.RepeatAt` | methods/meta_template.py:131-144 | without failure, from a consistent run, the entry of a list-shaped episode equals the entry before it |
| `Evaluation.FirstListEpisodeFails` | methods/meta_template.py:131-144 | a non-empty list-shaped first episode fails with `UnboundLocal` because no count exists yet; an empty one fails with the `IndexError` of `x[0]` |
| `Evaluation.Mean` | methods/meta_template.py:147 | `np.mean` is undefined (NaN) exactly for an empty list; otherwise the mean times the number of entries is their sum |
| `Evaluation.Variance` | methods/meta_template.py:148 | the variance whose square root `np.std` takes is undefined exactly for an empty list and otherwise non-negative |
| `Evaluation.VarianceZeroIffConstant` | methods/meta_template.py:146-149 | the variance (so the reported standard deviation) of a non-empty list is zero exactly when all entries are equal |
| `Evaluation.MeanBounds` | methods/meta_template.py:147 | the mean of entries in [lo, hi] lies in [lo, hi] |
| `Evaluation.ConstantAccuracies` | methods/meta_template.py:146-149 | in exact arithmetic, equal entries give that mean and zero variance, so the standard deviation and the 95% half-width are zero |
| `Adaptation.MiniBatches` | methods/meta_template.py:176-184 | the epoch's batches are `rand_id[4k : min(4k+4, support_size)]` for `k` below `ceil(support_size / 4)`, the chunking of the permutation |
| `Adaptation.EpochVisitsEachOnce` | methods/meta_template.py:178-184 | over a permutation every mini-batch is non-empty with at most 4 indices, and together they visit each support index exactly once and nothing else |
| `Correlation.CorrelationInputs` | methods/meta_template.py:86-97 | any type other than `"pearson"` fails with `UnsupportedCorrelation`; otherwise the predicted side is the flattened predictions |
| `Correlation.ObservedAreQueryTargets` | methods/meta_template.py:88 | the observed side lists the query targets class by class: entry `i*q+j` is `y[i][n_support+j]` |
| `MetaTemplates.MetaTemplate.constructor` | methods/meta_template.py:13-22 | the engine starts with the given `n_way` and `n_support` and `n_query = -1` |
| `MetaTemplates.MetaTemplate.RefreshShape` | methods/meta_template.py:104-111 | the fields become the refreshed shape; an empty modality list leaves them alone; `n_support` never changes |
| `MetaTemplates.MetaTemplate.TrainLoop` | methods/meta_template.py:99-111 | the fields after the epoch and the failure that ended it, if any, are those of refreshing batch by batch |
| `MetaTemplates.MetaTemplate.TestLoop` | methods/meta_template.py:124-154 | fields, failure and per-episode percentages are those of `Evaluation.Evaluate`; the summary holds their mean and variance |
| `MetaTemplates.MetaTemplate.SetForwardAdaptation` | methods/meta_template.py:156-188 | fails with `FeatureNotFixed` when `is_feature` is false; otherwise succeeds exactly when the batch is a single tensor and the flattened support and query hold `n_way*n_support > 0` and `n_way*n_query > 0` examples; support label `i` is `i / n_support`; each of the 100 epochs chunks its permutation into batches of 1 to 4 indices that visit every support index exactly once |

## Left out

- Device selection, `Variable`, `.cuda()` and `.to(device)`: runtime placement with no logical content (the unconditional `.cuda()` calls in the adaptation are not modelled).
- The backbone's forward pass (`forward`, `self.feature.forward`) and the abstract `set_forward`/`set_forward_loss`: they are parameters (`Backbone`, `setForward`); the loss of `train_loop` is not modelled, and neither are failures inside the algorithm.
- The linear classifier, SGD with momentum, cross-entropy and the query scores of `set_forward_adaptation`: floating-point optimisation; only the flattening, the support labels and the mini-batch indices are modelled, and `z_support[selected_id]` is left to the caller of the plan.
- `pearson_corr` and the correlation value: numerics from a module that is not part of this model; `Correlation.CorrelationInputs` returns the two flattened sequences it would receive.
- `np.std`'s square root, the `1.96*std/sqrt(n)` half-width, the `return_std` selector and the summary print: square roots and output; the model reports the variance whose square root `np.std` is.
- `np.random.permutation`: randomness; the permutations are the input `perms`.
- Backpropagation, optimizer steps, the running loss, progress printing and wandb logging in `train_loop`: side effects and reporting.
- Trailing tensor dimensions: each example is one element, so a `view` that would redistribute feature values across rows is a shape error in the model.
- `Scoring.Correct` and `Scoring.CorrectRn` treat every length mismatch between predictions and labels as a shape error: numpy's broadcasting of a length-1 side and its version-dependent answer to other mismatches are not modelled.
- The backbone on a list-shaped batch is modelled example by example over the modalities.
- Evaluation.ConstantAccuracies, Scoring.Percent, Evaluation.Mean and Evaluation.Variance use exact real arithmetic: the float64 rounding of `correct_this / count_this * 100`, `np.mean` and `np.std` is not modelled, so a zero standard deviation for equal entries is promised only in exact arithmetic (float64 gives it exactly when the sums involved are exact, as for entries all 100.0).
