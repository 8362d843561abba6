# Perceptron — a verified model of `PerceptronManual`

The repository's one hand-written algorithm is `PerceptronManual`. It is an online
perceptron for binary classification:

- The constructor stores a learning rate and an epoch count. It leaves the weight
  vector and the bias unset (`None`).
- `fit` resets the weights to zeros and the bias to 0. It then runs `n_iters`
  epochs. Each epoch visits the samples in index order and applies the
  perceptron rule in place:
  - `w += lr·(y_i − ŷ_i)·x_i`
  - `b += lr·(y_i − ŷ_i)`
  Here `ŷ_i` is the step activation of `x_i·w + b`.
- `predict` applies that score and the step to every row.

`perceptron.dfy` (module `Perceptron`) has three layers:

- **Pure specification.** The data is `Params(weights, bias)`. The pure
  functions are:
  - `UnitStep`;
  - `Predicted`;
  - `Error`;
  - `UpdateStep`, one application of the rule;
  - `EpochFrom` and `Epoch`, a fold of the rule over the samples in index order;
  - `Epochs` and `Train`, a fold of epochs starting from the zero state.

  Beside these sits an independent reference, `Run`. It folds the rule over an
  explicit list of sample indices, `Schedule`.
- **The object.** `PerceptronManual` is a class. Its `weights` and `bias` are
  `Option` fields that `Fit` overwrites in place. `Fit` and `FitEpoch` are the
  two nested loops of `fit`. They are proved equal to `Train` and `Epoch`.
  `Predict` is a function that reads the fields.
- **Properties.** Lemmas cover:
  - the update rule case by case;
  - the zero state;
  - fixed points of the epoch map;
  - the update order;
  - a worked four-point example.

Arithmetic is over exact `real`. Labels are `int`. Where a property needs labels in
{0, 1}, it says so.

## Model

| member | source | states |
|---|---|---|
| Perceptron.UnitStep | perceptron/perceptron.py:28-29 | the activation is 0 or 1, and it is 1 exactly when the score is ≥ 0, so a score of exactly 0 classifies as 1 |
| Perceptron.Error | perceptron/perceptron.py:52-53 | the error `y_i − ŷ_i` is 0 exactly when the prediction equals the label; with a label in {0, 1} it lies in {−1, 0, 1} |
| Perceptron.Predicted | perceptron/perceptron.py:48-50 | the label the state gives a sample is 0 or 1, and it is 1 exactly when its linear output `Score(p, x)` = x·w + b is ≥ 0 |
| Perceptron.Zeros | perceptron/perceptron.py:41 | the reset weight vector has length `n_features`, and every entry is 0 |
| Perceptron.Initial | perceptron/perceptron.py:41-42 | the reset state has `d` weights, all 0, and bias 0 |
| Perceptron.UpdateStep | perceptron/perceptron.py:48-56 | one application of the rule on one sample (defined as w + lr·e·x and b + lr·e, with e the error); its contract keeps the weight length, and the three `UpdateOn…`/`UpdateWhenCorrect` lemmas state its effect case by case |
| Perceptron.UpdateWhenCorrect | perceptron/perceptron.py:48-56 | when the sample is already classified correctly, the update step leaves the weights and bias unchanged |
| Perceptron.UpdateOnFalseNegative | perceptron/perceptron.py:48-56 | a label-1 sample predicted 0 adds `lr·x_i[j]` to every weight and `lr` to the bias, and the length is kept |
| Perceptron.UpdateOnFalsePositive | perceptron/perceptron.py:48-56 | a label-0 sample predicted 1 subtracts `lr·x_i[j]` from every weight and `lr` from the bias, and the length is kept |
| Perceptron.MistakeMovesScoreTowardsLabel | perceptron/perceptron.py:48-56 | with `lr > 0`, a mistake moves the sample's own score by `lr·(x·x) + lr` towards its label: up for a false negative, down for a false positive |
| Perceptron.EpochFrom | perceptron/perceptron.py:46-56 | applies the rule to samples i, i+1, …, n_samples−1 in index order; the weight length is kept |
| Perceptron.Epoch | perceptron/perceptron.py:46-56 | one epoch: every sample once, in index order, starting from sample 0; the weight length is kept |
| Perceptron.Epochs | perceptron/perceptron.py:45 | k epochs one after another, none when k ≤ 0 (as `range(k)`); the weight length is kept |
| Perceptron.Train | perceptron/perceptron.py:41-45 | n_iters epochs (none if ≤ 0) from the zero state; the weights have length d |
| Perceptron.ResetPredictsOne | perceptron/perceptron.py:41-42 | in the zero state right after the reset, every row scores 0 and is classified 1 |
| Perceptron.NoEpochsPredictsOne | perceptron/perceptron.py:41-45 | with `n_iters ≤ 0`, training returns the zero state and every row is classified 1 |
| Perceptron.NoMistakesIsFixedPoint | perceptron/perceptron.py:45-56 | an epoch in which every sample is classified correctly returns the state unchanged |
| Perceptron.FixedPointPersists | perceptron/perceptron.py:45 | a fixed point of the epoch map is unchanged by any number of further epochs |
| Perceptron.EpochsAdd | perceptron/perceptron.py:45 | running m epochs and then k more equals running m + k epochs |
| Perceptron.TrainStopsChanging | perceptron/perceptron.py:45-56 | if the state after e ≤ n_iters epochs makes no mistakes on the data, training ends in exactly that state |
| Perceptron.TrainFollowsSchedule | perceptron/perceptron.py:45-46 | training performs exactly max(n_iters, 0)·n_samples update steps; step t visits sample t mod n_samples (epoch-major, index order); the result equals the rule folded over that schedule |
| Perceptron.ScheduleShape | perceptron/perceptron.py:45-46 | the schedule of k epochs over n samples has length k·n, and its entry t is t mod n |
| Perceptron.RunAppend | perceptron/perceptron.py:45-46 | folding the rule over two schedules in sequence equals folding it over their concatenation |
| Perceptron.PerceptronManual.constructor | perceptron/perceptron.py:14-25 | stores the learning rate and the epoch count (defaults 0.01 and 1000); weights and bias start unset |
| Perceptron.PerceptronManual.Fit | perceptron/perceptron.py:31-56 | afterwards the object is fitted; its weights and bias are exactly `Train(X, y, lr, nIters, nFeatures)`, whatever the object held before; the weights have length `nFeatures` (also stated directly) |
| Perceptron.PerceptronManual.FitEpoch | perceptron/perceptron.py:46-56 | one pass of the inner loop leaves the state at `Epoch` applied to the state before it |
| Perceptron.PerceptronManual.Predict | perceptron/perceptron.py:58-69 | one label per row: row order and count are kept, every entry is 0 or 1, and entry i is 1 exactly when `X[i]·w + b ≥ 0` under the current state; being a function, it changes nothing |
| Perceptron.PredictedLabelsAreFixedPoint | perceptron/perceptron.py:45-69 | if `Predict` on the training rows returns the labels, one more epoch leaves the object's state unchanged |
| Perceptron.FitForgetsPriorState | perceptron/perceptron.py:41-42 | a classifier fitted before on other data ends in the same state as a fresh one fitted on the same data; fitting twice equals fitting once |
| Perceptron.ToyScenario | perceptron/perceptron.py:31-69 | on the points (2,0)→1, (0,2)→0, (−2,0)→0, (0,−2)→1 with lr 0.1 and 10 epochs, training ends at w = (0.2, −0.2), b = 0; every training point is classified correctly; (1,0) is classified 1 and (−1,0) is classified 0 |

## Left out

- The script after the class (perceptron/perceptron.py:72-241) is left out. It is file I/O and library glue: pandas loading and cleaning, feature selection, scaling, PCA, sklearn's own `Perceptron`, metrics and plots. `PerceptronManual` is never called from it.
- linear_regression/linear_regression.py is not part of this model. It contains no hand-written algorithm.
- Floating point is modelled as exact `real`. IEEE rounding is not part of what the code promises.
- numpy broadcasting is not modelled. `predict` is modelled on a matrix of rows only, not on a single 1-D sample.
- The `activation_func` attribute (line 23) only refers to the step function. The model calls `UnitStep` directly.
- `X.shape` is modelled by an explicit `nFeatures` parameter, because a sequence of rows with no rows has no width. The requirement that every row has that width stands in for numpy's shape checks. The row-versus-label count is stated as `|X| <= |y|`, because the code reads only `y[idx]` for row indices.
- If `y` is a pandas Series, `y[idx]` is lookup by label; the model takes positional indexing.
- Labels are plain `int`. The properties that need labels in {0, 1} require it, and `fit` does not check it.
- The code does not validate the learning rate or the epoch count. So the model has no error results for them, and a negative epoch count runs no epochs, as `range` does.
- `predict` before `fit` fails in the code, because the weights are `None`. The model makes `Fitted()` a precondition of `Predict`.
- `FitEpoch` is the inner `for` loop of `fit`, pulled out as a method of its own. It is not a separate operation of the source.
- No convergence or mistake-bound theorem is modelled. The code makes no such promise: it has no early stopping and no separability check.
