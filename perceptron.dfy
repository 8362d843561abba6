/** A hand-written online perceptron: a weight vector and a bias trained by the
    classical perceptron rule over a fixed number of epochs, and a step-activation
    classifier that reads them. Arithmetic is over exact reals. */
module Perceptron {

  datatype Option<T> = None | Some(value: T)

  /** The trainable part of the classifier's state. */
  datatype Params = Params(weights: seq<real>, bias: real)

  /** Every row of the feature matrix has `d` features. */
  predicate Rows(X: seq<seq<real>>, d: nat)
  {
    forall i :: 0 <= i < |X| ==> |X[i]| == d
  }

  function Zeros(d: nat): (z: seq<real>)
    ensures |z| == d
    ensures forall j :: 0 <= j < d ==> z[j] == 0.0
  {
    seq(d, _ => 0.0)
  }

  /** The state `fit` resets to before any update. */
  function Initial(d: nat): (r: Params)
    ensures |r.weights| == d
    ensures forall j :: 0 <= j < d ==> r.weights[j] == 0.0
    ensures r.bias == 0.0
  {
    Params(Zeros(d), 0.0)
  }

  function Dot(x: seq<real>, w: seq<real>): (r: real)
    requires |x| == |w|
    decreases |x|
  {
    if |x| == 0 then 0.0 else x[0] * w[0] + Dot(x[1..], w[1..])
  }

  /** The linear output of a sample: dot(x, weights) + bias. */
  function Score(p: Params, x: seq<real>): (r: real)
    requires |x| == |p.weights|
  {
    Dot(x, p.weights) + p.bias
  }

  /** The unit step activation; a score of exactly zero classifies as 1. */
  function UnitStep(score: real): (r: int)
    ensures r == 0 || r == 1
    ensures r == 1 <==> score >= 0.0
  {
    if score >= 0.0 then 1 else 0
  }

  /** The label the state assigns to one sample. */
  function Predicted(p: Params, x: seq<real>): (r: int)
    requires |x| == |p.weights|
    ensures r == 0 || r == 1
    ensures r == 1 <==> Score(p, x) >= 0.0
  {
    UnitStep(Score(p, x))
  }

  /** The classification error of one sample: target minus prediction. */
  function Error(p: Params, x: seq<real>, target: int): (e: int)
    requires |x| == |p.weights|
    ensures e == 0 <==> Predicted(p, x) == target
    ensures target == 0 || target == 1 ==> -1 <= e <= 1
  {
    target - Predicted(p, x)
  }

  /** The vector w + c·x, computed elementwise. */
  function AddScaled(w: seq<real>, c: real, x: seq<real>): (r: seq<real>)
    requires |x| == |w|
    ensures |r| == |w|
  {
    seq(|w|, j requires 0 <= j < |w| => w[j] + c * x[j])
  }

  lemma AddScaledZero(w: seq<real>, x: seq<real>)
    requires |x| == |w|
    ensures AddScaled(w, 0.0, x) == w
  {
    var r := AddScaled(w, 0.0, x);
    forall j | 0 <= j < |w|
      ensures r[j] == w[j]
    {
    }
  }

  /** The parameters moved by the amount lr·e along the sample: (lr·e)·x added to
      the weights and lr·e to the bias. */
  function Shift(p: Params, x: seq<real>, lr: real, e: int): (r: Params)
    requires |x| == |p.weights|
    ensures |r.weights| == |p.weights|
  {
    var u := lr * (e as real);
    Params(AddScaled(p.weights, u, x), p.bias + u)
  }

  /** One application of the perceptron rule to one sample: a shift by the
      learning rate times the error. */
  function UpdateStep(p: Params, x: seq<real>, target: int, lr: real): (r: Params)
    requires |x| == |p.weights|
    ensures |r.weights| == |p.weights|
  {
    Shift(p, x, lr, Error(p, x, target))
  }

  /** A shift with its amount named. */
  lemma ShiftIs(p: Params, x: seq<real>, lr: real, e: int, u: real)
    requires |x| == |p.weights|
    requires u == lr * (e as real)
    ensures Shift(p, x, lr, e) == Params(AddScaled(p.weights, u, x), p.bias + u)
  {
  }

  /** The prediction, with the score written out. */
  lemma PredictedIs(p: Params, x: seq<real>, predicted: int)
    requires |x| == |p.weights|
    requires predicted == UnitStep(Dot(x, p.weights) + p.bias)
    ensures Predicted(p, x) == predicted
  {
  }

  /** UpdateStep with its error named, as the training loop computes it. */
  lemma UpdateStepIs(p: Params, x: seq<real>, target: int, lr: real, error: int)
    requires |x| == |p.weights|
    requires error == Error(p, x, target)
    ensures UpdateStep(p, x, target, lr) == Shift(p, x, lr, error)
  {
  }

  /** The samples i, i+1, ..., |X|-1 visited in index order, starting from `p`. */
  function EpochFrom(p: Params, X: seq<seq<real>>, y: seq<int>, lr: real, i: nat): (r: Params)
    requires i <= |X| <= |y|
    requires Rows(X, |p.weights|)
    ensures |r.weights| == |p.weights|
    decreases |X| - i
  {
    if i == |X| then p
    else EpochFrom(UpdateStep(p, X[i], y[i], lr), X, y, lr, i + 1)
  }

  /** One full epoch: every sample in index order. */
  function Epoch(p: Params, X: seq<seq<real>>, y: seq<int>, lr: real): (r: Params)
    requires |X| <= |y|
    requires Rows(X, |p.weights|)
    ensures |r.weights| == |p.weights|
  {
    EpochFrom(p, X, y, lr, 0)
  }

  /** One step of EpochFrom: the update at sample `i`, then the rest. */
  lemma EpochFromStep(p: Params, X: seq<seq<real>>, y: seq<int>, lr: real, i: nat)
    requires i < |X| <= |y|
    requires Rows(X, |p.weights|)
    ensures EpochFrom(p, X, y, lr, i) == EpochFrom(UpdateStep(p, X[i], y[i], lr), X, y, lr, i + 1)
  {
  }

  /** One step of EpochFrom with the prediction, the error and the update amount
      computed as the training loop computes them. */
  lemma ShiftedEpochFrom(p: Params, q: Params, X: seq<seq<real>>, y: seq<int>, lr: real, i: nat,
                         predicted: int, error: int, update: real)
    requires i < |X| <= |y|
    requires Rows(X, |p.weights|)
    requires predicted == UnitStep(Dot(X[i], p.weights) + p.bias)
    requires error == y[i] - predicted
    requires update == lr * (error as real)
    requires q == Params(AddScaled(p.weights, update, X[i]), p.bias + update)
    ensures Rows(X, |q.weights|)
    ensures EpochFrom(p, X, y, lr, i) == EpochFrom(q, X, y, lr, i + 1)
  {
    PredictedIs(p, X[i], predicted);
    UpdateStepIs(p, X[i], y[i], lr, error);
    ShiftIs(p, X[i], lr, error, update);
    EpochFromStep(p, X, y, lr, i);
  }

  /** `k` epochs in a row; like Python's `range(k)`, a non-positive `k` runs none. */
  function Epochs(p: Params, X: seq<seq<real>>, y: seq<int>, lr: real, k: int): (r: Params)
    requires |X| <= |y|
    requires Rows(X, |p.weights|)
    ensures |r.weights| == |p.weights|
    decreases k
  {
    if k <= 0 then p else Epochs(Epoch(p, X, y, lr), X, y, lr, k - 1)
  }

  /** What training computes: `nIters` epochs from the zero state. */
  function Train(X: seq<seq<real>>, y: seq<int>, lr: real, nIters: int, d: nat): (r: Params)
    requires |X| <= |y|
    requires Rows(X, d)
    ensures |r.weights| == d
  {
    Epochs(Initial(d), X, y, lr, nIters)
  }

  /** No sample of the data set is misclassified by `p`. */
  predicate NoMistakes(p: Params, X: seq<seq<real>>, y: seq<int>)
    requires |X| <= |y|
    requires Rows(X, |p.weights|)
  {
    forall i :: 0 <= i < |X| ==> Predicted(p, X[i]) == y[i]
  }

  // ---------------------------------------------------------------------------
  // The update rule, case by case

  lemma UpdateWhenCorrect(p: Params, x: seq<real>, target: int, lr: real)
    requires |x| == |p.weights|
    requires Predicted(p, x) == target
    ensures UpdateStep(p, x, target, lr) == p
  {
    // Naming the zero error and the zero update keeps the proof stable; without
    // them the nonlinear update amount lr * 0 is sometimes not simplified.
    UpdateStepIs(p, x, target, lr, 0);
    ShiftIs(p, x, lr, 0, 0.0);
    AddScaledZero(p.weights, x);
  }

  /** A positive sample classified as 0 pulls the boundary towards it. */
  lemma UpdateOnFalseNegative(p: Params, x: seq<real>, lr: real)
    requires |x| == |p.weights|
    requires Predicted(p, x) == 0
    ensures var r := UpdateStep(p, x, 1, lr);
      && |r.weights| == |p.weights|
      && (forall j :: 0 <= j < |x| ==> r.weights[j] == p.weights[j] + lr * x[j])
      && r.bias == p.bias + lr
  {
  }

  /** A negative sample classified as 1 pushes the boundary away from it. */
  lemma UpdateOnFalsePositive(p: Params, x: seq<real>, lr: real)
    requires |x| == |p.weights|
    requires Predicted(p, x) == 1
    ensures var r := UpdateStep(p, x, 0, lr);
      && |r.weights| == |p.weights|
      && (forall j :: 0 <= j < |x| ==> r.weights[j] == p.weights[j] - lr * x[j])
      && r.bias == p.bias - lr
  {
  }

  lemma {:induction false} DotAddScaled(x: seq<real>, w: seq<real>, c: real, v: seq<real>)
    requires |x| == |w| == |v|
    ensures Dot(x, AddScaled(w, c, v)) == Dot(x, w) + c * Dot(x, v)
    decreases |x|
  {
    if |x| > 0 {
      forall j | 0 <= j < |w| - 1
        ensures AddScaled(w, c, v)[1..][j] == AddScaled(w[1..], c, v[1..])[j]
      {
      }
      assert AddScaled(w, c, v)[1..] == AddScaled(w[1..], c, v[1..]);
      DotAddScaled(x[1..], w[1..], c, v[1..]);
    }
  }

  lemma {:induction false} DotSelfNonNegative(x: seq<real>)
    ensures Dot(x, x) >= 0.0
    decreases |x|
  {
    if |x| > 0 {
      DotSelfNonNegative(x[1..]);
    }
  }

  /** Adding u·x to the weights and u to the bias raises the score of x by u·(x·x) + u. */
  lemma ScoreAfterShift(p: Params, x: seq<real>, lr: real, e: int, u: real)
    requires |x| == |p.weights|
    requires u == lr * (e as real)
    ensures Score(Shift(p, x, lr, e), x) == Score(p, x) + u * Dot(x, x) + u
  {
    var q := Shift(p, x, lr, e);
    DotAddScaled(x, p.weights, u, x);
    assert Score(q, x) == Dot(x, AddScaled(p.weights, u, x)) + (p.bias + u);
    assert Score(p, x) == Dot(x, p.weights) + p.bias;
  }

  /** With a positive learning rate, a mistake moves the score of the misclassified
      sample towards its label: up by lr·(x·x) + lr for a positive sample, down by
      the same amount for a negative one. */
  lemma MistakeMovesScoreTowardsLabel(p: Params, x: seq<real>, target: int, lr: real)
    requires |x| == |p.weights|
    requires lr > 0.0
    ensures target == 1 && Predicted(p, x) == 0 ==>
      Score(UpdateStep(p, x, target, lr), x) == Score(p, x) + lr * Dot(x, x) + lr > Score(p, x)
    ensures target == 0 && Predicted(p, x) == 1 ==>
      Score(UpdateStep(p, x, target, lr), x) == Score(p, x) - lr * Dot(x, x) - lr < Score(p, x)
  {
    DotSelfNonNegative(x);
    if target == 1 && Predicted(p, x) == 0 {
      UpdateStepIs(p, x, target, lr, 1);
      ScoreAfterShift(p, x, lr, 1, lr);
    } else if target == 0 && Predicted(p, x) == 1 {
      UpdateStepIs(p, x, target, lr, -1);
      ScoreAfterShift(p, x, lr, -1, -lr);
    }
  }

  // ---------------------------------------------------------------------------
  // The zero state

  lemma {:induction false} DotZeros(x: seq<real>)
    ensures Dot(x, Zeros(|x|)) == 0.0
    decreases |x|
  {
    if |x| > 0 {
      assert Zeros(|x|)[1..] == Zeros(|x| - 1);
      DotZeros(x[1..]);
    }
  }

  /** Right after the reset every row scores 0 and is therefore classified as 1. */
  lemma ResetPredictsOne(Z: seq<seq<real>>, d: nat)
    requires Rows(Z, d)
    ensures forall i :: 0 <= i < |Z| ==> Score(Initial(d), Z[i]) == 0.0 && Predicted(Initial(d), Z[i]) == 1
  {
    forall i | 0 <= i < |Z|
      ensures Score(Initial(d), Z[i]) == 0.0
    {
      DotZeros(Z[i]);
    }
  }

  /** With no epochs to run, training leaves the zero state and every row is classified as 1. */
  lemma NoEpochsPredictsOne(X: seq<seq<real>>, y: seq<int>, lr: real, nIters: int, d: nat, Z: seq<seq<real>>)
    requires |X| <= |y|
    requires Rows(X, d) && Rows(Z, d)
    requires nIters <= 0
    ensures Train(X, y, lr, nIters, d) == Initial(d)
    ensures forall i :: 0 <= i < |Z| ==> Predicted(Train(X, y, lr, nIters, d), Z[i]) == 1
  {
    ResetPredictsOne(Z, d);
  }

  // ---------------------------------------------------------------------------
  // Fixed points

  lemma {:induction false} CorrectEpochFrom(p: Params, X: seq<seq<real>>, y: seq<int>, lr: real, i: nat)
    requires i <= |X| <= |y|
    requires Rows(X, |p.weights|)
    requires NoMistakes(p, X, y)
    ensures EpochFrom(p, X, y, lr, i) == p
    decreases |X| - i
  {
    if i < |X| {
      UpdateWhenCorrect(p, X[i], y[i], lr);
      CorrectEpochFrom(p, X, y, lr, i + 1);
    }
  }

  /** An epoch that makes no mistakes changes nothing. */
  lemma NoMistakesIsFixedPoint(p: Params, X: seq<seq<real>>, y: seq<int>, lr: real)
    requires |X| <= |y|
    requires Rows(X, |p.weights|)
    requires NoMistakes(p, X, y)
    ensures Epoch(p, X, y, lr) == p
  {
    CorrectEpochFrom(p, X, y, lr, 0);
  }

  /** A fixed point of the epoch map stays put for any number of epochs. */
  lemma {:induction false} FixedPointPersists(p: Params, X: seq<seq<real>>, y: seq<int>, lr: real, k: int)
    requires |X| <= |y|
    requires Rows(X, |p.weights|)
    requires Epoch(p, X, y, lr) == p
    ensures Epochs(p, X, y, lr, k) == p
    decreases k
  {
    if k > 0 {
      FixedPointPersists(p, X, y, lr, k - 1);
    }
  }

  /** Running m epochs and then k more is running m + k epochs. */
  lemma {:induction false} EpochsAdd(p: Params, X: seq<seq<real>>, y: seq<int>, lr: real, m: nat, k: nat)
    requires |X| <= |y|
    requires Rows(X, |p.weights|)
    ensures Epochs(p, X, y, lr, m + k) == Epochs(Epochs(p, X, y, lr, m), X, y, lr, k)
    decreases m
  {
    if m > 0 {
      EpochsAdd(Epoch(p, X, y, lr), X, y, lr, m - 1, k);
    }
  }

  /** Once the state after `e` epochs classifies every sample correctly, the
      remaining epochs of training leave it unchanged. */
  lemma TrainStopsChanging(X: seq<seq<real>>, y: seq<int>, lr: real, nIters: int, d: nat, e: nat)
    requires |X| <= |y|
    requires Rows(X, d)
    requires e <= nIters
    requires NoMistakes(Epochs(Initial(d), X, y, lr, e), X, y)
    ensures Train(X, y, lr, nIters, d) == Epochs(Initial(d), X, y, lr, e)
  {
    var s := Epochs(Initial(d), X, y, lr, e);
    EpochsAdd(Initial(d), X, y, lr, e, nIters - e);
    NoMistakesIsFixedPoint(s, X, y, lr);
    FixedPointPersists(s, X, y, lr, nIters - e);
  }

  // ---------------------------------------------------------------------------
  // Update order: training is a fold of the update rule over an explicit
  // epoch-major schedule of sample indices

  function Indices(lo: nat, hi: nat): (r: seq<nat>)
    requires lo <= hi
    ensures |r| == hi - lo
    ensures forall j :: 0 <= j < |r| ==> r[j] == lo + j
    decreases hi - lo
  {
    if lo == hi then [] else [lo] + Indices(lo + 1, hi)
  }

  /** The sample indices visited by `k` epochs over `n` samples, in visiting order. */
  function Schedule(n: nat, k: int): (r: seq<nat>)
    ensures forall t :: 0 <= t < |r| ==> r[t] < n
    decreases k
  {
    if k <= 0 then [] else Indices(0, n) + Schedule(n, k - 1)
  }

  /** Applies the update rule to the samples named by `order`, one after another. */
  function Run(p: Params, X: seq<seq<real>>, y: seq<int>, lr: real, order: seq<nat>): (r: Params)
    requires |X| <= |y|
    requires Rows(X, |p.weights|)
    requires forall t :: 0 <= t < |order| ==> order[t] < |X|
    ensures |r.weights| == |p.weights|
    decreases |order|
  {
    if order == [] then p
    else Run(UpdateStep(p, X[order[0]], y[order[0]], lr), X, y, lr, order[1..])
  }

  lemma {:induction false} RunAppend(p: Params, X: seq<seq<real>>, y: seq<int>, lr: real, a: seq<nat>, b: seq<nat>)
    requires |X| <= |y|
    requires Rows(X, |p.weights|)
    requires forall t :: 0 <= t < |a| ==> a[t] < |X|
    requires forall t :: 0 <= t < |b| ==> b[t] < |X|
    ensures Run(p, X, y, lr, a + b) == Run(Run(p, X, y, lr, a), X, y, lr, b)
    decreases |a|
  {
    if a == [] {
      assert a + b == b;
    } else {
      assert (a + b)[0] == a[0];
      assert (a + b)[1..] == a[1..] + b;
      RunAppend(UpdateStep(p, X[a[0]], y[a[0]], lr), X, y, lr, a[1..], b);
    }
  }

  lemma {:induction false} EpochFromIsRun(p: Params, X: seq<seq<real>>, y: seq<int>, lr: real, i: nat)
    requires i <= |X| <= |y|
    requires Rows(X, |p.weights|)
    ensures EpochFrom(p, X, y, lr, i) == Run(p, X, y, lr, Indices(i, |X|))
    decreases |X| - i
  {
    if i < |X| {
      EpochFromIsRun(UpdateStep(p, X[i], y[i], lr), X, y, lr, i + 1);
    }
  }

  lemma {:induction false} EpochsIsRun(p: Params, X: seq<seq<real>>, y: seq<int>, lr: real, k: int)
    requires |X| <= |y|
    requires Rows(X, |p.weights|)
    ensures Epochs(p, X, y, lr, k) == Run(p, X, y, lr, Schedule(|X|, k))
    decreases k
  {
    if k > 0 {
      EpochFromIsRun(p, X, y, lr, 0);
      EpochsIsRun(Epoch(p, X, y, lr), X, y, lr, k - 1);
      RunAppend(p, X, y, lr, Indices(0, |X|), Schedule(|X|, k - 1));
    }
  }

  lemma {:induction false} ScheduleLength(n: nat, k: nat)
    ensures |Schedule(n, k)| == k * n
    decreases k
  {
    if k > 0 {
      ScheduleLength(n, k - 1);
      assert (k - 1) * n + n == k * n;
    }
  }

  lemma {:induction false} ScheduleAt(n: nat, k: nat, t: nat)
    requires n > 0
    requires t < |Schedule(n, k)|
    ensures Schedule(n, k)[t] == t % n
    decreases k
  {
    if t < n {
      ModUnique(t, n, 0, t);
    } else {
      ScheduleAt(n, k - 1, t - n);
      ModShift(t - n, n);
    }
  }

  /** The schedule of `k` epochs has k·n entries and its t-th entry is sample t mod n,
      so epoch t / n visits the samples 0, 1, ..., n-1 in order. */
  lemma ScheduleShape(n: nat, k: nat)
    ensures |Schedule(n, k)| == k * n
    ensures n > 0 ==> forall t :: 0 <= t < k * n ==> Schedule(n, k)[t] == t % n
  {
    ScheduleLength(n, k);
    if n > 0 {
      forall t | 0 <= t < k * n
        ensures Schedule(n, k)[t] == t % n
      {
        ScheduleAt(n, k, t);
      }
    }
  }

  lemma MulMonotone(z: int, n: int)
    requires n > 0
    ensures z >= 1 ==> z * n >= n
    ensures z <= -1 ==> z * n <= -n
  {
    if z >= 1 {
      assert z * n == (z - 1) * n + n;
      assert (z - 1) * n >= 0;
    } else if z <= -1 {
      assert z * n == (z + 1) * n - n;
      assert (z + 1) * n <= 0;
    }
  }

  lemma ModUnique(a: int, n: int, q: int, r: int)
    requires n > 0 && 0 <= r < n && a == q * n + r
    ensures a % n == r
  {
    var q0, r0 := a / n, a % n;
    assert a == q0 * n + r0;
    assert (q - q0) * n == q * n - q0 * n;
    MulMonotone(q - q0, n);
  }

  lemma ModShift(t: int, n: int)
    requires n > 0
    ensures (t + n) % n == t % n
  {
    assert t + n == (t / n + 1) * n + t % n;
    ModUnique(t + n, n, t / n + 1, t % n);
  }

  /** Training performs exactly max(nIters, 0)·|X| update steps, epoch-major and in
      sample-index order. */
  lemma TrainFollowsSchedule(X: seq<seq<real>>, y: seq<int>, lr: real, nIters: int, d: nat)
    requires |X| <= |y|
    requires Rows(X, d)
    ensures var order := Schedule(|X|, nIters);
      && |order| == (if nIters <= 0 then 0 else nIters) * |X|
      && (forall t :: 0 <= t < |order| ==> order[t] == t % |X|)
      && Train(X, y, lr, nIters, d) == Run(Initial(d), X, y, lr, order)
  {
    EpochsIsRun(Initial(d), X, y, lr, nIters);
    ScheduleShape(|X|, if nIters <= 0 then 0 else nIters);
  }

  // ---------------------------------------------------------------------------
  // The classifier object

  class PerceptronManual {
    const lr: real         // learning rate, fixed at construction
    const nIters: int      // number of epochs, fixed at construction
    var weights: Option<seq<real>>
    var bias: Option<real>

    constructor (learningRate: real := 0.01, nIters: int := 1000)
      ensures lr == learningRate && this.nIters == nIters
      ensures weights == None && bias == None
    {
      lr := learningRate;
      this.nIters := nIters;
      weights := None;
      bias := None;
    }

    predicate Fitted()
      reads this
    {
      weights.Some? && bias.Some?
    }

    function Current(): Params
      reads this
      requires Fitted()
    {
      Params(weights.value, bias.value)
    }

    /** Resets the weights and bias, then runs `nIters` epochs of the perceptron
        rule over the samples in index order, updating the fields in place. */
    method Fit(X: seq<seq<real>>, y: seq<int>, nFeatures: nat)
      requires |X| <= |y|
      requires Rows(X, nFeatures)
      modifies this
      ensures Fitted()
      ensures Current() == Train(X, y, lr, nIters, nFeatures)
      ensures |weights.value| == nFeatures
    {
      weights := Some(Zeros(nFeatures));
      bias := Some(0.0);
      var epoch := 0;
      while epoch < nIters
        invariant Fitted() && |weights.value| == nFeatures
        invariant Epochs(Current(), X, y, lr, nIters - epoch) == Train(X, y, lr, nIters, nFeatures)
      {
        FitEpoch(X, y);
        epoch := epoch + 1;
      }
    }

    /** The body of one epoch of `Fit`: the perceptron rule applied to every
        sample in index order, updating the fields in place. */
    method FitEpoch(X: seq<seq<real>>, y: seq<int>)
      requires |X| <= |y|
      requires Fitted() && Rows(X, |weights.value|)
      modifies this
      ensures Fitted()
      ensures Current() == Epoch(old(Current()), X, y, lr)
    {
      ghost var start := Current();
      var idx := 0;
      while idx < |X|
        invariant 0 <= idx <= |X|
        invariant Fitted() && |weights.value| == |start.weights|
        invariant EpochFrom(Current(), X, y, lr, idx) == Epoch(start, X, y, lr)
      {
        var xi := X[idx];
        var linearOutput := Dot(xi, weights.value) + bias.value;
        var yPredicted := UnitStep(linearOutput);
        var error := y[idx] - yPredicted;
        var update := lr * (error as real);
        ghost var before := Current();
        weights := Some(AddScaled(weights.value, update, xi));
        bias := Some(bias.value + update);
        ShiftedEpochFrom(before, Current(), X, y, lr, idx, yPredicted, error, update);
        idx := idx + 1;
      }
      assert EpochFrom(Current(), X, y, lr, |X|) == Current();
    }

    /** Classifies every row with the current weights and bias. */
    function Predict(X: seq<seq<real>>): (r: seq<int>)
      reads this
      requires Fitted()
      requires Rows(X, |weights.value|)
      ensures |r| == |X|
      ensures forall i :: 0 <= i < |X| ==> r[i] == 0 || r[i] == 1
      ensures forall i :: 0 <= i < |X| ==> (r[i] == 1 <==> Score(Current(), X[i]) >= 0.0)
    {
      var w, b := weights.value, bias.value;
      seq(|X|, i requires 0 <= i < |X| => UnitStep(Dot(X[i], w) + b))
    }
  }

  /** If the classifier already predicts the training labels, one more epoch of
      training would leave its state unchanged. */
  lemma PredictedLabelsAreFixedPoint(p: PerceptronManual, X: seq<seq<real>>, y: seq<int>)
    requires p.Fitted()
    requires |X| <= |y|
    requires Rows(X, |p.weights.value|)
    requires p.Predict(X) == y[..|X|]
    ensures Epoch(p.Current(), X, y, p.lr) == p.Current()
  {
    forall i | 0 <= i < |X|
      ensures Predicted(p.Current(), X[i]) == y[i]
    {
      assert p.Predict(X)[i] == y[i];
    }
    NoMistakesIsFixedPoint(p.Current(), X, y, p.lr);
  }

  /** Fit starts from a blank state: a classifier trained before on other data
      ends with exactly the state of a fresh one, and refitting changes nothing. */
  method FitForgetsPriorState(lr: real, nIters: int,
                              X0: seq<seq<real>>, y0: seq<int>, d0: nat,
                              X: seq<seq<real>>, y: seq<int>, d: nat)
    returns (same: bool)
    requires |X0| <= |y0| && Rows(X0, d0)
    requires |X| <= |y| && Rows(X, d)
    ensures same
  {
    var p := new PerceptronManual(lr, nIters);
    p.Fit(X0, y0, d0);
    p.Fit(X, y, d);
    var q := new PerceptronManual(lr, nIters);
    q.Fit(X, y, d);
    var w, b := q.weights, q.bias;
    q.Fit(X, y, d);
    same := p.weights == q.weights == w && p.bias == q.bias == b;
  }

  // ---------------------------------------------------------------------------
  // A worked example: a separable toy set of four points in the plane

  const ToyX: seq<seq<real>> := [[2.0, 0.0], [0.0, 2.0], [-2.0, 0.0], [0.0, -2.0]]
  const ToyY: seq<int> := [1, 0, 0, 1]

  lemma ToyShape()
    ensures |ToyX| == |ToyY| == 4 && Rows(ToyX, 2)
  {
  }

  lemma Dot2(a: real, b: real, c: real, e: real)
    ensures Dot([a, b], [c, e]) == a * c + b * e
  {
    assert [a, b][1..] == [b] && [c, e][1..] == [e];
    assert Dot([b], [e]) == b * e + Dot([], []);
  }

  lemma AddScaled2(a: real, b: real, c: real, u: real, v: real)
    ensures AddScaled([a, b], c, [u, v]) == [a + c * u, b + c * v]
  {
    var r := AddScaled([a, b], c, [u, v]);
    assert r[0] == a + c * u && r[1] == b + c * v;
  }

  /** One update step on a state with two features, with the new state given. */
  lemma Step2(w0: real, w1: real, b: real, x0: real, x1: real, t: int, lr: real,
              u: real, v0: real, v1: real, c: real)
    requires u == lr * ((t - UnitStep(x0 * w0 + x1 * w1 + b)) as real)
    requires v0 == w0 + u * x0 && v1 == w1 + u * x1 && c == b + u
    ensures UpdateStep(Params([w0, w1], b), [x0, x1], t, lr) == Params([v0, v1], c)
  {
    var p := Params([w0, w1], b);
    Dot2(x0, x1, w0, w1);
    PredictedIs(p, [x0, x1], UnitStep(x0 * w0 + x1 * w1 + b));
    UpdateStepIs(p, [x0, x1], t, lr, t - UnitStep(x0 * w0 + x1 * w1 + b));
    AddScaled2(w0, w1, u, x0, x1);
    var r := Shift(p, [x0, x1], lr, t - UnitStep(x0 * w0 + x1 * w1 + b));
    assert r.weights == [v0, v1] && r.bias == c;
  }

  /** The first epoch from the zero state: only [0, 2] (label 0, score 0,
      predicted 1) is a mistake. */
  lemma ToyFirstEpoch()
    ensures Epoch(Initial(2), ToyX, ToyY, 0.1) == Params([0.0, -0.2], -0.1)
  {
    ToyShape();
    var s0, s1 := Params([0.0, 0.0], 0.0), Params([0.0, -0.2], -0.1);
    assert Initial(2) == s0 by { assert Zeros(2) == [0.0, 0.0]; }
    Step2(0.0, 0.0, 0.0, 2.0, 0.0, 1, 0.1, 0.0, 0.0, 0.0, 0.0);
    Step2(0.0, 0.0, 0.0, 0.0, 2.0, 0, 0.1, -0.1, 0.0, -0.2, -0.1);
    ToyFirstEpochTail();
    assert EpochFrom(s0, ToyX, ToyY, 0.1, 1) == s1;
  }

  /** The last two samples of the first epoch are classified correctly once [0, 2] is learned. */
  lemma ToyFirstEpochTail()
    ensures EpochFrom(Params([0.0, -0.2], -0.1), ToyX, ToyY, 0.1, 2) == Params([0.0, -0.2], -0.1)
  {
    ToyShape();
    var s1 := Params([0.0, -0.2], -0.1);
    Dot2(-2.0, 0.0, 0.0, -0.2);
    Dot2(0.0, -2.0, 0.0, -0.2);
    assert Predicted(s1, ToyX[2]) == ToyY[2] && Predicted(s1, ToyX[3]) == ToyY[3];
    UpdateWhenCorrect(s1, ToyX[2], ToyY[2], 0.1);
    UpdateWhenCorrect(s1, ToyX[3], ToyY[3], 0.1);
    EpochFromStep(s1, ToyX, ToyY, 0.1, 2);
    EpochFromStep(s1, ToyX, ToyY, 0.1, 3);
  }

  /** The state after the second epoch classifies every training sample correctly. */
  lemma ToyFixedPoint()
    ensures NoMistakes(Params([0.2, -0.2], 0.0), ToyX, ToyY)
  {
    ToyShape();
    Dot2(2.0, 0.0, 0.2, -0.2);
    Dot2(0.0, 2.0, 0.2, -0.2);
    Dot2(-2.0, 0.0, 0.2, -0.2);
    Dot2(0.0, -2.0, 0.2, -0.2);
  }

  /** The second epoch: only [2, 0] (label 1, score -0.1, predicted 0) is a mistake. */
  lemma ToySecondEpoch()
    ensures Epoch(Params([0.0, -0.2], -0.1), ToyX, ToyY, 0.1) == Params([0.2, -0.2], 0.0)
  {
    ToyShape();
    var s1, s2 := Params([0.0, -0.2], -0.1), Params([0.2, -0.2], 0.0);
    Step2(0.0, -0.2, -0.1, 2.0, 0.0, 1, 0.1, 0.1, 0.2, -0.2, 0.0);
    ToyFixedPoint();
    CorrectEpochFrom(s2, ToyX, ToyY, 0.1, 1);
  }

  /** With learning rate 0.1 and ten epochs training stops changing after the
      second epoch; every training sample is then classified correctly, [1, 0]
      is classified 1 and [-1, 0] is classified 0. */
  lemma ToyScenario()
    ensures Train(ToyX, ToyY, 0.1, 10, 2) == Params([0.2, -0.2], 0.0)
    ensures NoMistakes(Params([0.2, -0.2], 0.0), ToyX, ToyY)
    ensures Predicted(Params([0.2, -0.2], 0.0), [1.0, 0.0]) == 1
    ensures Predicted(Params([0.2, -0.2], 0.0), [-1.0, 0.0]) == 0
  {
    ToyShape();
    var s2 := Params([0.2, -0.2], 0.0);
    ToyFirstEpoch();
    ToySecondEpoch();
    ToyFixedPoint();
    assert Epochs(Initial(2), ToyX, ToyY, 0.1, 2) == s2;
    TrainStopsChanging(ToyX, ToyY, 0.1, 10, 2, 2);
    Dot2(1.0, 0.0, 0.2, -0.2);
    Dot2(-1.0, 0.0, 0.2, -0.2);
  }
}
