# NeuronNetwork in Dafny

A model of `neuron_network.py`, a small dense feed-forward network trainer
with five optimizers (momentum, Nesterov momentum, Adagrad, Adadelta, Adam).
Floats are modelled as exact reals, so nothing here claims bit-exact
agreement with numpy. The activation function and its derivative, `np.exp`
and `np.sqrt` are parameters that the model never looks inside. What is
stated exactly is the rest: shapes, layer order, index arithmetic, the
linear update formulas, the state flags and the accumulators.

Files:

- `matrices.dfy` (module `Matrices`): matrices of reals with an explicit
  shape, standing in for the numpy arrays the network uses (`np.zeros`,
  `@`, `*`, `+`, `-`, `np.square`, `.T`).
- `model.dfy` (module `Model`): the pure parts. This covers
  `get_output_array`, `cost_function`, softmax, the forward pass as a
  layer-by-layer trace, the backward recurrence and its gradients, and the
  arg-max behind `test` and `predict`.
- `optimizers.dfy` (module `Optimizers`): every field the optimizers and
  `train` update, gathered in a `State` value. It defines each update rule
  and `_train_mini_batch` as functions of the state before them. It also
  defines the shuffle, the mini-batch slices, one epoch and a whole session
  of `train`.
- `properties.dfy` (module `Properties`): lemmas that relate those
  functions. They cover the encoding against arg-max, softmax as a
  distribution, the per-layer forward equations, backpropagation against
  the error-signal recurrence, momentum against plain descent, Adagrad's
  monotone accumulators, Adadelta/Adam's seed-then-blend flag, Adam's power
  trackers, and how `train` cuts mini-batches.
- `network.dfy` (module `Network`): the class `NeuronNetwork`. Its fields
  are the ones the source assigns (`wights` is spelled `weights`). Its
  methods run the source's loops: the forward loop, the output-first
  backward loop followed by `reverse()`, the per-example accumulation
  loops, the epoch and mini-batch loops of `train`, and the counting loop
  of `test`. Each method's `ensures` ties the new state to the functions
  above. The class invariant `Valid` also states that, after k Adam
  mini-batches, each Adam power tracker equals its decay raised to k + 1.

`train` zeroes `old_err_b`/`old_err_w` after every mini-batch
(neuron_network.py:296-297), never before one. Within a session of
Momentum or Nesterov every batch after the first therefore starts with no
previous update. The first one does too when the session starts at rest,
that is after construction or after an earlier `train`. It does not when
`momentum_train` or `nestors_momentum_train` was called directly just
before, since both are public and keep their update in `old_err_*`. `TrainFromRestIsPlain` proves that a
whole session of either one, started from rest, is a session of plain
gradient descent; `TrainFromConstructionIsPlain` shows that a freshly
constructed network is at rest. The model keeps this behaviour because it is what
the code does.

## Model

| member | source | states |
|---|---|---|
| `Model.OutputArray` | neuron_network.py:4-7 | A result exists exactly when `-size <= result < size` (numpy's IndexError otherwise). It is a `size`×1 column whose cell is 1 at the label's row, counted from the end for a negative label, and 0 in every other row. |
| `Properties.OneHotArgmax` | neuron_network.py:4-7 | The arg-max of the one-hot column is the row the label names, so encoding and arg-max agree. |
| `Model.Cost` | neuron_network.py:10-11 | The cost has the output's shape and, cell by cell, target + cost = output. |
| `Properties.CostZeroIff` | neuron_network.py:10-11 | The cost is the zero matrix exactly when the output equals the target. |
| `Model.Softmax` | neuron_network.py:73-77 | Each cell is exp of the cell divided by its column's sum of exps, and that sum is positive. No maximum is subtracted first. |
| `Properties.SoftmaxIsDistribution` | neuron_network.py:73-77 | Every softmax column has entries in (0, 1] that add up to one. |
| `Model.Run` | neuron_network.py:67-71 | After k layers the trace has k + 1 activations and k pre-activations, starts at the input column, and each entry has its layer's shape. |
| `Model.Forward` | neuron_network.py:66-78 | The trace of `forward_for_learning_fast` has `len(layers)+1` activations and `len(layers)` z values, each shaped by its layer. |
| `Properties.RunLayer` | neuron_network.py:69-71 | At every layer i the loop computes `z_i = W_i·a_i + b_i` and `a_(i+1) = f(z_i)`. |
| `Properties.ForwardAtLayer` | neuron_network.py:66-78 | The same per-layer equations hold for the full pass, with softmax applied to the last activation when the flag is set. |
| `Properties.ForwardInput` | neuron_network.py:67 | `a_0` is the input reshaped to a column. |
| `Model.Delta` | neuron_network.py:98-107 | Layer i's error signal has the shape of layer i's bias. |
| `Model.TraceReady` | neuron_network.py:95-97 | A forward trace of an accepted example, together with its one-hot target, is what the backward pass needs, and every activation is a column. |
| `Model.OuterProductsFit` | neuron_network.py:102-109 | Each `delta · a_iᵀ` has the shape of `wights[i]`. |
| `Model.Gradients` | neuron_network.py:94-112 | The gradients of one example have the shapes of `biases` and `wights`, layer by layer. |
| `Model.Backward` | neuron_network.py:100-109 | The output-first lists built by the backward loop hold one entry per layer still to go. |
| `Model.Reversed` | neuron_network.py:110-111 | `reverse()` keeps the length and puts entry `n-1-i` at position i. |
| `Properties.BackpropRecurrence` | neuron_network.py:97-109 | `err_b[i]` is `Delta` at layer i, and `err_w[i] = err_b[i] · a_iᵀ`. `Delta` (model.dfy) is the textbook recurrence: `(a - y) ⊙ f'(z)` at the output layer and `(W_(i+1)ᵀ δ_(i+1)) ⊙ f'(z_i)` below it. |
| `Properties.BackwardEntries` | neuron_network.py:100-109 | Entry k of the output-first lists belongs to layer L-1-k. |
| `Properties.ReversedBiasGradients` | neuron_network.py:110 | The reversed error-signal list is the input-to-output list of bias gradients. |
| `Properties.ReversedWeightGradients` | neuron_network.py:111 | The reversed weight-gradient list is the input-to-output list of weight gradients. |
| `Properties.BackwardIsGradients` | neuron_network.py:94-112 | The backward loop followed by `reverse()` yields exactly the input-to-output gradients. |
| `Model.Argmax` | neuron_network.py:309 | `np.argmax` returns an index in range whose entry is a maximum and comes before every other maximum. |
| `Model.Predicted` | neuron_network.py:316-317 | The predicted class lies in [0, output width). |
| `Model.CountCorrect` | neuron_network.py:305-312 | The count of correct predictions over k pairs is at most k. |
| `Properties.ScoreInPercent` | neuron_network.py:313-314 | `positive / len(values) * 100` lies in [0, 100] when `positive` is at most the number of labels. |
| `Matrices.AddSquaresGrows` | neuron_network.py:173-174 | Adding `np.square` of anything to an accumulator never lowers a cell. |
| `Optimizers.InitialParams` | neuron_network.py:55-64 | From draws in [0, 1), the initial parameters lie in [-scale, scale) with `negative` and in [0, scale) without it, shaped like the draws. |
| `Optimizers.Initial` | neuron_network.py:34-54 | After construction the parameters are the given ones, `init` is false, `old_err_*`, `err_*_square` and `err_*_sum` are all zero matrices shaped by the layer list, and the trackers start at `adam_b1` and `adam_b2` (in [0, 1) for Adam). |
| `Optimizers.AddGrads` | neuron_network.py:131-132 | Adding two gradient lists keeps the parameter shapes. |
| `Optimizers.AddSquares` | neuron_network.py:173-174 | Adding squared gradients keeps the shapes and never lowers a cell. |
| `Optimizers.GradSum` | neuron_network.py:129-132 | The gradient sum over the first k pairs is shaped like the parameters. |
| `Optimizers.SquareSum` | neuron_network.py:169-174 | The squared gradients summed into a start value never fall below that start value, cell by cell. |
| `Optimizers.FreshSquares` | neuron_network.py:199-207 | A batch's squared gradients summed from zero are non-negative. |
| `Optimizers.MomentumUpdate` | neuron_network.py:135-136 | Each cell of the update U is `eta·g/size + p·m`, for summed gradient g and previous update p. |
| `Optimizers.MomentumApply` | neuron_network.py:134-142 | `old_err_*` becomes the momentum update U of this batch's sums and the stored previous update, the parameters become `param − U`, every list stays shaped, and no other field changes. |
| `Optimizers.MomentumStep` | neuron_network.py:126-142 | `momentum_train` keeps every list shaped and leaves `init` and the trackers alone. |
| `Properties.MomentumUpdateWithoutMomentum` | neuron_network.py:135-136 | With momentum 0 the update `eta·G/size + m·P` is `eta·G/size`. |
| `Properties.MomentumWithoutMomentumIsDescent` | neuron_network.py:126-142 | With momentum 0, `momentum_train` sets each parameter to `param − eta·G/size`. |
| `Optimizers.NesterovUpdate` | neuron_network.py:153-154 | Each cell of the update U is `eta·(g + m·p)/size + p·m`. |
| `Optimizers.NesterovApply` | neuron_network.py:152-160 | `old_err_*` becomes the Nesterov update U of this batch's sums and the stored previous update, the parameters become `param − U`, every list stays shaped, and no other field changes. |
| `Optimizers.NesterovStep` | neuron_network.py:144-160 | `nestors_momentum_train` keeps every list shaped and leaves `init` and the trackers alone. |
| `Properties.NesterovUpdateWithoutMomentum` | neuron_network.py:153-154 | With momentum 0 the update `eta·(G + m·P)/size + m·P` is `eta·G/size`. |
| `Properties.NesterovWithoutMomentumIsDescent` | neuron_network.py:144-160 | With momentum 0, `nestors_momentum_train` sets each parameter to `param − eta·G/size`. |
| `Properties.UpdatesFromRest` | neuron_network.py:135-154 | With a zero previous update both rules give the same update, whatever the momentum, and it equals the momentum-0 update. |
| `Properties.NesterovFromRestIsMomentum` | neuron_network.py:126-160 | From a zero previous update, `nestors_momentum_train` makes exactly the move `momentum_train` makes. |
| `Properties.StepFromRestIsPlain` | neuron_network.py:114-160 | A momentum-family mini-batch from rest, followed by `train`'s reset, ends where plain gradient descent ends. |
| `Optimizers.AdaptiveParams` | neuron_network.py:183-193 | Each parameter cell becomes `p − eta·g/size · (1/sqrt(sq + eps))`, and the parameter shapes are kept. |
| `Optimizers.AdagradApply` | neuron_network.py:173-193 | The session accumulators take the loop's sums, and `init` and the trackers are unchanged. |
| `Optimizers.AdagradStep` | neuron_network.py:162-193 | `adagrad_train` keeps every list shaped and leaves `init` and the trackers alone. No cell of `err_b_square`/`err_w_square` goes down. |
| `Optimizers.Blend` | neuron_network.py:209-210 | Each cell becomes `d·old + (1−d)·new`; with d in [0, 1] non-negative inputs give a non-negative result. |
| `Properties.BlendBetween` | neuron_network.py:209-210 | With d in [0, 1] every blended cell lies between its old and its new value. |
| `Optimizers.SeedOrBlend` | neuron_network.py:208-214 | Without `init` the accumulator becomes this batch's values; with it, each cell becomes `d·old + (1−d)·new`. |
| `Optimizers.AdadeltaApply` | neuron_network.py:208-234 | After the Adadelta update `init` is set, the trackers are unchanged and every list stays shaped. |
| `Optimizers.AdadeltaStep` | neuron_network.py:195-234 | `adadelta_train` sets `init`, leaves the trackers alone and keeps every list shaped. |
| `Properties.AdadeltaSeedsThenBlends` | neuron_network.py:208-214 | On a call with `init` false the squares become this batch's sums; otherwise they become `adadelta_y·old + (1−adadelta_y)·new`. `init` ends true. |
| `Optimizers.PowerStep` | neuron_network.py:271-274 | A tracker in [0, 1) multiplied by a decay in [0, 1) stays in [0, 1) and does not grow. |
| `Optimizers.AdamParams` | neuron_network.py:269-277 | Each parameter cell becomes `p − eta/(sqrt(v/(1 − p2)) + eps) · (m/(1 − p1))/size`, with p1 and p2 the tracker values from before the update. The square root's argument is non-negative, and the parameter shapes are kept. |
| `Optimizers.AdamMoments` | neuron_network.py:254-274 | Each of the four moment lists is `SeedOrBlend` of its old value and this batch's value (b2 for squares, b1 for sums), `init` is set, and each tracker is multiplied by its decay. |
| `Properties.AdamSeedsThenBlends` | neuron_network.py:254-265 | On a call with `init` false the sums become this batch's gradient sums and the squares its squared sums; otherwise the sums become `b1·old + (1−b1)·new` and the squares `b2·old + (1−b2)·new`. `init` ends true. |
| `Optimizers.AdamApply` | neuron_network.py:254-277 | After the Adam update `init` is set, the trackers stay in [0, 1) and every list stays shaped. |
| `Optimizers.AdamStep` | neuron_network.py:237-277 | `adam_train` sets `init`, keeps the trackers in [0, 1) and keeps every list shaped. |
| `Properties.AdamStepAdvancesPowers` | neuron_network.py:269-274 | An Adam mini-batch multiplies each tracker by its decay exactly once. |
| `Properties.PowStrictlyDecreasing` | neuron_network.py:271-274 | For 0 < b < 1 every power `b^(n+1)` is positive and strictly below `b^n`. |
| `Properties.PowerTrackerIsBiasCorrection` | neuron_network.py:267-277 | At the k-th Adam mini-batch, with each tracker at `b^(k+1)` (the class invariant `PowersTrack`), the divisor `1 − b^(k+1)` is positive, the weights take the Adam step with moments divided by it, and the trackers end at `b^(k+2)`. `AdamTrain` uses this step to keep the invariant. |
| `Properties.PowInUnit` | neuron_network.py:269-274 | Every positive power of a decay in [0, 1) lies in [0, 1), so `1 − pow` is never zero. |
| `Properties.PowAdd` | neuron_network.py:271-274 | Repeated `*=` adds exponents: `b^(m+n) = b^m · b^n`. |
| `Optimizers.MiniBatchStep` | neuron_network.py:114-124 | `_train_mini_batch` keeps the state well-formed. `init` becomes set exactly when it was set or Adadelta/Adam ran. The trackers change only under Adam. Adagrad's squares never go down. |
| `Optimizers.Shuffle` | neuron_network.py:285-287 | `np.random.shuffle` with given draws keeps the length. |
| `Optimizers.ShuffleDownTracks` | neuron_network.py:284-287 | A shuffle moves elements the way it moves their positions. |
| `Optimizers.ShuffledTracks` | neuron_network.py:284-287 | After the shuffles of any number of epochs, element i of any sequence is element `Origin(i)` of the original. So inputs and labels shuffled with the same draws stay paired. |
| `Optimizers.ShuffledFits` | neuron_network.py:284-287 | Examples and labels shuffled with the same draws still fit the network pairwise. |
| `Properties.ShuffleDownPermutes` | neuron_network.py:285-287 | One shuffle only reorders: the multiset of elements is unchanged. |
| `Properties.ShuffledPermutes` | neuron_network.py:284-287 | After every epoch the arrays hold the caller's elements, reordered. |
| `Optimizers.Slice` | neuron_network.py:289-291 | Python's `xs[b:b+size]` has at most `size` elements. |
| `Optimizers.BatchInside` | neuron_network.py:289-291 | Every start offset `b < int(n/size)` leaves room for `size` examples. |
| `Optimizers.SliceFits` | neuron_network.py:289-291 | Every mini-batch is non-empty, every (example, label) pair of it fits the network, and entry e of both cuts is entry b + e of the inputs and of the labels, so each example sits beside its own label. |
| `Properties.BatchesAreFull` | neuron_network.py:289-291 | Batch b is exactly `xs[b : b+size]` and has `size` elements. |
| `Properties.NumBatchesIsQuotient` | neuron_network.py:289 | The number of batches is `n // size`. |
| `Properties.BatchesOverlap` | neuron_network.py:289-291 | As written, consecutive batches start one example apart, so with `size >= 2` they share an example. |
| `Properties.AsWrittenBatches` | neuron_network.py:289-291 | The as-written list has `n // size` batches and batch b is `xs[b:b+size]`. |
| `Properties.AsWrittenSkipsExamples` | neuron_network.py:289-291 | For 4 examples in batches of 2 the batches are [0, 1] and [1, 2]: example 1 is used twice and example 3 never. |
| `Properties.Batches` | neuron_network.py:289-291 | The intended batches: `n // size` consecutive batches of `size` examples each. |
| `Properties.BatchesPartition` | neuron_network.py:289-291 | Laid end to end, the intended batches are xs minus a tail shorter than `size`. |
| `Optimizers.ResetMomentum` | neuron_network.py:296-297 | `old_err_b`/`old_err_w` become zeros shaped by the layers, and every other field is unchanged. |
| `Optimizers.BatchStep` | neuron_network.py:294-297 | One pass of the inner loop keeps the state well-formed, sets `init` only for Adadelta/Adam, and changes the trackers only under Adam. |
| `Properties.BatchStepEndsAtRest` | neuron_network.py:294-297 | Whatever the optimizer, every pass of the inner loop leaves `old_err` at zero. |
| `Properties.BatchStepFromRestIsPlain` | neuron_network.py:294-297 | For the momentum family from rest, a pass of the inner loop is the plain-descent pass. |
| `Optimizers.Epoch` | neuron_network.py:289-299 | After b batches of an epoch the state is well-formed, and `init` is set exactly when it was before or Adadelta/Adam ran a batch. Adagrad's squares never go down. |
| `Properties.EpochFromRestIsPlain` | neuron_network.py:289-299 | An epoch of the momentum family from rest is an epoch of plain descent and ends at rest. |
| `Optimizers.Train` | neuron_network.py:281-301 | A session keeps the state well-formed, changes the trackers only under Adam, and never lowers Adagrad's squared accumulators. |
| `Properties.TrainSteps` | neuron_network.py:282-299 | A session of e+1 epochs is the e-epoch session followed by every batch of the data shuffled once more. |
| `Properties.TrainFromRestIsPlain` | neuron_network.py:281-301 | A whole session of momentum or Nesterov from rest is a session of plain gradient descent, because of the reset after every batch. |
| `Properties.TrainFromConstructionIsPlain` | neuron_network.py:48-50 | A freshly constructed network has zero previous updates and `init` false, so a momentum or Nesterov session (`train`, neuron_network.py:281-301) started right after construction is plain gradient descent. |
| `Properties.TrainSetsInit` | neuron_network.py:208-214 | After a session, `init` is set exactly when it was set before or Adadelta/Adam ran at least one batch. It never returns to false. |
| `Network.ShuffleInPlace` | neuron_network.py:285-287 | The in-place Fisher-Yates pass leaves the array equal to `Shuffle` of its old contents. |
| `Network.NeuronNetwork.constructor` | neuron_network.py:22-64 | The new network is valid, its state is `Initial` of the scaled draws, and zero Adam batches have run. |
| `Network.NeuronNetwork.ForwardForLearningFast` | neuron_network.py:66-78 | The loop leaves `Forward`'s trace in `activations`/`z_values` and returns the network's output. |
| `Network.NeuronNetwork.ForwardLayer` | neuron_network.py:69-71 | One pass of the forward loop appends layer i's z value and activation. |
| `Network.NeuronNetwork.ForwardForTesting` | neuron_network.py:80-92 | The cache-free loop returns the same output as the training pass. |
| `Network.NeuronNetwork.Backpropagate` | neuron_network.py:94-112 | The cache holds the forward trace, and the returned lists are the input-to-output gradients. |
| `Network.NeuronNetwork.SumGradients` | neuron_network.py:127-132 | The accumulation loop returns the batch's summed gradients. |
| `Network.NeuronNetwork.MomentumTrain` | neuron_network.py:126-142 | The new state is `MomentumStep` of the old one, the network stays valid, and the Adam count is unchanged. |
| `Network.NeuronNetwork.ApplyMomentum` | neuron_network.py:134-142 | The second half of `momentum_train` sets the state to `MomentumApply`. |
| `Network.NeuronNetwork.NestorsMomentumTrain` | neuron_network.py:144-160 | The new state is `NesterovStep` of the old one and the network stays valid. |
| `Network.NeuronNetwork.ApplyNesterov` | neuron_network.py:152-160 | The second half of `nestors_momentum_train` sets the state to `NesterovApply`. |
| `Network.NeuronNetwork.SumGradientsAndSquares` | neuron_network.py:169-174 | The loop returns the summed gradients and the squares added into the given start. |
| `Network.NeuronNetwork.AddExample` | neuron_network.py:170-174 | One pass of that loop adds pair k's gradients and their squares. |
| `Network.NeuronNetwork.AdagradTrain` | neuron_network.py:162-193 | The new state is `AdagradStep` of the old one and the network stays valid. |
| `Network.NeuronNetwork.ApplyAdagrad` | neuron_network.py:182-193 | The second half of `adagrad_train` sets the state to `AdagradApply`. |
| `Network.NeuronNetwork.AdadeltaTrain` | neuron_network.py:195-234 | The new state is `AdadeltaStep` of the old one and the network stays valid. |
| `Network.NeuronNetwork.ApplyAdadelta` | neuron_network.py:208-234 | The seed-or-blend branch and the step set the state to `AdadeltaApply`. |
| `Network.NeuronNetwork.AdamTrain` | neuron_network.py:237-277 | The new state is `AdamStep` of the old one, and the Adam count goes up by one, so the trackers become `b1^(k+1)`/`b2^(k+1)`. |
| `Network.NeuronNetwork.ApplyAdam` | neuron_network.py:254-277 | The second half of `adam_train` sets the state to `AdamApply` and multiplies each tracker by its decay. |
| `Network.NeuronNetwork.BlendMoments` | neuron_network.py:254-264 | `init` becomes true, and each moment is seeded or blended with b2 (squares) or b1 (sums). |
| `Network.NeuronNetwork.CorrectAndDescend` | neuron_network.py:267-277 | The moments are corrected with the trackers' values before the update, each tracker is then multiplied by its decay, and the parameters move. |
| `Network.NeuronNetwork.TrainMiniBatch` | neuron_network.py:114-124 | The new state is `MiniBatchStep` of the old one, and the Adam count goes up exactly when Adam is selected. |
| `Network.NeuronNetwork.Train` | neuron_network.py:281-301 | Both arrays end shuffled by the same draws. The state is the `Train` session of the old state. The Adam count grows by `epochs · n//size` under Adam. |
| `Network.NeuronNetwork.TrainEpoch` | neuron_network.py:282-299 | One epoch shuffles both arrays with one draw and then runs every batch. |
| `Network.NeuronNetwork.RunEpoch` | neuron_network.py:289-299 | The batch loop leaves the state at `Epoch` over all `n // size` batches. |
| `Network.NeuronNetwork.LearnBatch` | neuron_network.py:295-297 | One mini-batch through `_train_mini_batch` followed by the reset is `BatchStep`. |
| `Network.NeuronNetwork.Test` | neuron_network.py:303-314 | With no labels the result is None, where the source divides by zero. Otherwise the score is `CountCorrect / len(values) · 100` and lies in [0, 100]. |
| `Network.NeuronNetwork.Predict` | neuron_network.py:316-317 | The result is the arg-max of the output, below the output width, with an output no smaller than any other. |

## Left out

- Floating point: all arithmetic is over exact reals, with no rounding, overflow, inf or nan. `np.finfo(float).eps` is the exact value 2^-52.
- `np.sqrt`, `np.exp` and the activation pair `function`/`prime` are function parameters. `np.exp` is assumed positive everywhere. `np.sqrt` is assumed non-negative on non-negative arguments and positive on positive ones. Nothing else is assumed about them.
- The activation function and its derivative are applied cell by cell. The source passes the whole column to them (neuron_network.py:71, 85, 100, 106), so activations that mix cells are not modelled.
- Random initialisation (neuron_network.py:55-64) and `np.random.shuffle` (neuron_network.py:284-287): the draws are parameters. The shuffle is modelled as numpy's Fisher-Yates pass with one draw `d[i] <= i` per position. Saving and restoring the generator state is modelled as giving both arrays the same draws.
- `print` progress and reporting (neuron_network.py:283, 299, 304, 313); default argument values.
- numpy broadcasting and `reshape(-1, 1)`: matrices carry explicit shapes, and an input is a sequence of reals that becomes a column.
- Model.ExampleFits: errors numpy raises become preconditions. These are zero layers (IndexError at neuron_network.py:97), an input width different from the first layer's (matmul ValueError), and a label outside `[-size, size)`.
- Network.NeuronNetwork.constructor: requires chained layers and well-behaved exp/sqrt, although `__init__` accepts any layer list. A non-chained list fails later in the forward pass. Adadelta's decay must lie in [0, 1], and Adam's decays in [0, 1), when that optimizer is selected. The real-valued model needs `0 ≤ pow < 1` so that `1 − pow > 0` and the blended squares stay non-negative under the square root. Outside those ranges numpy can produce nan or inf (`adam_b1 = 1` divides by zero), although some values, such as `adam_b1 = 2`, give finite results; the model does not cover them.
- Network.NeuronNetwork.MomentumTrain: every optimizer method requires a non-empty mini-batch. On an empty batch numpy divides by `size == 0` and produces nan weights (neuron_network.py:134-135); `train` never passes one.
- Network.NeuronNetwork.Train: requires `mini_batch_size > 0` when there are epochs (the source raises ZeroDivisionError at neuron_network.py:289, after both arrays were shuffled). It also requires `len(input) == len(values)`, every example accepted by the network, and one list of draws per epoch. `epochs` and `mini_batch_size` are `nat`: in the source a negative `epochs` runs no epoch, and a negative `mini_batch_size` shuffles both arrays every epoch but runs no mini-batch, because `range` of a non-positive bound is empty. The model does not cover those calls.
- Network.NeuronNetwork.Test: the ZeroDivisionError on an empty label list is the `None` result. Every example must fit the network and give a non-empty output.
- Network.NeuronNetwork.Predict: requires a non-empty output column (`np.argmax` of an empty array raises ValueError).
- Pairing by `zip` is modelled with its truncation to the shorter list. The batch size is `len(mini_batch)`, as in the source.

## Findings

| source | as written | input that shows it | evidently intended | confidence | as-written member | corrected member |
|---|---|---|---|---|---|---|
| neuron_network.py:289-291 | `input[b:b + mini_batch_size] for b in range(0, int(n / mini_batch_size))`: batches start at offsets 0, 1, 2, … and overlap | 4 examples, batch size 2: batches are [0, 1] and [1, 2]; example 1 is learned twice per epoch and example 3 never | consecutive disjoint batches `input[k·size : (k+1)·size]`, covering every example except a remainder shorter than `size` | high; not executed | `Properties.AsWrittenSkipsExamples` | `Properties.BatchesPartition` |

The rest of the model (`Optimizers.BatchStep`, `Network.NeuronNetwork.RunEpoch`) keeps the as-written batches, because the model follows the code. `Properties.Batches` and `Properties.BatchesPartition` state what the evidently intended partition would give.
