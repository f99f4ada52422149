# A verified model of a small C++ neural-network engine

This project models the core of a header-only C++ library that trains a
fully connected neural network on exclusive-or. The model is written in
Dafny. It covers:

- the dense matrix type and its shape-checked algebra;
- the ReLU and Sigmoid activations;
- the mean-squared-error loss;
- the fully connected layer, with its cached input, output and delta;
- the network that chains layers forward and sweeps them backward;
- the thresholded accuracy metric.

`double` is modelled as exact `real`. The model therefore captures the
algebra and the shape rules, not rounding.

Modules, one per header:

- `Matrices` (`matrix.dfy`): `Matrix` is a value, as in C++ where a matrix
  is copied deeply.
  - Each operation is a method. It starts from a zero matrix of the result
    shape and fills it in nested loops.
  - Each method is proved equal to a pure reference function (`Product`,
    `Schur`, `Transposed`, `Plus`, `Minus`, `Scaled`).
  - A C++ exception becomes `Err` of a `MatrixError`, one kind per
    operation that checks shapes.
- `Activations` (`activation.dfy`): the two activations are variants of one
  datatype.
  - Sigmoid carries its logistic function as a parameter, because `exp`
    has no exact counterpart.
- `Losses` (`loss.dfy`): `Calculate` is the accumulating double loop. The
  gradient is the expression `(P - E) * (2 / (rows * cols))`.
  - `DerivativeIsSlopeOfLoss` ties the gradient to the loss. Over exact
    reals the loss is quadratic in each entry. Moving one entry by `h`
    therefore changes it by exactly `h` times the gradient's entry plus
    `h^2 / (rows * cols)`.
- `Metrics` (`metrics.dfy`): the counting loop of `accuracy`.
- `Layers` (`layer.dfy`): `Layer` is a class whose methods reassign its
  fields.
  - Its methods are proved against `LayerState.Forward` and
    `LayerState.Backward`, pure transitions on a snapshot of the fields.
  - A failure keeps every field assigned before the failing operation, as
    an exception does in C++.
  - The backward pass propagates the error through the weights *after*
    their update, as the source does (src/layer.hpp:75-79).
    `PropagationUsesUpdatedWeights` states exactly how far this is from
    the textbook rule.
  - The activation derivative is taken at the cached *output*, as the
    source does.
- `Networks` (`network.dfy`): `Network` is a class holding a sequence of
  layer objects.
  - The forward pass is proved against the fold `Run`. The reverse sweep is
    proved against the fold `Sweep`. Both are folds over layer snapshots.
  - Each layer call is a step method that touches only its own layer.

The code makes no check in four places; the model states each one as a
precondition:

- The code checks neither bounds in `at` nor emptiness and
  rectangularity in the nested-vector constructor. Both are
  preconditions here, not errors.
- `MSE::calculate` and `Metrics::accuracy` never compare shapes. Both
  only require that `expected` covers the index range of `predicted`.

## Model

| member | source | states |
|---|---|---|
| Matrices.Zeros | src/matrix.hpp:20-22 | a rows x cols matrix whose every entry is 0 |
| Matrices.FromRows | src/matrix.hpp:25-28 | rows and cols are taken from the input, whose first row fixes the width; every entry is read back unchanged; a non-empty, rectangular input is required because nothing is checked |
| Matrices.Matrix.At | src/matrix.hpp:139-140 | reading at(i, j) yields data[i][j], and only in range, since there is no bounds check |
| Matrices.Matrix.SetAt | src/matrix.hpp:139 | writing through at(i, j) changes entry (i, j) and no other entry, and keeps the shape |
| Matrices.Product | src/matrix.hpp:47-63 | the product has shape rows x other.cols, and entry (i, j) is the sum over k of a[i][k] * b[k][j] |
| Matrices.Matrix.Dot | src/matrix.hpp:47-63 | fails with MultiplyMismatch exactly when cols != other.rows; otherwise the triple loop yields the product |
| Matrices.Schur | src/matrix.hpp:68-79 | same shape, entry (i, j) is a[i][j] * b[i][j] |
| Matrices.Matrix.Hadamard | src/matrix.hpp:68-79 | fails with HadamardMismatch exactly when the shapes differ; otherwise the loop yields the elementwise product |
| Matrices.Transposed | src/matrix.hpp:84-92 | shape cols x rows, entry [j][i] is this[i][j] |
| Matrices.Matrix.Transpose | src/matrix.hpp:84-92 | never fails; the loop yields the transpose |
| Matrices.Plus | src/matrix.hpp:96-108 | same shape, entrywise sum |
| Matrices.Matrix.Add | src/matrix.hpp:96-108 | fails with AddMismatch exactly when the shapes differ; otherwise the entrywise sum |
| Matrices.Minus | src/matrix.hpp:112-124 | same shape, entrywise difference |
| Matrices.Matrix.Subtract | src/matrix.hpp:112-124 | fails with SubtractMismatch exactly when the shapes differ; otherwise the entrywise difference |
| Matrices.Scaled | src/matrix.hpp:128-136 | same shape, every entry multiplied by the scalar |
| Matrices.Matrix.Scale | src/matrix.hpp:128-136 | never fails; the loop yields every entry times the scalar |
| Matrices.TransposeInvolution | src/matrix.hpp:84-92 | transposing twice gives back the original |
| Matrices.SchurCommutes | src/matrix.hpp:68-79 | the Hadamard product is commutative |
| Matrices.PlusCommutes | src/matrix.hpp:96-108 | addition is commutative |
| Matrices.SubtractThenAdd | src/matrix.hpp:96-124 | (A - B) + B == A |
| Matrices.MinusSelf | src/matrix.hpp:112-124 | A - A is the zero matrix of A's shape |
| Matrices.ScaleByOne | src/matrix.hpp:128-136 | A * 1 == A |
| Matrices.MinusScaledByZero | src/layer.hpp:75-76 | a gradient step with rate 0 changes nothing: A - B * 0 == A |
| Matrices.TransposeOfUpdate | src/layer.hpp:75-79 | transposing the updated weights transposes both terms of the update |
| Matrices.ProductTranspose | src/matrix.hpp:47-92 | (A . B)^T == B^T . A^T |
| Matrices.ProductDistributesOverUpdate | src/layer.hpp:75-79 | D . (W - G * c) == D . W - (D . G) * c |
| Activations.Activation.Applied | src/activation.hpp:29-37 | forward keeps the shape and maps each entry by max(0, v) for ReLU, by the logistic function for Sigmoid |
| Activations.Activation.Gradient | src/activation.hpp:41-49 | backward keeps the shape and maps each entry by the derivative of the variant |
| Activations.Activation.Forward | src/activation.hpp:29-68 | the forward loop of either variant yields Applied: for ReLU (lines 29-37) every entry max(0, x), for Sigmoid (lines 60-68) every entry the logistic of x |
| Activations.Activation.Backward | src/activation.hpp:41-81 | the backward loop of either variant yields Gradient: for ReLU (lines 41-49) every entry 1 where x > 0 and 0 elsewhere, for Sigmoid (lines 72-81) s * (1 - s) of a forward run |
| Activations.ReluForward | src/activation.hpp:29-37 | ReLU forward keeps the shape, each entry is max(0, x) and is never negative |
| Activations.ReluIdempotent | src/activation.hpp:33 | ReLU forward applied twice equals applied once |
| Activations.ReluBackward | src/activation.hpp:41-49 | an entry of ReLU backward is 1 exactly when x > 0 and 0 exactly when x <= 0, including at 0 |
| Activations.ReluBackwardOfOutput | src/activation.hpp:33-45 | ReLU backward of the forward output equals ReLU backward of the input |
| Activations.SigmoidBackwardStructure | src/activation.hpp:60-81 | Sigmoid forward and backward keep the shape; backward's entry is s * (1 - s) with s the forward value at that position |
| Activations.SigmoidBounds | src/activation.hpp:59-71 | for a logistic function into (0, 1), forward lies in (0, 1) and backward in (0, 1/4] |
| Losses.Loss.Calculate | src/loss.hpp:27-37 | the nested loop returns the sum of squared differences over all rows x cols positions, divided by rows * cols |
| Losses.Loss.Derivative | src/loss.hpp:41-44 | fails with the subtraction's SubtractMismatch exactly when the shapes differ; otherwise the result has P's shape and entry (P[i][j] - E[i][j]) * 2 / (rows * cols); DerivativeIsSlopeOfLoss proves it is the derivative of MeanSquaredError |
| Losses.MseNonNegative | src/loss.hpp:31-36 | the loss is never negative |
| Losses.MseAtTarget | src/loss.hpp:31-32 | the loss of a prediction against itself is 0 |
| Losses.MsePositiveOffTarget | src/loss.hpp:31-36 | one differing entry makes the loss strictly positive |
| Losses.MseZeroIffEqual | src/loss.hpp:27-37 | for equal shapes the loss is 0 exactly when the two matrices are equal |
| Losses.MseSymmetric | src/loss.hpp:31-32 | the loss is symmetric in its two arguments |
| Losses.DerivativeAtTarget | src/loss.hpp:43 | the gradient at a perfect prediction is the zero matrix |
| Losses.DerivativeIsSlopeOfLoss | src/loss.hpp:39-44 | the gradient is the derivative of the loss: moving entry (i, j) of P by any h changes MeanSquaredError(P, E) by exactly h * Derivative(P, E)[i][j] + h^2 / (rows * cols), for same-shaped P and E |
| Metrics.RowCorrect | src/utils.hpp:48-53 | the count of agreeing positions in a row prefix is at most its length; it equals the length exactly when all agree and is 0 exactly when none do |
| Metrics.Correct | src/utils.hpp:47-54 | the count over the first m rows is at most m * cols; it equals that exactly when all agree and is 0 exactly when none do |
| Metrics.Accuracy | src/utils.hpp:42-58 | the counting loop returns the agreeing positions over rows * cols; the threshold defaults to 0.5 |
| Metrics.AccuracyBounds | src/utils.hpp:44-57 | the accuracy of a non-empty prediction lies in [0, 1] |
| Metrics.AccuracyOneIffAllAgree | src/utils.hpp:47-57 | the accuracy is 1 exactly when every position agrees under the threshold |
| Metrics.AccuracyZeroIffNoneAgree | src/utils.hpp:47-57 | the accuracy is 0 exactly when no position agrees |
| Metrics.AccuracyOfSelf | src/utils.hpp:50-52 | a prediction scored against itself has accuracy 1 for any threshold |
| Layers.BiasAdded | src/layer.hpp:43-47 | the bias row is added to every row: entry (i, j) gains bias[0][j] |
| Layers.AddBias | src/layer.hpp:43-47 | the in-place bias loop yields BiasAdded |
| Layers.WeightGradient | src/layer.hpp:62 | input^T . delta, of shape in x out |
| Layers.ColumnSums | src/layer.hpp:65-72 | a single row whose entry j is the sum of column j of delta |
| Layers.BiasGradient | src/layer.hpp:65-72 | the accumulating column loop yields ColumnSums |
| Layers.LayerState.Forward | src/layer.hpp:37-52 | the input is cached even when the product fails; fails with MultiplyMismatch exactly when x.cols != weights.rows, leaving the output; otherwise returns the new cached output, whose entry (i, j) is activation(sum_k x[i][k] * W[k][j] + bias[0][j]); weights, bias and delta are kept |
| Layers.LayerState.Backward | src/layer.hpp:56-80 | a mismatched error changes nothing; otherwise delta = error o activation'(output) is cached; a product or subtraction failure keeps the parameters; on success weights = W - lr * input^T . delta, bias = b - lr * column sums, and the result is delta . (new weights)^T of shape batch x in; input and output are kept |
| Layers.Layer.constructor | src/layer.hpp:21-33 | weights in x out and bias 1 x out, both supplied by the caller; caches 1 x in, 1 x out, 1 x out of zeros |
| Layers.Layer.Forward | src/layer.hpp:37-52 | the method's new fields and result are exactly those of LayerState.Forward |
| Layers.Layer.Backward | src/layer.hpp:56-80 | the method's new fields and result are exactly those of LayerState.Backward |
| Layers.ZeroRateKeepsParameters | src/layer.hpp:62-79 | with rate 0 the weights and bias stay as they were, and the result is delta . W^T |
| Layers.PropagationUsesUpdatedWeights | src/layer.hpp:75-79 | the propagated error is delta . W^T - lr * delta . (delta^T . input), not the textbook delta . W^T |
| Layers.SumLayerPositiveInput | src/layer.hpp:37-52 | a ReLU layer with weights [[1],[1]] and bias [[0]] maps [[3, 4]] to [[7]] |
| Layers.SumLayerNegativeInput | src/layer.hpp:37-52 | the same layer maps [[-3, -4]] to [[0]] |
| Networks.Run | src/neural_network.hpp:32-39 | with no layers left the input is returned unchanged; otherwise a successful pass returns the last layer's new cached output, with as many rows as the input; only caches change, never activations, weights or biases |
| Networks.Sweep | src/neural_network.hpp:49-51 | the reverse sweep keeps every layer's activation, cached input and cached output |
| Networks.Backprop | src/neural_network.hpp:43-55 | the backward pass keeps the number of layers and their validity |
| Networks.Network.constructor | src/neural_network.hpp:21-22 | a new network has the given loss and no layers |
| Networks.Network.AddLayer | src/neural_network.hpp:26-28 | the layer is appended at the end; earlier layers and their order are unchanged |
| Networks.Network.ForwardStep | src/neural_network.hpp:35-37 | one layer's forward changes only that layer, so the rest of the fold continues from the next layer |
| Networks.Network.Forward | src/neural_network.hpp:32-39 | the loop's new layer states and result are exactly the fold Run of the layers' forward passes in order |
| Networks.Network.Predict | src/neural_network.hpp:66-68 | prediction is the forward pass: same result, same cache updates |
| Networks.Network.BackwardStep | src/neural_network.hpp:49-51 | one layer's backward changes only that layer, so the rest of the sweep continues from the layer before |
| Networks.Network.SweepLayers | src/neural_network.hpp:49-51 | the reverse loop's new layer states and result are exactly the fold Sweep, each layer fed the error the layer after it returned |
| Networks.Network.Backward | src/neural_network.hpp:43-55 | the gradient at the last cached output starts the sweep; the new states and reported loss are exactly those of Backprop |
| Networks.Network.Train | src/neural_network.hpp:59-62 | the forward pass then the backward pass; the new states and loss are those of Training |
| Networks.RunIgnoresCaches | src/neural_network.hpp:32-39 | the forward result depends only on activations, weights and biases, never on cached values |
| Networks.PredictRepeatable | src/neural_network.hpp:66-68 | predicting twice on the same input gives the same result |
| Networks.SweepAtZeroRate | src/neural_network.hpp:49-51 | a sweep at learning rate 0 leaves every layer's activation, weights and bias unchanged |
| Networks.BackwardReportsForwardLoss | src/neural_network.hpp:54 | the reported loss is the loss of the last output cached by the forward pass, because layer backward never changes its output |
| Networks.TrainReportsPreUpdateLoss | src/neural_network.hpp:59-62 | a training step reports the loss of the forward result against the expectation, measured before any parameter moved |

## Left out

- `Matrix::randomize` and the random initialisation in the `Layer` constructor use a hardware random source. The constructor takes its initial weights and bias as arguments instead.
- `Matrix::print` is console output.
- `getRows`/`getCols` and the layer accessors `getWeights`, `getBias`, `getOutput` and `getDelta` are the datatype's and the class's fields.
- `std::exp` is a floating-point transcendental. Sigmoid takes its logistic function as a parameter, and `SigmoidBounds` assumes only that it maps into (0, 1).
- Floating-point rounding, overflow, infinities and NaN are not modelled: every value is an exact `real`. The `size_t` product `rows * cols` is unbounded.
- Losses.Loss.Calculate: requires a non-empty `predicted`, because the source divides 0 by 0 (NaN) for an empty one. It also requires `expected` to cover `predicted`, because the source reads out of range otherwise.
- Metrics.Accuracy: the same two requirements, for the same reasons.
- Losses.Loss.Derivative: for an empty `predicted` the source's factor is 2 / 0 (infinity). The model uses 0. The scaled matrix has no entries, so the result is the same.
- Networks.Network.Backward: requires at least one layer (the source reads `layers.back()`) and a non-empty last output (the NaN loss above).
- Networks.Network.Train: requires a non-empty input batch and a non-empty last layer, so that the last output is non-empty.
- Networks.Network.AddLayer: requires a layer object not already in the network. Sharing one layer object twice through `shared_ptr` aliasing is not modelled.
- Virtual dispatch over `ActivationFunction` and `LossFunction` is replaced by datatype variants. MSE is the only loss.
- `DataGenerator::generateXORData` and `src/main.cpp` are not part of this model. The first depends on a random source. The second is the driver loop with its printing.
- Whether training converges on exclusive-or depends on floating-point behaviour over many steps; it is not stated.
