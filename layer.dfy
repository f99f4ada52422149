// A fully connected layer: weights (in x out), a bias row (1 x out), an
// activation, and the input, output and delta cached between the forward and
// the backward pass. The layer is an object updated in place, so it is a
// class; its methods are proved against pure transitions on a snapshot of its
// fields.
module Layers {
  import opened Matrices
  import opened Activations

  /** z with the single row b added to every one of its rows. */
  function BiasAdded(z: Matrix, b: Matrix): (r: Matrix)
    requires z.Valid() && b.Valid() && b.rows == 1 && b.cols == z.cols
    ensures r.Valid() && r.rows == z.rows && r.cols == z.cols
    ensures forall i, j :: 0 <= i < r.rows && 0 <= j < r.cols ==> r.data[i][j] == z.data[i][j] + b.data[0][j]
  {
    Matrix(seq(z.rows, i requires 0 <= i < z.rows =>
             seq(z.cols, j requires 0 <= j < z.cols => z.data[i][j] + b.data[0][j])),
           z.rows, z.cols)
  }

  /** Column j of d, top to bottom. */
  function Column(d: Matrix, j: nat): (c: seq<real>)
    requires d.Valid() && j < d.cols
    ensures |c| == d.rows
    ensures forall i :: 0 <= i < d.rows ==> c[i] == d.data[i][j]
  {
    seq(d.rows, i requires 0 <= i < d.rows => d.data[i][j])
  }

  /** The bias gradient: a single row whose entry j sums column j of d. */
  function ColumnSums(d: Matrix): (r: Matrix)
    requires d.Valid()
    ensures r.Valid() && r.rows == 1 && r.cols == d.cols
    ensures forall j :: 0 <= j < d.cols ==> r.data[0][j] == Total(Column(d, j))
  {
    Matrix([seq(d.cols, j requires 0 <= j < d.cols => Total(Column(d, j)))], 1, d.cols)
  }

  /** The weight gradient input^T . delta. */
  function WeightGradient(input: Matrix, delta: Matrix): (g: Matrix)
    requires input.Valid() && delta.Valid() && input.rows == delta.rows
    ensures g.Valid() && g.rows == input.cols && g.cols == delta.cols
    ensures forall i, j :: 0 <= i < g.rows && 0 <= j < g.cols ==>
              g.data[i][j] == Inner(Transposed(input), delta, i, j)
  {
    Product(Transposed(input), delta)
  }

  /** What a pass leaves behind: the layer's new fields and what the call returns. */
  datatype Outcome = Outcome(after: LayerState, out: Result<Matrix>)

  /** A snapshot of a layer's fields. */
  datatype LayerState = LayerState(
    activation: Activation,
    weights: Matrix,
    bias: Matrix,
    input: Matrix,
    output: Matrix,
    delta: Matrix)
  {
    /** Every matrix is well formed, the bias is one row as wide as the weights,
        and the cached output and delta are as wide as the weights too. */
    predicate Valid()
    {
      weights.Valid() && bias.Valid() && input.Valid() && output.Valid() && delta.Valid() &&
      bias.rows == 1 && bias.cols == weights.cols &&
      output.cols == weights.cols && delta.cols == weights.cols
    }

    /** The forward pass: the input is cached before the product is attempted,
        so it is cached even when the product fails; on success the output is
        activation(x . weights + bias) with the bias added to every row. */
    function Forward(x: Matrix): (r: Outcome)
      requires Valid() && x.Valid()
      ensures r.after.Valid()
      ensures r.after.input == x
      ensures r.after.activation == activation && r.after.weights == weights &&
              r.after.bias == bias && r.after.delta == delta
      ensures r.out.Err? <==> x.cols != weights.rows
      ensures r.out.Err? ==> r.out.error == MultiplyMismatch && r.after.output == output
      ensures r.out.Ok? ==> r.out.value == r.after.output
      ensures r.out.Ok? ==> r.after.output.rows == x.rows && r.after.output.cols == weights.cols
      ensures r.out.Ok? ==> forall i, j :: 0 <= i < x.rows && 0 <= j < weights.cols ==>
                r.after.output.data[i][j] == activation.Unit(Inner(x, weights, i, j) + bias.data[0][j])
    {
      if x.cols != weights.rows then
        Outcome(this.(input := x), Err(MultiplyMismatch))
      else
        var y := activation.Applied(BiasAdded(Product(x, weights), bias));
        Outcome(this.(input := x, output := y), Ok(y))
    }

    /** The backward pass. delta = error o activation'(output) is cached; then
        weights and bias take a gradient step of size lr, and the error for
        the previous layer is propagated through the weights as UPDATED. A
        failure leaves everything assigned before it in place. */
    function Backward(error: Matrix, lr: real): (r: Outcome)
      requires Valid() && error.Valid()
      ensures r.after.Valid()
      ensures r.after.activation == activation && r.after.input == input && r.after.output == output
      ensures r.out.Err? <==>
                error.rows != output.rows || error.cols != output.cols ||
                input.rows != output.rows || input.cols != weights.rows
      ensures (error.rows != output.rows || error.cols != output.cols) ==>
                r.out == Err(HadamardMismatch) && r.after == this
      ensures (error.rows == output.rows && error.cols == output.cols) ==>
                r.after.delta.rows == output.rows && r.after.delta.cols == output.cols &&
                forall i, j :: 0 <= i < output.rows && 0 <= j < output.cols ==>
                  r.after.delta.data[i][j] == error.data[i][j] * activation.UnitSlope(output.data[i][j])
      ensures error.rows == output.rows && error.cols == output.cols && input.rows != output.rows ==>
                r.out == Err(MultiplyMismatch)
      ensures error.rows == output.rows && error.cols == output.cols && input.rows == output.rows &&
              input.cols != weights.rows ==>
                r.out == Err(SubtractMismatch)
      ensures r.out.Err? ==> r.after.weights == weights && r.after.bias == bias
      ensures r.out.Ok? ==>
                r.after.weights == Minus(weights, Scaled(WeightGradient(input, r.after.delta), lr)) &&
                r.after.bias == Minus(bias, Scaled(ColumnSums(r.after.delta), lr))
      ensures r.out.Ok? ==>
                r.out.value == Product(r.after.delta, Transposed(r.after.weights)) &&
                r.out.value.rows == error.rows && r.out.value.cols == weights.rows
    {
      var g := activation.Gradient(output);
      if error.rows != g.rows || error.cols != g.cols then
        Outcome(this, Err(HadamardMismatch))
      else
        var d := Schur(error, g);
        if input.rows != d.rows then
          Outcome(this.(delta := d), Err(MultiplyMismatch))
        else if input.cols != weights.rows then
          Outcome(this.(delta := d), Err(SubtractMismatch))
        else
          var w := Minus(weights, Scaled(WeightGradient(input, d), lr));
          var b := Minus(bias, Scaled(ColumnSums(d), lr));
          Outcome(this.(weights := w, bias := b, delta := d), Ok(Product(d, Transposed(w))))
    }
  }

  /** The bias loop of the forward pass: bias.at(0, j) is added in place to
      every entry of column j of z. */
  method AddBias(z: Matrix, b: Matrix) returns (r: Matrix)
    requires z.Valid() && b.Valid() && b.rows == 1 && b.cols == z.cols
    ensures r == BiasAdded(z, b)
  {
    r := z;
    for i := 0 to z.rows
      invariant r.Valid() && r.rows == z.rows && r.cols == z.cols
      invariant forall p, q :: 0 <= p < i && 0 <= q < z.cols ==> r.data[p][q] == z.data[p][q] + b.data[0][q]
      invariant forall p, q :: i <= p < z.rows && 0 <= q < z.cols ==> r.data[p][q] == z.data[p][q]
    {
      for j := 0 to z.cols
        invariant r.Valid() && r.rows == z.rows && r.cols == z.cols
        invariant forall p, q :: 0 <= p < i && 0 <= q < z.cols ==> r.data[p][q] == z.data[p][q] + b.data[0][q]
        invariant forall q :: 0 <= q < j ==> r.data[i][q] == z.data[i][q] + b.data[0][q]
        invariant forall q :: j <= q < z.cols ==> r.data[i][q] == z.data[i][q]
        invariant forall p, q :: i < p < z.rows && 0 <= q < z.cols ==> r.data[p][q] == z.data[p][q]
      {
        r := r.SetAt(i, j, r.At(i, j) + b.At(0, j));
      }
    }
    EqualByEntries(r, BiasAdded(z, b));
  }

  /** The bias-gradient loop of the backward pass: entry j of the single row
      is the sum of column j of d, accumulated from the top. */
  method BiasGradient(d: Matrix) returns (g: Matrix)
    requires d.Valid()
    ensures g == ColumnSums(d)
  {
    g := Zeros(1, d.cols);
    for j := 0 to d.cols
      invariant g.Valid() && g.rows == 1 && g.cols == d.cols
      invariant forall q :: 0 <= q < j ==> g.data[0][q] == Total(Column(d, q))
    {
      ghost var column := Column(d, j);
      var sum := 0.0;
      for i := 0 to d.rows
        invariant sum == Total(column[..i])
      {
        assert column[..i + 1][..i] == column[..i];
        sum := sum + d.At(i, j);
      }
      assert column[..d.rows] == column;
      g := g.SetAt(0, j, sum);
    }
    EqualByEntries(g, ColumnSums(d));
  }

  class Layer {
    const activation: Activation
    var weights: Matrix
    var bias: Matrix
    var input: Matrix
    var output: Matrix
    var delta: Matrix

    /** The fields as a value. */
    function State(): LayerState
      reads this
    {
      LayerState(activation, weights, bias, input, output, delta)
    }

    ghost predicate Valid()
      reads this
    {
      State().Valid()
    }

    /** A layer of inputSize inputs and outputSize outputs. The initial weights
        and bias are supplied by the caller; the caches start as zero rows. */
    constructor(inputSize: nat, outputSize: nat, act: Activation, initialWeights: Matrix, initialBias: Matrix)
      requires initialWeights.Valid() && initialWeights.rows == inputSize && initialWeights.cols == outputSize
      requires initialBias.Valid() && initialBias.rows == 1 && initialBias.cols == outputSize
      ensures Valid()
      ensures activation == act && weights == initialWeights && bias == initialBias
      ensures input == Zeros(1, inputSize) && output == Zeros(1, outputSize) && delta == Zeros(1, outputSize)
    {
      activation := act;
      weights := initialWeights;
      bias := initialBias;
      input := Zeros(1, inputSize);
      output := Zeros(1, outputSize);
      delta := Zeros(1, outputSize);
    }

    method Forward(x: Matrix) returns (r: Result<Matrix>)
      requires Valid() && x.Valid()
      modifies this
      ensures Valid()
      ensures State() == old(State()).Forward(x).after
      ensures r == old(State()).Forward(x).out
    {
      input := x;
      var product := x.Dot(weights);
      if product.Err? {
        return Err(product.error);
      }
      var z := AddBias(product.value, bias);
      output := activation.Forward(z);
      return Ok(output);
    }

    method Backward(error: Matrix, lr: real) returns (r: Result<Matrix>)
      requires Valid() && error.Valid()
      modifies this
      ensures Valid()
      ensures State() == old(State()).Backward(error, lr).after
      ensures r == old(State()).Backward(error, lr).out
    {
      var slope := activation.Backward(output);
      var local := error.Hadamard(slope);
      if local.Err? {
        return Err(local.error);
      }
      var d := local.value;
      delta := d;

      var inputT := input.Transpose();
      var gradient := inputT.Dot(d);
      if gradient.Err? {
        return Err(gradient.error);
      }

      var biasGradient := BiasGradient(d);

      var weightStep := gradient.value.Scale(lr);
      var newWeights := weights.Subtract(weightStep);
      if newWeights.Err? {
        return Err(newWeights.error);
      }
      weights := newWeights.value;
      var biasStep := biasGradient.Scale(lr);
      var newBias := bias.Subtract(biasStep);
      bias := newBias.value;

      var weightsT := weights.Transpose();
      r := d.Dot(weightsT);
    }
  }

  // ---------------------------------------------------------------------------
  // Properties of a layer's passes.

  /** With a learning rate of zero, backward leaves weights and bias as they
      were, and the propagated error is the textbook delta . weights^T. */
  lemma ZeroRateKeepsParameters(s: LayerState, error: Matrix)
    requires s.Valid() && error.Valid()
    ensures s.Backward(error, 0.0).after.weights == s.weights
    ensures s.Backward(error, 0.0).after.bias == s.bias
    ensures s.Backward(error, 0.0).out.Ok? ==>
              s.Backward(error, 0.0).out.value == Product(s.Backward(error, 0.0).after.delta, Transposed(s.weights))
  {
    var r := s.Backward(error, 0.0);
    if r.out.Ok? {
      MinusScaledByZero(s.weights, WeightGradient(s.input, r.after.delta));
      MinusScaledByZero(s.bias, ColumnSums(r.after.delta));
    }
  }

  /** Because the error is propagated through the weights after their update,
      it differs from the textbook delta . weights^T by
      lr * delta . (delta^T . input). */
  lemma PropagationUsesUpdatedWeights(s: LayerState, error: Matrix, lr: real)
    requires s.Valid() && error.Valid() && s.Backward(error, lr).out.Ok?
    ensures var d := s.Backward(error, lr).after.delta;
            s.Backward(error, lr).out.value ==
              Minus(Product(d, Transposed(s.weights)), Scaled(Product(d, Product(Transposed(d), s.input)), lr))
  {
    var d := s.Backward(error, lr).after.delta;
    var g := WeightGradient(s.input, d);
    TransposeOfUpdate(s.weights, g, lr);
    ProductTranspose(Transposed(s.input), d);
    TransposeInvolution(s.input);
    ProductDistributesOverUpdate(d, Transposed(s.weights), Transposed(g), lr);
  }

  /** A two-input, one-output ReLU layer whose weights are both 1 and whose bias is 0. */
  function SumLayer(): (s: LayerState)
    ensures s.Valid() && s.weights.rows == 2 && s.weights.cols == 1
  {
    LayerState(ReLU, FromRows([[1.0], [1.0]]), FromRows([[0.0]]), Zeros(1, 2), Zeros(1, 1), Zeros(1, 1))
  }

  /** Forward of [[3, 4]] through SumLayer gives [[7]]. */
  lemma SumLayerPositiveInput()
    ensures SumLayer().Forward(FromRows([[3.0, 4.0]])).out == Ok(FromRows([[7.0]]))
  {
    var x := FromRows([[3.0, 4.0]]);
    var t := RowTimesColumn(x, SumLayer().weights, 0, 0);
    assert t == [3.0, 4.0];
    assert t[..1] == [t[0]] && t[..1][..0] == [];
    assert Total(t[..1]) == Total(t[..1][..0]) + t[0] == 3.0;
    assert Total(t) == Total(t[..1]) + t[1];
    assert Inner(x, SumLayer().weights, 0, 0) == 7.0;
    var y := SumLayer().Forward(x).out.value;
    assert y.data[0][0] == ReLU.Unit(7.0 + 0.0);
    EqualByEntries(y, FromRows([[7.0]]));
  }

  /** Forward of [[-3, -4]] through SumLayer gives [[0]]: the pre-activation
      is -7 and ReLU cuts it to zero. */
  lemma SumLayerNegativeInput()
    ensures SumLayer().Forward(FromRows([[-3.0, -4.0]])).out == Ok(FromRows([[0.0]]))
  {
    var x := FromRows([[-3.0, -4.0]]);
    var t := RowTimesColumn(x, SumLayer().weights, 0, 0);
    assert t == [-3.0, -4.0];
    assert t[..1] == [t[0]] && t[..1][..0] == [];
    assert Total(t[..1]) == Total(t[..1][..0]) + t[0] == -3.0;
    assert Total(t) == Total(t[..1]) + t[1];
    assert Inner(x, SumLayer().weights, 0, 0) == -7.0;
    var y := SumLayer().Forward(x).out.value;
    assert y.data[0][0] == ReLU.Unit(-7.0 + 0.0);
    EqualByEntries(y, FromRows([[0.0]]));
  }
}
