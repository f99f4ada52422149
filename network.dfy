// A network: a list of layers run front to back on the forward pass and back
// to front on the backward pass, with a loss measured on the last layer's
// cached output. The network owns a growing list of layer objects, so it is a
// class; its passes are proved against pure folds over snapshots of its layers.
module Networks {
  import opened Matrices
  import opened Losses
  import opened Layers

  /** What a pass over all layers leaves behind: their new snapshots and the result. */
  datatype Pass = Pass(after: seq<LayerState>, out: Result<Matrix>)

  /** What a backward pass or a training step leaves behind: the layers' new
      snapshots and the reported loss. */
  datatype Report = Report(after: seq<LayerState>, loss: Result<real>)

  ghost predicate AllValid(ss: seq<LayerState>)
  {
    forall k :: 0 <= k < |ss| ==> ss[k].Valid()
  }

  /** Two lists of layers with the same activations, weights and biases: they
      differ at most in their caches. */
  ghost predicate SameParameters(ss: seq<LayerState>, ts: seq<LayerState>)
  {
    |ss| == |ts| &&
    forall k :: 0 <= k < |ss| ==>
      ss[k].activation == ts[k].activation && ss[k].weights == ts[k].weights && ss[k].bias == ts[k].bias
  }

  /** The forward pass from layer i on: each layer's forward in order, each
      fed the previous result; the first failure stops the pass, leaving the
      later layers untouched. */
  function Run(ss: seq<LayerState>, i: nat, current: Matrix): (r: Pass)
    requires AllValid(ss) && i <= |ss| && current.Valid()
    ensures |r.after| == |ss| && AllValid(r.after)
    ensures SameParameters(ss, r.after)
    ensures forall k :: 0 <= k < |ss| ==> r.after[k].delta == ss[k].delta
    ensures i == |ss| ==> r == Pass(ss, Ok(current))
    ensures r.out.Ok? && i < |ss| ==>
              r.out.value == r.after[|ss| - 1].output &&
              r.out.value.cols == ss[|ss| - 1].weights.cols
    ensures r.out.Ok? && i < |ss| ==> r.out.value.rows == current.rows
    decreases |ss| - i
  {
    if i == |ss| then Pass(ss, Ok(current))
    else
      var o := ss[i].Forward(current);
      if o.out.Err? then Pass(ss[i := o.after], o.out)
      else Run(ss[i := o.after], i + 1, o.out.value)
  }

  /** The network's forward pass over all layers. */
  function Propagate(ss: seq<LayerState>, x: Matrix): (r: Pass)
    requires AllValid(ss) && x.Valid()
  {
    Run(ss, 0, x)
  }

  /** The backward sweep over layers i-1 down to 0: each layer's backward fed
      the error the layer after it returned; the first failure stops the
      sweep, leaving the earlier layers untouched. The cached inputs and
      outputs survive. */
  function Sweep(ss: seq<LayerState>, i: nat, error: Matrix, lr: real): (r: Pass)
    requires AllValid(ss) && i <= |ss| && error.Valid()
    ensures |r.after| == |ss| && AllValid(r.after)
    ensures forall k :: 0 <= k < |ss| ==>
              r.after[k].activation == ss[k].activation &&
              r.after[k].input == ss[k].input && r.after[k].output == ss[k].output
    decreases i
  {
    if i == 0 then Pass(ss, Ok(error))
    else
      var o := ss[i - 1].Backward(error, lr);
      if o.out.Err? then Pass(ss[i - 1 := o.after], o.out)
      else Sweep(ss[i - 1 := o.after], i - 1, o.out.value, lr)
  }

  /** Whether the last layer's cached output is non-empty, so the mean loss over it is defined. */
  ghost predicate LastOutputNonEmpty(ss: seq<LayerState>)
  {
    |ss| > 0 && ss[|ss| - 1].output.rows > 0 && ss[|ss| - 1].output.cols > 0
  }

  /** The network's backward pass: the loss gradient at the last cached
      output starts the sweep, and the loss is then read from the last
      layer's cached output. */
  function Backprop(loss: Loss, ss: seq<LayerState>, expected: Matrix, lr: real): (r: Report)
    requires AllValid(ss) && LastOutputNonEmpty(ss) && expected.Valid()
    ensures |r.after| == |ss| && AllValid(r.after)
  {
    var last := ss[|ss| - 1].output;
    var start := loss.Derivative(last, expected);
    if start.Err? then Report(ss, Err(start.error))
    else
      var p := Sweep(ss, |ss|, start.value, lr);
      if p.out.Err? then Report(p.after, Err(p.out.error))
      else Report(p.after, Ok(MeanSquaredError(p.after[|ss| - 1].output, expected)))
  }

  /** A training step: the forward pass, then the backward pass. */
  function Training(loss: Loss, ss: seq<LayerState>, x: Matrix, expected: Matrix, lr: real): (r: Report)
    requires AllValid(ss) && |ss| > 0 && x.Valid() && expected.Valid()
    requires x.rows > 0 && ss[|ss| - 1].weights.cols > 0
  {
    var f := Propagate(ss, x);
    if f.out.Err? then Report(f.after, Err(f.out.error))
    else Backprop(loss, f.after, expected, lr)
  }

  class Network {
    const loss: Loss
    var layers: seq<Layer>

    /** Snapshots of the layers, in order. */
    function States(): (ss: seq<LayerState>)
      reads this, layers
      ensures |ss| == |layers|
      ensures forall k :: 0 <= k < |layers| ==> ss[k] == layers[k].State()
    {
      seq(|layers|, k reads this, layers requires 0 <= k < |layers| => layers[k].State())
    }

    /** Every layer is valid and no layer object appears twice. */
    ghost predicate Valid()
      reads this, layers
    {
      (forall k :: 0 <= k < |layers| ==> layers[k].Valid()) &&
      (forall k, m :: 0 <= k < m < |layers| ==> layers[k] != layers[m])
    }

    constructor(lossFunction: Loss)
      ensures Valid() && loss == lossFunction && layers == []
    {
      loss := lossFunction;
      layers := [];
    }

    /** Appends one layer after the existing ones. */
    method AddLayer(layer: Layer)
      requires Valid() && layer.Valid() && layer !in layers
      modifies this
      ensures Valid()
      ensures layers == old(layers) + [layer]
      ensures States() == old(States()) + [layer.State()]
    {
      layers := layers + [layer];
    }

    /** Layer i's forward pass; no other layer changes, so what is left of the
        network's forward pass carries on from position next, which is i + 1. */
    method ForwardStep(i: nat, current: Matrix) returns (y: Result<Matrix>, next: nat)
      requires Valid() && i < |layers| && current.Valid()
      modifies layers[i]
      ensures Valid() && y == old(States())[i].Forward(current).out && next == i + 1
      ensures y.Err? ==> Run(old(States()), i, current) == Pass(States(), y)
      ensures y.Ok? ==> y.value.Valid() && Run(old(States()), i, current) == Run(States(), next, y.value)
    {
      next := i + 1;
      ghost var before := States();
      ghost var o := before[i].Forward(current);
      y := layers[i].Forward(current);
      forall k | 0 <= k < |layers| && k != i
        ensures layers[k].State() == before[k]
      {
        assert layers[k] != layers[i];
      }
      assert States() == before[i := o.after];
    }

    /** The backward pass of the i-th layer counted from 1; no other layer
        changes, so what is left of the sweep carries on from position next,
        which is i - 1. */
    method BackwardStep(i: nat, error: Matrix, lr: real) returns (y: Result<Matrix>, next: nat)
      requires Valid() && 0 < i <= |layers| && error.Valid()
      modifies layers[i - 1]
      ensures Valid() && y == old(States())[i - 1].Backward(error, lr).out && next == i - 1
      ensures y.Err? ==> Sweep(old(States()), i, error, lr) == Pass(States(), y)
      ensures y.Ok? ==> y.value.Valid() && Sweep(old(States()), i, error, lr) == Sweep(States(), next, y.value, lr)
    {
      next := i - 1;
      ghost var before := States();
      ghost var o := before[next].Backward(error, lr);
      y := layers[next].Backward(error, lr);
      forall k | 0 <= k < |layers| && k != next
        ensures layers[k].State() == before[k]
      {
        assert layers[k] != layers[next];
      }
      assert States() == before[next := o.after];
    }

    method Forward(x: Matrix) returns (r: Result<Matrix>)
      requires Valid() && x.Valid()
      modifies layers
      ensures Valid() && layers == old(layers)
      ensures States() == Propagate(old(States()), x).after
      ensures r == Propagate(old(States()), x).out
    {
      ghost var target := Propagate(States(), x);
      var current := x;
      var i := 0;
      while i < |layers|
        invariant 0 <= i <= |layers|
        invariant Valid() && current.Valid()
        invariant Run(States(), i, current) == target
      {
        var y, next := ForwardStep(i, current);
        if y.Err? {
          return y;
        }
        current, i := y.value, next;
      }
      return Ok(current);
    }

    /** The backward sweep over every layer, last to first. */
    method SweepLayers(error: Matrix, lr: real) returns (r: Result<Matrix>)
      requires Valid() && error.Valid()
      modifies layers
      ensures Valid() && layers == old(layers)
      ensures States() == Sweep(old(States()), |layers|, error, lr).after
      ensures r == Sweep(old(States()), |layers|, error, lr).out
    {
      ghost var target := Sweep(States(), |layers|, error, lr);
      var current := error;
      var i := |layers|;
      while i > 0
        invariant 0 <= i <= |layers|
        invariant Valid() && current.Valid()
        invariant Sweep(States(), i, current, lr) == target
      {
        var y, next := BackwardStep(i, current, lr);
        if y.Err? {
          return y;
        }
        current, i := y.value, next;
      }
      return Ok(current);
    }

    /** The loss of the last layer's cached output after a backward sweep; the
        list must be non-empty. */
    method Backward(expected: Matrix, lr: real) returns (r: Result<real>)
      requires Valid() && LastOutputNonEmpty(States()) && expected.Valid()
      modifies layers
      ensures Valid() && layers == old(layers)
      ensures States() == Backprop(loss, old(States()), expected, lr).after
      ensures r == Backprop(loss, old(States()), expected, lr).loss
    {
      ghost var start := States();
      var last := layers[|layers| - 1];
      var first := loss.Derivative(last.output, expected);
      if first.Err? {
        return Err(first.error);
      }
      ghost var p := Sweep(start, |start|, first.value, lr);
      var swept := SweepLayers(first.value, lr);
      if swept.Err? {
        return Err(swept.error);
      }
      assert last.output == p.after[|start| - 1].output == start[|start| - 1].output;
      var value := loss.Calculate(last.output, expected);
      return Ok(value);
    }

    /** One training step; it reports the loss of the forward output, measured
        before the parameters were updated. */
    method Train(x: Matrix, expected: Matrix, lr: real) returns (r: Result<real>)
      requires Valid() && |layers| > 0 && x.Valid() && expected.Valid()
      requires x.rows > 0 && layers[|layers| - 1].weights.cols > 0
      modifies layers
      ensures Valid() && layers == old(layers)
      ensures States() == Training(loss, old(States()), x, expected, lr).after
      ensures r == Training(loss, old(States()), x, expected, lr).loss
    {
      var y := Forward(x);
      if y.Err? {
        return Err(y.error);
      }
      r := Backward(expected, lr);
    }

    /** Prediction is the forward pass. */
    method Predict(x: Matrix) returns (r: Result<Matrix>)
      requires Valid() && x.Valid()
      modifies layers
      ensures Valid() && layers == old(layers)
      ensures States() == Propagate(old(States()), x).after
      ensures r == Propagate(old(States()), x).out
    {
      r := Forward(x);
    }
  }

  // ---------------------------------------------------------------------------
  // Properties of the passes.

  /** The forward result depends only on activations, weights and biases, not
      on what the layers have cached. */
  lemma {:induction false} RunIgnoresCaches(ss: seq<LayerState>, ts: seq<LayerState>, i: nat, x: Matrix)
    requires AllValid(ss) && AllValid(ts) && i <= |ss| && x.Valid() && SameParameters(ss, ts)
    ensures Run(ss, i, x).out == Run(ts, i, x).out
    decreases |ss| - i
  {
    if i < |ss| {
      var o, q := ss[i].Forward(x), ts[i].Forward(x);
      if o.out.Ok? {
        RunIgnoresCaches(ss[i := o.after], ts[i := q.after], i + 1, o.out.value);
      }
    }
  }

  /** Predicting twice on the same input gives the same answer: forward
      changes only caches, and caches do not affect forward. */
  lemma PredictRepeatable(ss: seq<LayerState>, x: Matrix)
    requires AllValid(ss) && x.Valid()
    ensures Propagate(Propagate(ss, x).after, x).out == Propagate(ss, x).out
  {
    RunIgnoresCaches(Propagate(ss, x).after, ss, 0, x);
  }

  /** A backward sweep at learning rate 0 changes only the cached deltas:
      every layer keeps its activation, weights and bias. */
  lemma {:induction false} SweepAtZeroRate(ss: seq<LayerState>, i: nat, error: Matrix)
    requires AllValid(ss) && i <= |ss| && error.Valid()
    ensures SameParameters(ss, Sweep(ss, i, error, 0.0).after)
    decreases i
  {
    if i > 0 {
      var o := ss[i - 1].Backward(error, 0.0);
      ZeroRateKeepsParameters(ss[i - 1], error);
      assert SameParameters(ss, ss[i - 1 := o.after]);
      if o.out.Ok? {
        var rest := Sweep(ss[i - 1 := o.after], i - 1, o.out.value, 0.0);
        SweepAtZeroRate(ss[i - 1 := o.after], i - 1, o.out.value);
        assert Sweep(ss, i, error, 0.0) == rest;
      }
    }
  }

  /** The loss reported by backward is the loss of the last output cached by
      the forward pass, because no layer's backward touches its output. */
  lemma BackwardReportsForwardLoss(loss: Loss, ss: seq<LayerState>, expected: Matrix, lr: real)
    requires AllValid(ss) && LastOutputNonEmpty(ss) && expected.Valid()
    ensures Backprop(loss, ss, expected, lr).loss.Ok? ==>
              Covers(expected, ss[|ss| - 1].output) &&
              Backprop(loss, ss, expected, lr).loss.value == MeanSquaredError(ss[|ss| - 1].output, expected)
  {
  }

  /** A training step reports the loss of the forward pass's result against
      the expectation, measured before any parameter moved. */
  lemma TrainReportsPreUpdateLoss(loss: Loss, ss: seq<LayerState>, x: Matrix, expected: Matrix, lr: real)
    requires AllValid(ss) && |ss| > 0 && x.Valid() && expected.Valid()
    requires x.rows > 0 && ss[|ss| - 1].weights.cols > 0
    ensures Training(loss, ss, x, expected, lr).loss.Ok? ==>
              Propagate(ss, x).out.Ok? &&
              var y := Propagate(ss, x).out.value;
              y.rows > 0 && y.cols > 0 && Covers(expected, y) &&
              Training(loss, ss, x, expected, lr).loss.value == MeanSquaredError(y, expected)
  {
    var f := Propagate(ss, x);
    if f.out.Ok? {
      BackwardReportsForwardLoss(loss, f.after, expected, lr);
    }
  }
}
