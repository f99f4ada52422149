// Elementwise activation functions with their derivatives. Both variants are
// stateless; each forward and backward pass builds a fresh matrix of the
// argument's shape in a nested loop.
module Activations {
  import opened Matrices

  /** The activation variants. The logistic function 1 / (1 + e^-v) is
      transcendental, so a Sigmoid carries it as an uninterpreted parameter. */
  datatype Activation =
    | ReLU
    | Sigmoid(logistic: real -> real)
  {
    /** The forward value at one entry: max(0, v), or logistic(v). */
    function Unit(v: real): real
    {
      match this
      case ReLU => if 0.0 < v then v else 0.0
      case Sigmoid(f) => f(v)
    }

    /** The backward value at one entry. ReLU gives 1 above zero and 0 at or
        below it; Sigmoid gives s * (1 - s) with s the forward value. */
    function UnitSlope(v: real): real
    {
      match this
      case ReLU => if v > 0.0 then 1.0 else 0.0
      case Sigmoid(f) => f(v) * (1.0 - f(v))
    }

    /** What `forward` computes. */
    function Applied(x: Matrix): (r: Matrix)
      requires x.Valid()
      ensures r.Valid() && r.rows == x.rows && r.cols == x.cols
      ensures forall i, j :: 0 <= i < r.rows && 0 <= j < r.cols ==> r.data[i][j] == Unit(x.data[i][j])
    {
      Matrix(seq(x.rows, i requires 0 <= i < x.rows =>
               seq(x.cols, j requires 0 <= j < x.cols => Unit(x.data[i][j]))),
             x.rows, x.cols)
    }

    /** What `backward` computes. */
    function Gradient(x: Matrix): (r: Matrix)
      requires x.Valid()
      ensures r.Valid() && r.rows == x.rows && r.cols == x.cols
      ensures forall i, j :: 0 <= i < r.rows && 0 <= j < r.cols ==> r.data[i][j] == UnitSlope(x.data[i][j])
    {
      Matrix(seq(x.rows, i requires 0 <= i < x.rows =>
               seq(x.cols, j requires 0 <= j < x.cols => UnitSlope(x.data[i][j]))),
             x.rows, x.cols)
    }

    method Forward(x: Matrix) returns (r: Matrix)
      requires x.Valid()
      ensures r == Applied(x)
    {
      var result := Zeros(x.rows, x.cols);
      for i := 0 to x.rows
        invariant result.Valid() && result.rows == x.rows && result.cols == x.cols
        invariant forall p, q :: 0 <= p < i && 0 <= q < x.cols ==> result.data[p][q] == Unit(x.data[p][q])
      {
        for j := 0 to x.cols
          invariant result.Valid() && result.rows == x.rows && result.cols == x.cols
          invariant forall p, q :: 0 <= p < i && 0 <= q < x.cols ==> result.data[p][q] == Unit(x.data[p][q])
          invariant forall q :: 0 <= q < j ==> result.data[i][q] == Unit(x.data[i][q])
        {
          var v := x.At(i, j);
          var y := match this
                   case ReLU => if 0.0 < v then v else 0.0
                   case Sigmoid(f) => f(v);
          result := result.SetAt(i, j, y);
        }
      }
      EqualByEntries(result, Applied(x));
      return result;
    }

    method Backward(x: Matrix) returns (r: Matrix)
      requires x.Valid()
      ensures r == Gradient(x)
    {
      var result := Zeros(x.rows, x.cols);
      match this {
      case ReLU =>
        for i := 0 to x.rows
          invariant result.Valid() && result.rows == x.rows && result.cols == x.cols
          invariant forall p, q :: 0 <= p < i && 0 <= q < x.cols ==> result.data[p][q] == UnitSlope(x.data[p][q])
        {
          for j := 0 to x.cols
            invariant result.Valid() && result.rows == x.rows && result.cols == x.cols
            invariant forall p, q :: 0 <= p < i && 0 <= q < x.cols ==> result.data[p][q] == UnitSlope(x.data[p][q])
            invariant forall q :: 0 <= q < j ==> result.data[i][q] == UnitSlope(x.data[i][q])
          {
            result := result.SetAt(i, j, if x.At(i, j) > 0.0 then 1.0 else 0.0);
          }
        }
      case Sigmoid(f) =>
        var sig := Forward(x);
        for i := 0 to x.rows
          invariant result.Valid() && result.rows == x.rows && result.cols == x.cols
          invariant forall p, q :: 0 <= p < i && 0 <= q < x.cols ==> result.data[p][q] == UnitSlope(x.data[p][q])
        {
          for j := 0 to x.cols
            invariant result.Valid() && result.rows == x.rows && result.cols == x.cols
            invariant forall p, q :: 0 <= p < i && 0 <= q < x.cols ==> result.data[p][q] == UnitSlope(x.data[p][q])
            invariant forall q :: 0 <= q < j ==> result.data[i][q] == UnitSlope(x.data[i][q])
          {
            var s := sig.At(i, j);
            result := result.SetAt(i, j, s * (1.0 - s));
          }
        }
      }
      EqualByEntries(result, Gradient(x));
      return result;
    }
  }

  /** ReLU forward keeps the shape, and every entry is max(0, x), so never negative. */
  lemma ReluForward(x: Matrix)
    requires x.Valid()
    ensures ReLU.Applied(x).rows == x.rows && ReLU.Applied(x).cols == x.cols
    ensures forall i, j :: 0 <= i < x.rows && 0 <= j < x.cols ==>
              ReLU.Applied(x).data[i][j] == (if x.data[i][j] > 0.0 then x.data[i][j] else 0.0) &&
              ReLU.Applied(x).data[i][j] >= 0.0
  {
  }

  /** ReLU forward is idempotent. */
  lemma ReluIdempotent(x: Matrix)
    requires x.Valid()
    ensures ReLU.Applied(ReLU.Applied(x)) == ReLU.Applied(x)
  {
    EqualByEntries(ReLU.Applied(ReLU.Applied(x)), ReLU.Applied(x));
  }

  /** ReLU backward is the indicator of a positive entry (0 exactly at 0),
      so every entry is 0 or 1. */
  lemma ReluBackward(x: Matrix)
    requires x.Valid()
    ensures forall i, j :: 0 <= i < x.rows && 0 <= j < x.cols ==>
              (ReLU.Gradient(x).data[i][j] == 1.0 <==> x.data[i][j] > 0.0) &&
              (ReLU.Gradient(x).data[i][j] == 0.0 <==> x.data[i][j] <= 0.0)
  {
  }

  /** Passing ReLU's output instead of its input to backward changes nothing,
      because max(0, v) > 0 exactly when v > 0. */
  lemma ReluBackwardOfOutput(x: Matrix)
    requires x.Valid()
    ensures ReLU.Gradient(ReLU.Applied(x)) == ReLU.Gradient(x)
  {
    EqualByEntries(ReLU.Gradient(ReLU.Applied(x)), ReLU.Gradient(x));
  }

  /** Sigmoid forward keeps the shape; backward's entry is s * (1 - s) where s
      is the forward value at the same position. */
  lemma SigmoidBackwardStructure(f: real -> real, x: Matrix)
    requires x.Valid()
    ensures Sigmoid(f).Applied(x).rows == x.rows && Sigmoid(f).Applied(x).cols == x.cols
    ensures Sigmoid(f).Gradient(x).rows == x.rows && Sigmoid(f).Gradient(x).cols == x.cols
    ensures forall i, j :: 0 <= i < x.rows && 0 <= j < x.cols ==>
              var s := Sigmoid(f).Applied(x).data[i][j];
              Sigmoid(f).Gradient(x).data[i][j] == s * (1.0 - s)
  {
  }

  /** A squashing function maps every real strictly into (0, 1). */
  ghost predicate Squashing(f: real -> real)
  {
    forall v :: 0.0 < f(v) < 1.0
  }

  /** For a squashing logistic function, Sigmoid forward lies in (0, 1) and
      backward in (0, 1/4]. */
  lemma SigmoidBounds(f: real -> real, x: Matrix)
    requires x.Valid() && Squashing(f)
    ensures forall i, j :: 0 <= i < x.rows && 0 <= j < x.cols ==>
              0.0 < Sigmoid(f).Applied(x).data[i][j] < 1.0
    ensures forall i, j :: 0 <= i < x.rows && 0 <= j < x.cols ==>
              0.0 < Sigmoid(f).Gradient(x).data[i][j] <= 0.25
  {
    forall i, j | 0 <= i < x.rows && 0 <= j < x.cols
      ensures 0.0 < Sigmoid(f).Gradient(x).data[i][j] <= 0.25
    {
      SlopeAt(f, x, i, j);
    }
  }

  /** The bound on one entry of Sigmoid backward. */
  lemma SlopeAt(f: real -> real, x: Matrix, i: nat, j: nat)
    requires x.Valid() && Squashing(f) && i < x.rows && j < x.cols
    ensures 0.0 < Sigmoid(f).Gradient(x).data[i][j] <= 0.25
  {
    var v := x.data[i][j];
    assert 0.0 < f(v) < 1.0;
    SlopeBound(f(v));
    calc {
      0.0;
    <
      f(v) * (1.0 - f(v));
    ==
      Sigmoid(f).Gradient(x).data[i][j];
    }
    calc {
      Sigmoid(f).Gradient(x).data[i][j];
    ==
      f(v) * (1.0 - f(v));
    <=
      0.25;
    }
  }

  /** s * (1 - s) is positive and at most 1/4 for s in (0, 1). */
  lemma SlopeBound(s: real)
    requires 0.0 < s < 1.0
    ensures 0.0 < s * (1.0 - s) <= 0.25
  {
    var d := s - 0.5;
    assert s * (1.0 - s) == 0.25 - d * d;
    assert d * d >= 0.0;
    assert s * (1.0 - s) > 0.0 by {
      assert 1.0 - s > 0.0;
    }
  }
}
