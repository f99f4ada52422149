// The mean-squared-error loss and its gradient with respect to the prediction.
module Losses {
  import opened Matrices

  /** The squares (p[i][j] - e[i][j])^2 along row i. */
  function RowSquares(p: Matrix, e: Matrix, i: nat): (t: seq<real>)
    requires p.Valid() && e.Valid() && Covers(e, p) && i < p.rows
    ensures |t| == p.cols
    ensures forall j :: 0 <= j < p.cols ==> t[j] == (p.data[i][j] - e.data[i][j]) * (p.data[i][j] - e.data[i][j])
  {
    seq(p.cols, j requires 0 <= j < p.cols => (p.data[i][j] - e.data[i][j]) * (p.data[i][j] - e.data[i][j]))
  }

  /** The per-row sums of squared differences. */
  function RowTotals(p: Matrix, e: Matrix): (t: seq<real>)
    requires p.Valid() && e.Valid() && Covers(e, p)
    ensures |t| == p.rows
    ensures forall i :: 0 <= i < p.rows ==> t[i] == Total(RowSquares(p, e, i))
  {
    seq(p.rows, i requires 0 <= i < p.rows => Total(RowSquares(p, e, i)))
  }

  /** The sum of squared differences over all of p's positions. */
  function SquaredError(p: Matrix, e: Matrix): real
    requires p.Valid() && e.Valid() && Covers(e, p)
  {
    Total(RowTotals(p, e))
  }

  /** The mean of the squared differences over all rows x cols entries (not per row). */
  function MeanSquaredError(p: Matrix, e: Matrix): real
    requires p.Valid() && e.Valid() && Covers(e, p) && p.rows > 0 && p.cols > 0
  {
    SquaredError(p, e) / (EntryCount(p) as real)
  }

  /** The factor 2 / (rows * cols) of the gradient. An empty matrix has no
      entry for the factor to scale, so its value there is immaterial. */
  function GradientFactor(m: Matrix): real
  {
    if EntryCount(m) == 0 then 0.0 else 2.0 / (EntryCount(m) as real)
  }

  /** The loss variants; MSE is the only one. */
  datatype Loss = MSE
  {
    /** The loss: shapes are not compared, so expected must cover predicted,
        and the mean is taken over a non-empty predicted. */
    method Calculate(predicted: Matrix, expected: Matrix) returns (r: real)
      requires predicted.Valid() && expected.Valid() && Covers(expected, predicted)
      requires predicted.rows > 0 && predicted.cols > 0
      ensures r == MeanSquaredError(predicted, expected)
    {
      ghost var totals := RowTotals(predicted, expected);
      var sum := 0.0;
      for i := 0 to predicted.rows
        invariant sum == Total(totals[..i])
      {
        ghost var squares := RowSquares(predicted, expected, i);
        ghost var before := sum;
        for j := 0 to predicted.cols
          invariant sum == before + Total(squares[..j])
        {
          assert squares[..j + 1][..j] == squares[..j];
          var diff := predicted.At(i, j) - expected.At(i, j);
          sum := sum + diff * diff;
        }
        assert squares[..predicted.cols] == squares;
        assert totals[..i + 1][..i] == totals[..i];
      }
      assert totals[..predicted.rows] == totals;
      return sum / (EntryCount(predicted) as real);
    }

    /** The gradient (predicted - expected) * (2 / (rows * cols)). The
        subtraction checks shapes. */
    function Derivative(predicted: Matrix, expected: Matrix): (r: Result<Matrix>)
      requires predicted.Valid() && expected.Valid()
      ensures r.Err? <==> (predicted.rows != expected.rows || predicted.cols != expected.cols)
      ensures r.Err? ==> r.error == SubtractMismatch
      ensures r.Ok? ==> r.value.Valid() && r.value.rows == predicted.rows && r.value.cols == predicted.cols
      ensures r.Ok? ==> forall i, j :: 0 <= i < predicted.rows && 0 <= j < predicted.cols ==>
                r.value.data[i][j] == (predicted.data[i][j] - expected.data[i][j]) * GradientFactor(predicted)
    {
      if predicted.rows != expected.rows || predicted.cols != expected.cols then
        Err(SubtractMismatch)
      else
        Ok(Scaled(Minus(predicted, expected), GradientFactor(predicted)))
    }
  }

  /** A sum of non-negative terms is non-negative, and positive as soon as
      one term is. */
  lemma {:induction false} TotalOfNonNegatives(s: seq<real>)
    requires forall k :: 0 <= k < |s| ==> s[k] >= 0.0
    ensures Total(s) >= 0.0
    ensures (exists k :: 0 <= k < |s| && s[k] > 0.0) ==> Total(s) > 0.0
  {
    if |s| > 0 {
      TotalOfNonNegatives(s[..|s| - 1]);
      assert forall k :: 0 <= k < |s| - 1 ==> s[..|s| - 1][k] == s[k];
    }
  }

  /** A sum of zeros is zero. */
  lemma {:induction false} TotalOfZeros(s: seq<real>)
    requires forall k :: 0 <= k < |s| ==> s[k] == 0.0
    ensures Total(s) == 0.0
  {
    if |s| > 0 {
      TotalOfZeros(s[..|s| - 1]);
    }
  }

  /** The square of a real is never negative. */
  lemma SquareNonNegative(d: real)
    ensures d * d >= 0.0
  {
    if d != 0.0 {
      SquarePositive(d);
    }
  }

  /** The square of a non-zero real is positive. */
  lemma SquarePositive(d: real)
    requires d != 0.0
    ensures d * d > 0.0
  {
    if d > 0.0 {
      MulPositive(d, d);
    } else {
      MulPositive(-d, -d);
      assert (-d) * (-d) == d * d;
    }
  }

  /** A proof step for SquarePositive; it models nothing by itself. */
  lemma MulPositive(a: real, b: real)
    requires a > 0.0 && b > 0.0
    ensures a * b > 0.0
  {
  }

  /** Every row of squared differences sums to a non-negative total. */
  lemma RowTotalsNonNegative(p: Matrix, e: Matrix)
    requires p.Valid() && e.Valid() && Covers(e, p)
    ensures forall i :: 0 <= i < p.rows ==> RowTotals(p, e)[i] >= 0.0
  {
    forall i | 0 <= i < p.rows
      ensures RowTotals(p, e)[i] >= 0.0
    {
      var squares := RowSquares(p, e, i);
      forall j | 0 <= j < p.cols
        ensures squares[j] >= 0.0
      {
        SquareNonNegative(p.data[i][j] - e.data[i][j]);
      }
      TotalOfNonNegatives(squares);
    }
  }

  /** The loss is never negative. */
  lemma MseNonNegative(p: Matrix, e: Matrix)
    requires p.Valid() && e.Valid() && Covers(e, p) && p.rows > 0 && p.cols > 0
    ensures MeanSquaredError(p, e) >= 0.0
  {
    RowTotalsNonNegative(p, e);
    TotalOfNonNegatives(RowTotals(p, e));
    QuotientNonNegative(SquaredError(p, e), EntryCount(p) as real);
  }

  /** A perfect prediction has zero loss. */
  lemma MseAtTarget(p: Matrix)
    requires p.Valid() && p.rows > 0 && p.cols > 0
    ensures MeanSquaredError(p, p) == 0.0
  {
    var totals := RowTotals(p, p);
    forall i | 0 <= i < p.rows
      ensures totals[i] == 0.0
    {
      TotalOfZeros(RowSquares(p, p, i));
    }
    TotalOfZeros(totals);
  }

  /** Any wrong entry makes the loss strictly positive. */
  lemma MsePositiveOffTarget(p: Matrix, e: Matrix, i: nat, j: nat)
    requires p.Valid() && e.Valid() && Covers(e, p)
    requires i < p.rows && j < p.cols && p.data[i][j] != e.data[i][j]
    ensures MeanSquaredError(p, e) > 0.0
  {
    var totals := RowTotals(p, e);
    RowTotalsNonNegative(p, e);
    var squares := RowSquares(p, e, i);
    forall c | 0 <= c < p.cols
      ensures squares[c] >= 0.0
    {
      SquareNonNegative(p.data[i][c] - e.data[i][c]);
    }
    SquareAt(p, e, i, j);
    TotalOfNonNegatives(squares);
    assert totals[i] > 0.0;
    TotalOfNonNegatives(totals);
    QuotientPositive(SquaredError(p, e), EntryCount(p) as real);
  }

  /** The loss is zero exactly when the prediction equals the expectation. */
  lemma MseZeroIffEqual(p: Matrix, e: Matrix)
    requires p.Valid() && e.Valid() && p.rows == e.rows && p.cols == e.cols && p.rows > 0 && p.cols > 0
    ensures MeanSquaredError(p, e) == 0.0 <==> p == e
  {
    if p == e {
      MseAtTarget(p);
    } else {
      var i, j := Differing(p, e);
      MsePositiveOffTarget(p, e, i, j);
    }
  }

  /** A position where the two matrices differ contributes a positive square. */
  lemma SquareAt(p: Matrix, e: Matrix, i: nat, j: nat)
    requires p.Valid() && e.Valid() && Covers(e, p) && i < p.rows && j < p.cols
    requires p.data[i][j] != e.data[i][j]
    ensures RowSquares(p, e, i)[j] > 0.0
  {
    var d := p.data[i][j] - e.data[i][j];
    calc {
      RowSquares(p, e, i)[j];
    ==
      d * d;
    > { SquarePositive(d); }
      0.0;
    }
  }

  /** Two same-shaped matrices that differ, differ at some entry. */
  lemma Differing(p: Matrix, e: Matrix) returns (i: nat, j: nat)
    requires p.Valid() && e.Valid() && p.rows == e.rows && p.cols == e.cols && p != e
    ensures i < p.rows && j < p.cols && p.data[i][j] != e.data[i][j]
  {
    if forall r, c :: 0 <= r < p.rows && 0 <= c < p.cols ==> p.data[r][c] == e.data[r][c] {
      EqualByEntries(p, e);
      assert false;
    }
    var r, c :| 0 <= r < p.rows && 0 <= c < p.cols && p.data[r][c] != e.data[r][c];
    i, j := r, c;
  }

  /** A proof step for MseNonNegative; it models nothing by itself. */
  lemma QuotientNonNegative(a: real, b: real)
    requires a >= 0.0 && b > 0.0
    ensures a / b >= 0.0
  {
  }

  /** A proof step for MsePositiveOffTarget; it models nothing by itself. */
  lemma QuotientPositive(a: real, b: real)
    requires a > 0.0 && b > 0.0
    ensures a / b > 0.0
  {
  }

  /** The loss is symmetric in its two arguments. */
  lemma MseSymmetric(p: Matrix, e: Matrix)
    requires p.Valid() && e.Valid() && p.rows == e.rows && p.cols == e.cols && p.rows > 0 && p.cols > 0
    ensures MeanSquaredError(p, e) == MeanSquaredError(e, p)
  {
    forall i | 0 <= i < p.rows
      ensures RowSquares(p, e, i) == RowSquares(e, p, i)
    {
      forall j | 0 <= j < p.cols
        ensures RowSquares(p, e, i)[j] == RowSquares(e, p, i)[j]
      {
        var d := p.data[i][j] - e.data[i][j];
        assert (e.data[i][j] - p.data[i][j]) == -d;
        assert (-d) * (-d) == d * d;
      }
    }
    assert RowTotals(p, e) == RowTotals(e, p);
  }

  /** The gradient is the derivative of the loss: moving one entry of the
      prediction by h changes the loss by h times the gradient's entry there,
      plus the second-order term h^2 / (rows * cols), exactly. */
  lemma DerivativeIsSlopeOfLoss(p: Matrix, e: Matrix, i: nat, j: nat, h: real)
    requires p.Valid() && e.Valid() && p.rows == e.rows && p.cols == e.cols
    requires i < p.rows && j < p.cols
    ensures MeanSquaredError(p.SetAt(i, j, p.data[i][j] + h), e) ==
            MeanSquaredError(p, e) + h * MSE.Derivative(p, e).value.data[i][j] + h * h / (EntryCount(p) as real)
  {
    var moved := MeanSquaredError(p.SetAt(i, j, p.data[i][j] + h), e);
    var second := h * h / (EntryCount(p) as real);
    var g := GradientEntry(p, e, i, j);
    var slope := MSE.Derivative(p, e).value.data[i][j];
    BumpedMean(p, e, i, j, h, g);
    Substitute(moved, MeanSquaredError(p, e), second, h, g, slope);
  }

  /** Moving entry (i, j) by h moves the loss by h * g + h^2 / n, where g is
      d * 2/n for the difference d at (i, j); a proof step for
      DerivativeIsSlopeOfLoss. */
  lemma BumpedMean(p: Matrix, e: Matrix, i: nat, j: nat, h: real, g: real)
    requires p.Valid() && e.Valid() && p.rows == e.rows && p.cols == e.cols
    requires i < p.rows && j < p.cols
    requires g == (p.data[i][j] - e.data[i][j]) * GradientFactor(p)
    ensures MeanSquaredError(p.SetAt(i, j, p.data[i][j] + h), e) ==
            MeanSquaredError(p, e) + h * g + h * h / (EntryCount(p) as real)
  {
    var q := p.SetAt(i, j, p.data[i][j] + h);
    assert EntryCount(q) == EntryCount(p);
    BumpedSquaredError(p, e, i, j, h);
    MeanShift(SquaredError(p, e), SquaredError(q, e), p.data[i][j] - e.data[i][j], GradientFactor(p),
              g, h, EntryCount(p) as real);
  }

  /** Entry (i, j) of the gradient of same-shaped matrices is g = d * 2/n for
      the difference d there; a proof step for DerivativeIsSlopeOfLoss. */
  lemma GradientEntry(p: Matrix, e: Matrix, i: nat, j: nat) returns (g: real)
    requires p.Valid() && e.Valid() && p.rows == e.rows && p.cols == e.cols
    requires i < p.rows && j < p.cols
    ensures MSE.Derivative(p, e).Ok? && MSE.Derivative(p, e).value.data[i][j] == g
    ensures g == (p.data[i][j] - e.data[i][j]) * GradientFactor(p)
  {
    g := MSE.Derivative(p, e).value.data[i][j];
  }

  /** Equals substituted for equals under a product; a proof step for
      DerivativeIsSlopeOfLoss. */
  lemma Substitute(a: real, b: real, c: real, h: real, g: real, g': real)
    requires a == b + h * g + c && g == g'
    ensures a == b + h * g' + c
  {
  }

  /** Moving entry (i, j) by h adds 2dh + h^2 to the sum of squares, where d
      is the difference at (i, j); a proof step for DerivativeIsSlopeOfLoss. */
  lemma BumpedSquaredError(p: Matrix, e: Matrix, i: nat, j: nat, h: real)
    requires p.Valid() && e.Valid() && p.rows == e.rows && p.cols == e.cols
    requires i < p.rows && j < p.cols
    ensures var d := p.data[i][j] - e.data[i][j];
            SquaredError(p.SetAt(i, j, p.data[i][j] + h), e) == SquaredError(p, e) + (2.0 * d * h + h * h)
  {
    var q := p.SetAt(i, j, p.data[i][j] + h);
    var d := p.data[i][j] - e.data[i][j];
    var delta := 2.0 * d * h + h * h;
    BumpedRow(p, e, i, j, h);
    forall r | 0 <= r < p.rows && r != i
      ensures RowTotals(q, e)[r] == RowTotals(p, e)[r]
    {
      assert RowSquares(q, e, r) == RowSquares(p, e, r);
    }
    TotalBump(RowTotals(p, e), RowTotals(q, e), i, delta);
  }

  /** Moving entry (i, j) by h adds 2dh + h^2 to row i's sum of squares; a
      proof step for DerivativeIsSlopeOfLoss. */
  lemma BumpedRow(p: Matrix, e: Matrix, i: nat, j: nat, h: real)
    requires p.Valid() && e.Valid() && p.rows == e.rows && p.cols == e.cols
    requires i < p.rows && j < p.cols
    ensures var d := p.data[i][j] - e.data[i][j];
            Total(RowSquares(p.SetAt(i, j, p.data[i][j] + h), e, i)) == Total(RowSquares(p, e, i)) + (2.0 * d * h + h * h)
  {
    var q := p.SetAt(i, j, p.data[i][j] + h);
    var d := p.data[i][j] - e.data[i][j];
    assert q.data[i][j] - e.data[i][j] == d + h;
    SquareShift(d, h);
    TotalBump(RowSquares(p, e, i), RowSquares(q, e, i), j, 2.0 * d * h + h * h);
  }

  /** Changing one term of a sum by delta changes the sum by delta. */
  lemma {:induction false} TotalBump(s: seq<real>, t: seq<real>, k: nat, delta: real)
    requires |s| == |t| && k < |s| && t[k] == s[k] + delta
    requires forall m :: 0 <= m < |s| && m != k ==> t[m] == s[m]
    ensures Total(t) == Total(s) + delta
  {
    var n := |s| - 1;
    if k == n {
      assert t[..n] == s[..n];
    } else {
      TotalBump(s[..n], t[..n], k, delta);
    }
  }

  /** (d + h)^2 expanded; a proof step for DerivativeIsSlopeOfLoss. */
  lemma SquareShift(d: real, h: real)
    ensures (d + h) * (d + h) == d * d + (2.0 * d * h + h * h)
  {
  }

  /** The mean of a sum t bumped by 2dh + h^2 splits into the first-order
      term h * g, for the gradient entry g = d * f with f = 2/n, and the second-order term h^2 / n; a proof step
      for DerivativeIsSlopeOfLoss. */
  lemma MeanShift(s: real, t: real, d: real, f: real, g: real, h: real, n: real)
    requires n > 0.0 && f == 2.0 / n
    requires t == s + (2.0 * d * h + h * h) && g == d * f
    ensures t / n == s / n + h * g + h * h / n
  {
  }

  /** The gradient at a perfect prediction is the zero matrix. */
  lemma DerivativeAtTarget(p: Matrix)
    requires p.Valid()
    ensures MSE.Derivative(p, p) == Ok(Zeros(p.rows, p.cols))
  {
    EqualByEntries(MSE.Derivative(p, p).value, Zeros(p.rows, p.cols));
  }
}
