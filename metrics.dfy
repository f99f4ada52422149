// Classification accuracy: the share of positions where prediction and
// expectation fall on the same side of a threshold.
module Metrics {
  import opened Matrices

  /** The threshold used when the caller gives none. */
  const DefaultThreshold: real := 0.5

  /** Both values are classified alike: both at or above t, or both below. */
  predicate Agrees(predicted: real, expected: real, t: real)
  {
    (predicted >= t) == (expected >= t)
  }

  /** The agreeing positions among the first n of row i. */
  function RowCorrect(p: Matrix, e: Matrix, t: real, i: nat, n: nat): (c: nat)
    requires p.Valid() && e.Valid() && Covers(e, p) && i < p.rows && n <= p.cols
    ensures c <= n
    ensures c == n <==> forall j :: 0 <= j < n ==> Agrees(p.data[i][j], e.data[i][j], t)
    ensures c == 0 <==> forall j :: 0 <= j < n ==> !Agrees(p.data[i][j], e.data[i][j], t)
  {
    if n == 0 then 0
    else RowCorrect(p, e, t, i, n - 1) + (if Agrees(p.data[i][n - 1], e.data[i][n - 1], t) then 1 else 0)
  }

  /** The agreeing positions in the first m rows. */
  function Correct(p: Matrix, e: Matrix, t: real, m: nat): (c: nat)
    requires p.Valid() && e.Valid() && Covers(e, p) && m <= p.rows
    ensures c <= m * p.cols
    ensures c == m * p.cols <==>
              forall i, j :: 0 <= i < m && 0 <= j < p.cols ==> Agrees(p.data[i][j], e.data[i][j], t)
    ensures c == 0 <==>
              forall i, j :: 0 <= i < m && 0 <= j < p.cols ==> !Agrees(p.data[i][j], e.data[i][j], t)
  {
    if m == 0 then 0
    else
      var c := Correct(p, e, t, m - 1) + RowCorrect(p, e, t, m - 1, p.cols);
      assert m * p.cols == (m - 1) * p.cols + p.cols;
      c
  }

  /** The accuracy: agreeing positions over all rows * cols positions. */
  function AccuracyOf(p: Matrix, e: Matrix, t: real): real
    requires p.Valid() && e.Valid() && Covers(e, p) && p.rows > 0 && p.cols > 0
  {
    (Correct(p, e, t, p.rows) as real) / (EntryCount(p) as real)
  }

  /** The accuracy: shapes are not compared, so expected must cover predicted,
      and the share is taken over a non-empty predicted. */
  method Accuracy(predicted: Matrix, expected: Matrix, threshold: real := DefaultThreshold) returns (r: real)
    requires predicted.Valid() && expected.Valid() && Covers(expected, predicted)
    requires predicted.rows > 0 && predicted.cols > 0
    ensures r == AccuracyOf(predicted, expected, threshold)
  {
    var correct := 0;
    var total := EntryCount(predicted);
    for i := 0 to predicted.rows
      invariant correct == Correct(predicted, expected, threshold, i)
    {
      for j := 0 to predicted.cols
        invariant correct == Correct(predicted, expected, threshold, i) + RowCorrect(predicted, expected, threshold, i, j)
      {
        var pred := predicted.At(i, j) >= threshold;
        var exp := expected.At(i, j) >= threshold;
        if pred == exp {
          correct := correct + 1;
        }
      }
    }
    return (correct as real) / (total as real);
  }

  /** Accuracy is a share: between 0 and 1. */
  lemma AccuracyBounds(p: Matrix, e: Matrix, t: real)
    requires p.Valid() && e.Valid() && Covers(e, p) && p.rows > 0 && p.cols > 0
    ensures 0.0 <= AccuracyOf(p, e, t) <= 1.0
  {
    ShareBounds(Correct(p, e, t, p.rows), EntryCount(p));
  }

  /** Accuracy is 1 exactly when every position agrees. */
  lemma AccuracyOneIffAllAgree(p: Matrix, e: Matrix, t: real)
    requires p.Valid() && e.Valid() && Covers(e, p) && p.rows > 0 && p.cols > 0
    ensures AccuracyOf(p, e, t) == 1.0 <==>
              forall i, j :: 0 <= i < p.rows && 0 <= j < p.cols ==> Agrees(p.data[i][j], e.data[i][j], t)
  {
    ShareOne(Correct(p, e, t, p.rows), EntryCount(p));
  }

  /** Accuracy is 0 exactly when no position agrees. */
  lemma AccuracyZeroIffNoneAgree(p: Matrix, e: Matrix, t: real)
    requires p.Valid() && e.Valid() && Covers(e, p) && p.rows > 0 && p.cols > 0
    ensures AccuracyOf(p, e, t) == 0.0 <==>
              forall i, j :: 0 <= i < p.rows && 0 <= j < p.cols ==> !Agrees(p.data[i][j], e.data[i][j], t)
  {
    ShareZero(Correct(p, e, t, p.rows), EntryCount(p));
  }

  /** A prediction scored against itself is fully accurate, whatever the threshold. */
  lemma AccuracyOfSelf(p: Matrix, t: real)
    requires p.Valid() && p.rows > 0 && p.cols > 0
    ensures AccuracyOf(p, p, t) == 1.0
  {
    AccuracyOneIffAllAgree(p, p, t);
  }

  /** c / n lies in [0, 1] when c <= n. A proof step for the accuracy lemmas; it
      models nothing by itself. */
  lemma ShareBounds(c: nat, n: nat)
    requires 0 < n && c <= n
    ensures 0.0 <= (c as real) / (n as real) <= 1.0
  {
  }

  /** c / n is 1 exactly when c == n. A proof step for the accuracy lemmas; it
      models nothing by itself. */
  lemma ShareOne(c: nat, n: nat)
    requires 0 < n
    ensures (c as real) / (n as real) == 1.0 <==> c == n
  {
  }

  /** c / n is 0 exactly when c == 0. A proof step for the accuracy lemmas; it
      models nothing by itself. */
  lemma ShareZero(c: nat, n: nat)
    requires 0 < n
    ensures (c as real) / (n as real) == 0.0 <==> c == 0
  {
  }
}
