// Dense matrices over exact reals: the shape-checked algebra every other
// component is built on. A matrix is a value (copies are independent), so it
// is a datatype; each operation is a method that allocates a zero matrix of
// the result shape and fills it entry by entry in nested loops, and is proved
// equal to a pure specification function.
module Matrices {

  /** The shape-mismatch failures, one per operation that checks shapes. */
  datatype MatrixError =
    | MultiplyMismatch   // dot: this.cols != other.rows
    | HadamardMismatch   // hadamard: shapes differ
    | AddMismatch        // operator+: shapes differ
    | SubtractMismatch   // operator-: shapes differ

  datatype Result<T> = Ok(value: T) | Err(error: MatrixError)

  /** A rows x cols matrix stored row by row. */
  datatype Matrix = Matrix(data: seq<seq<real>>, rows: nat, cols: nat) {

    /** `data` holds exactly rows x cols entries. */
    predicate Valid() {
      |data| == rows && forall i :: 0 <= i < |data| ==> |data[i]| == cols
    }

    /** Reading `at(i, j)`: no bounds check is made, so the indices must be in range. */
    function At(i: nat, j: nat): (v: real)
      requires Valid() && i < rows && j < cols
      ensures v == data[i][j]
    {
      data[i][j]
    }

    /** Writing through `at(i, j)`: exactly entry (i, j) changes. */
    function SetAt(i: nat, j: nat, v: real): (r: Matrix)
      requires Valid() && i < rows && j < cols
      ensures r.Valid() && r.rows == rows && r.cols == cols
      ensures r.data[i][j] == v
      ensures forall p, q :: 0 <= p < rows && 0 <= q < cols && (p, q) != (i, j) ==>
                r.data[p][q] == data[p][q]
    {
      Matrix(data[i := data[i][j := v]], rows, cols)
    }

    /** Matrix product; fails unless this.cols == other.rows. */
    method Dot(other: Matrix) returns (r: Result<Matrix>)
      requires Valid() && other.Valid()
      ensures r.Err? <==> cols != other.rows
      ensures r.Err? ==> r.error == MultiplyMismatch
      ensures r.Ok? ==> r.value == Product(this, other)
    {
      if cols != other.rows {
        return Err(MultiplyMismatch);
      }
      var result := Zeros(rows, other.cols);
      for i := 0 to rows
        invariant result.Valid() && result.rows == rows && result.cols == other.cols
        invariant forall p, q :: 0 <= p < i && 0 <= q < other.cols ==>
                    result.data[p][q] == Inner(this, other, p, q)
      {
        for j := 0 to other.cols
          invariant result.Valid() && result.rows == rows && result.cols == other.cols
          invariant forall p, q :: 0 <= p < i && 0 <= q < other.cols ==>
                      result.data[p][q] == Inner(this, other, p, q)
          invariant forall q :: 0 <= q < j ==> result.data[i][q] == Inner(this, other, i, q)
        {
          ghost var terms := RowTimesColumn(this, other, i, j);
          var sum := 0.0;
          for k := 0 to cols
            invariant sum == Total(terms[..k])
          {
            assert terms[..k + 1][..k] == terms[..k];
            sum := sum + data[i][k] * other.data[k][j];
          }
          assert terms[..cols] == terms;
          result := result.SetAt(i, j, sum);
        }
      }
      EqualByEntries(result, Product(this, other));
      return Ok(result);
    }

    /** Elementwise product; fails unless the shapes are equal. */
    method Hadamard(other: Matrix) returns (r: Result<Matrix>)
      requires Valid() && other.Valid()
      ensures r.Err? <==> (rows != other.rows || cols != other.cols)
      ensures r.Err? ==> r.error == HadamardMismatch
      ensures r.Ok? ==> r.value == Schur(this, other)
    {
      if rows != other.rows || cols != other.cols {
        return Err(HadamardMismatch);
      }
      var result := Zeros(rows, cols);
      for i := 0 to rows
        invariant result.Valid() && result.rows == rows && result.cols == cols
        invariant forall p, q :: 0 <= p < i && 0 <= q < cols ==>
                    result.data[p][q] == data[p][q] * other.data[p][q]
      {
        for j := 0 to cols
          invariant result.Valid() && result.rows == rows && result.cols == cols
          invariant forall p, q :: 0 <= p < i && 0 <= q < cols ==>
                      result.data[p][q] == data[p][q] * other.data[p][q]
          invariant forall q :: 0 <= q < j ==> result.data[i][q] == data[i][q] * other.data[i][q]
        {
          result := result.SetAt(i, j, data[i][j] * other.data[i][j]);
        }
      }
      EqualByEntries(result, Schur(this, other));
      return Ok(result);
    }

    /** Transposition; never fails. */
    method Transpose() returns (r: Matrix)
      requires Valid()
      ensures r == Transposed(this)
    {
      var result := Zeros(cols, rows);
      for i := 0 to rows
        invariant result.Valid() && result.rows == cols && result.cols == rows
        invariant forall p, q :: 0 <= p < i && 0 <= q < cols ==> result.data[q][p] == data[p][q]
      {
        for j := 0 to cols
          invariant result.Valid() && result.rows == cols && result.cols == rows
          invariant forall p, q :: 0 <= p < i && 0 <= q < cols ==> result.data[q][p] == data[p][q]
          invariant forall q :: 0 <= q < j ==> result.data[q][i] == data[i][q]
        {
          result := result.SetAt(j, i, data[i][j]);
        }
      }
      EqualByEntries(result, Transposed(this));
      return result;
    }

    /** operator+: elementwise sum; fails unless the shapes are equal. */
    method Add(other: Matrix) returns (r: Result<Matrix>)
      requires Valid() && other.Valid()
      ensures r.Err? <==> (rows != other.rows || cols != other.cols)
      ensures r.Err? ==> r.error == AddMismatch
      ensures r.Ok? ==> r.value == Plus(this, other)
    {
      if rows != other.rows || cols != other.cols {
        return Err(AddMismatch);
      }
      var result := Zeros(rows, cols);
      for i := 0 to rows
        invariant result.Valid() && result.rows == rows && result.cols == cols
        invariant forall p, q :: 0 <= p < i && 0 <= q < cols ==>
                    result.data[p][q] == data[p][q] + other.data[p][q]
      {
        for j := 0 to cols
          invariant result.Valid() && result.rows == rows && result.cols == cols
          invariant forall p, q :: 0 <= p < i && 0 <= q < cols ==>
                      result.data[p][q] == data[p][q] + other.data[p][q]
          invariant forall q :: 0 <= q < j ==> result.data[i][q] == data[i][q] + other.data[i][q]
        {
          result := result.SetAt(i, j, data[i][j] + other.data[i][j]);
        }
      }
      EqualByEntries(result, Plus(this, other));
      return Ok(result);
    }

    /** operator-: elementwise difference; fails unless the shapes are equal. */
    method Subtract(other: Matrix) returns (r: Result<Matrix>)
      requires Valid() && other.Valid()
      ensures r.Err? <==> (rows != other.rows || cols != other.cols)
      ensures r.Err? ==> r.error == SubtractMismatch
      ensures r.Ok? ==> r.value == Minus(this, other)
    {
      if rows != other.rows || cols != other.cols {
        return Err(SubtractMismatch);
      }
      var result := Zeros(rows, cols);
      for i := 0 to rows
        invariant result.Valid() && result.rows == rows && result.cols == cols
        invariant forall p, q :: 0 <= p < i && 0 <= q < cols ==>
                    result.data[p][q] == data[p][q] - other.data[p][q]
      {
        for j := 0 to cols
          invariant result.Valid() && result.rows == rows && result.cols == cols
          invariant forall p, q :: 0 <= p < i && 0 <= q < cols ==>
                      result.data[p][q] == data[p][q] - other.data[p][q]
          invariant forall q :: 0 <= q < j ==> result.data[i][q] == data[i][q] - other.data[i][q]
        {
          result := result.SetAt(i, j, data[i][j] - other.data[i][j]);
        }
      }
      EqualByEntries(result, Minus(this, other));
      return Ok(result);
    }

    /** operator*(scalar): multiplies every entry; never fails. */
    method Scale(scalar: real) returns (r: Matrix)
      requires Valid()
      ensures r == Scaled(this, scalar)
    {
      var result := Zeros(rows, cols);
      for i := 0 to rows
        invariant result.Valid() && result.rows == rows && result.cols == cols
        invariant forall p, q :: 0 <= p < i && 0 <= q < cols ==> result.data[p][q] == data[p][q] * scalar
      {
        for j := 0 to cols
          invariant result.Valid() && result.rows == rows && result.cols == cols
          invariant forall p, q :: 0 <= p < i && 0 <= q < cols ==> result.data[p][q] == data[p][q] * scalar
          invariant forall q :: 0 <= q < j ==> result.data[i][q] == data[i][q] * scalar
        {
          result := result.SetAt(i, j, data[i][j] * scalar);
        }
      }
      EqualByEntries(result, Scaled(this, scalar));
      return result;
    }
  }

  /** Matrix(rows, cols): every entry is the additive identity. */
  function Zeros(rows: nat, cols: nat): (r: Matrix)
    ensures r.Valid() && r.rows == rows && r.cols == cols
    ensures forall i, j :: 0 <= i < rows && 0 <= j < cols ==> r.data[i][j] == 0.0
  {
    Matrix(seq(rows, i => seq(cols, j => 0.0)), rows, cols)
  }

  /** The nested-vector constructor: rows and columns are taken from the input,
      which is neither checked for emptiness nor for being rectangular. */
  function FromRows(input: seq<seq<real>>): (r: Matrix)
    requires |input| > 0
    requires forall i :: 0 <= i < |input| ==> |input[i]| == |input[0]|
    ensures r.Valid() && r.rows == |input| && r.cols == |input[0]|
    ensures forall i, j :: 0 <= i < r.rows && 0 <= j < r.cols ==> r.At(i, j) == input[i][j]
  {
    Matrix(input, |input|, |input[0]|)
  }

  /** Every index of p is also an index of e: what an unchecked read of e at
      p's positions needs. */
  ghost predicate Covers(e: Matrix, p: Matrix)
  {
    p.rows <= e.rows && p.cols <= e.cols
  }

  /** The number of entries rows * cols, over which loss and accuracy average. */
  function EntryCount(m: Matrix): (n: nat)
    ensures m.rows > 0 && m.cols > 0 ==> n > 0
  {
    m.rows * m.cols
  }

  /** Sum of a sequence, accumulated from the left as the loops do. */
  function Total(s: seq<real>): real
  {
    if |s| == 0 then 0.0 else Total(s[..|s| - 1]) + s[|s| - 1]
  }

  /** The products a[i][k] * b[k][j] whose sum is entry (i, j) of a . b. */
  function RowTimesColumn(a: Matrix, b: Matrix, i: nat, j: nat): (t: seq<real>)
    requires a.Valid() && b.Valid() && a.cols == b.rows && i < a.rows && j < b.cols
    ensures |t| == a.cols
    ensures forall k :: 0 <= k < a.cols ==> t[k] == a.data[i][k] * b.data[k][j]
  {
    seq(a.cols, k requires 0 <= k < a.cols => a.data[i][k] * b.data[k][j])
  }

  /** Entry (i, j) of the product: the inner product of row i of a and column j of b. */
  function Inner(a: Matrix, b: Matrix, i: nat, j: nat): real
    requires a.Valid() && b.Valid() && a.cols == b.rows && i < a.rows && j < b.cols
  {
    Total(RowTimesColumn(a, b, i, j))
  }

  function Product(a: Matrix, b: Matrix): (r: Matrix)
    requires a.Valid() && b.Valid() && a.cols == b.rows
    ensures r.Valid() && r.rows == a.rows && r.cols == b.cols
    ensures forall i, j :: 0 <= i < r.rows && 0 <= j < r.cols ==> r.data[i][j] == Inner(a, b, i, j)
  {
    Matrix(seq(a.rows, i requires 0 <= i < a.rows =>
             seq(b.cols, j requires 0 <= j < b.cols => Inner(a, b, i, j))),
           a.rows, b.cols)
  }

  /** Elementwise (Hadamard, or Schur) product. */
  function Schur(a: Matrix, b: Matrix): (r: Matrix)
    requires a.Valid() && b.Valid() && a.rows == b.rows && a.cols == b.cols
    ensures r.Valid() && r.rows == a.rows && r.cols == a.cols
    ensures forall i, j :: 0 <= i < r.rows && 0 <= j < r.cols ==> r.data[i][j] == a.data[i][j] * b.data[i][j]
  {
    Matrix(seq(a.rows, i requires 0 <= i < a.rows =>
             seq(a.cols, j requires 0 <= j < a.cols => a.data[i][j] * b.data[i][j])),
           a.rows, a.cols)
  }

  function Transposed(a: Matrix): (r: Matrix)
    requires a.Valid()
    ensures r.Valid() && r.rows == a.cols && r.cols == a.rows
    ensures forall i, j :: 0 <= i < r.rows && 0 <= j < r.cols ==> r.data[i][j] == a.data[j][i]
  {
    Matrix(seq(a.cols, j requires 0 <= j < a.cols =>
             seq(a.rows, i requires 0 <= i < a.rows => a.data[i][j])),
           a.cols, a.rows)
  }

  function Plus(a: Matrix, b: Matrix): (r: Matrix)
    requires a.Valid() && b.Valid() && a.rows == b.rows && a.cols == b.cols
    ensures r.Valid() && r.rows == a.rows && r.cols == a.cols
    ensures forall i, j :: 0 <= i < r.rows && 0 <= j < r.cols ==> r.data[i][j] == a.data[i][j] + b.data[i][j]
  {
    Matrix(seq(a.rows, i requires 0 <= i < a.rows =>
             seq(a.cols, j requires 0 <= j < a.cols => a.data[i][j] + b.data[i][j])),
           a.rows, a.cols)
  }

  function Minus(a: Matrix, b: Matrix): (r: Matrix)
    requires a.Valid() && b.Valid() && a.rows == b.rows && a.cols == b.cols
    ensures r.Valid() && r.rows == a.rows && r.cols == a.cols
    ensures forall i, j :: 0 <= i < r.rows && 0 <= j < r.cols ==> r.data[i][j] == a.data[i][j] - b.data[i][j]
  {
    Matrix(seq(a.rows, i requires 0 <= i < a.rows =>
             seq(a.cols, j requires 0 <= j < a.cols => a.data[i][j] - b.data[i][j])),
           a.rows, a.cols)
  }

  function Scaled(a: Matrix, s: real): (r: Matrix)
    requires a.Valid()
    ensures r.Valid() && r.rows == a.rows && r.cols == a.cols
    ensures forall i, j :: 0 <= i < r.rows && 0 <= j < r.cols ==> r.data[i][j] == a.data[i][j] * s
  {
    Matrix(seq(a.rows, i requires 0 <= i < a.rows =>
             seq(a.cols, j requires 0 <= j < a.cols => a.data[i][j] * s)),
           a.rows, a.cols)
  }

  /** Two matrices of the same shape with the same entries are the same value. */
  lemma EqualByEntries(a: Matrix, b: Matrix)
    requires a.Valid() && b.Valid() && a.rows == b.rows && a.cols == b.cols
    requires forall i, j :: 0 <= i < a.rows && 0 <= j < a.cols ==> a.data[i][j] == b.data[i][j]
    ensures a == b
  {
    forall i | 0 <= i < a.rows
      ensures a.data[i] == b.data[i]
    {
    }
  }

  // ---------------------------------------------------------------------------
  // Algebraic laws of the operations.

  /** Transposing twice gives back the original matrix. */
  lemma TransposeInvolution(a: Matrix)
    requires a.Valid()
    ensures Transposed(Transposed(a)) == a
  {
    EqualByEntries(Transposed(Transposed(a)), a);
  }

  /** The Hadamard product is commutative. */
  lemma SchurCommutes(a: Matrix, b: Matrix)
    requires a.Valid() && b.Valid() && a.rows == b.rows && a.cols == b.cols
    ensures Schur(a, b) == Schur(b, a)
  {
    EqualByEntries(Schur(a, b), Schur(b, a));
  }

  /** Addition is commutative. */
  lemma PlusCommutes(a: Matrix, b: Matrix)
    requires a.Valid() && b.Valid() && a.rows == b.rows && a.cols == b.cols
    ensures Plus(a, b) == Plus(b, a)
  {
    EqualByEntries(Plus(a, b), Plus(b, a));
  }

  /** Subtraction is undone by adding back: (A - B) + B == A. */
  lemma SubtractThenAdd(a: Matrix, b: Matrix)
    requires a.Valid() && b.Valid() && a.rows == b.rows && a.cols == b.cols
    ensures Plus(Minus(a, b), b) == a
  {
    EqualByEntries(Plus(Minus(a, b), b), a);
  }

  /** A - A is the zero matrix of A's shape. */
  lemma MinusSelf(a: Matrix)
    requires a.Valid()
    ensures Minus(a, a) == Zeros(a.rows, a.cols)
  {
    EqualByEntries(Minus(a, a), Zeros(a.rows, a.cols));
  }

  /** A * 1 == A. */
  lemma ScaleByOne(a: Matrix)
    requires a.Valid()
    ensures Scaled(a, 1.0) == a
  {
    EqualByEntries(Scaled(a, 1.0), a);
  }

  /** Subtracting a gradient scaled by zero changes nothing: A - B * 0 == A. */
  lemma MinusScaledByZero(a: Matrix, b: Matrix)
    requires a.Valid() && b.Valid() && a.rows == b.rows && a.cols == b.cols
    ensures Minus(a, Scaled(b, 0.0)) == a
  {
    EqualByEntries(Minus(a, Scaled(b, 0.0)), a);
  }

  /** Transposing a gradient step transposes both of its terms:
      (A - B * c)^T == A^T - B^T * c. */
  lemma TransposeOfUpdate(a: Matrix, b: Matrix, c: real)
    requires a.Valid() && b.Valid() && a.rows == b.rows && a.cols == b.cols
    ensures Transposed(Minus(a, Scaled(b, c))) == Minus(Transposed(a), Scaled(Transposed(b), c))
  {
    EqualByEntries(Transposed(Minus(a, Scaled(b, c))), Minus(Transposed(a), Scaled(Transposed(b), c)));
  }

  /** Sums of equal-length sequences add termwise. */
  lemma {:induction false} TotalLinear(s: seq<real>, t: seq<real>, c: real, u: seq<real>)
    requires |s| == |t| == |u|
    requires forall k :: 0 <= k < |u| ==> u[k] == s[k] - c * t[k]
    ensures Total(u) == Total(s) - c * Total(t)
  {
    if |u| > 0 {
      var n := |u| - 1;
      TotalLinear(s[..n], t[..n], c, u[..n]);
    }
  }

  /** Sequences that agree term by term have the same sum. */
  lemma {:induction false} TotalCongruent(s: seq<real>, t: seq<real>)
    requires |s| == |t|
    requires forall k :: 0 <= k < |s| ==> s[k] == t[k]
    ensures Total(s) == Total(t)
  {
    assert s == t;
  }

  /** (A . B)^T == B^T . A^T. */
  lemma ProductTranspose(a: Matrix, b: Matrix)
    requires a.Valid() && b.Valid() && a.cols == b.rows
    ensures Transposed(Product(a, b)) == Product(Transposed(b), Transposed(a))
  {
    var l := Transposed(Product(a, b));
    var r := Product(Transposed(b), Transposed(a));
    forall i, j | 0 <= i < l.rows && 0 <= j < l.cols
      ensures l.data[i][j] == r.data[i][j]
    {
      TotalCongruent(RowTimesColumn(a, b, j, i), RowTimesColumn(Transposed(b), Transposed(a), i, j));
    }
    EqualByEntries(l, r);
  }

  /** Multiplying by a difference distributes: D . (W - G * c) == D . W - (D . G) * c. */
  lemma ProductDistributesOverUpdate(d: Matrix, w: Matrix, g: Matrix, c: real)
    requires d.Valid() && w.Valid() && g.Valid()
    requires w.rows == g.rows && w.cols == g.cols && d.cols == w.rows
    ensures Product(d, Minus(w, Scaled(g, c))) == Minus(Product(d, w), Scaled(Product(d, g), c))
  {
    var u := Minus(w, Scaled(g, c));
    var l := Product(d, u);
    var r := Minus(Product(d, w), Scaled(Product(d, g), c));
    forall i, j | 0 <= i < l.rows && 0 <= j < l.cols
      ensures l.data[i][j] == r.data[i][j]
    {
      DistributesAt(d, w, g, c, i, j);
    }
    EqualByEntries(l, r);
  }

  /** One entry of ProductDistributesOverUpdate. */
  lemma DistributesAt(d: Matrix, w: Matrix, g: Matrix, c: real, i: nat, j: nat)
    requires d.Valid() && w.Valid() && g.Valid()
    requires w.rows == g.rows && w.cols == g.cols && d.cols == w.rows
    requires i < d.rows && j < w.cols
    ensures Inner(d, Minus(w, Scaled(g, c)), i, j) == Inner(d, w, i, j) - c * Inner(d, g, i, j)
  {
    var u := Minus(w, Scaled(g, c));
    var s := RowTimesColumn(d, w, i, j);
    var t := RowTimesColumn(d, g, i, j);
    var v := RowTimesColumn(d, u, i, j);
    forall k | 0 <= k < |v|
      ensures v[k] == s[k] - c * t[k]
    {
      var x, y, z := d.data[i][k], w.data[k][j], g.data[k][j];
      assert v[k] == x * (y - z * c);
      assert x * (y - z * c) == x * y - c * (x * z);
    }
    TotalLinear(s, t, c, v);
  }
}
