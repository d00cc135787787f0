/** Vectors and matrices over exact reals, standing in for numpy float64
    arrays.  Sums accumulate in ascending index order. */
module LinAlg {

  type Vector = seq<real>
  type Matrix = seq<seq<real>>

  /** `m` has the numpy shape `rows` x `cols`. */
  predicate IsMatrix(m: Matrix, rows: nat, cols: nat) {
    |m| == rows && forall i :: 0 <= i < |m| ==> |m[i]| == cols
  }

  /** `np.zeros(n)`. */
  function Zeros(n: nat): (v: Vector)
    ensures |v| == n
    ensures forall i :: 0 <= i < n ==> v[i] == 0.0
  {
    seq(n, _ => 0.0)
  }

  /** Sum of the entries, accumulated from index 0 upwards. */
  function Sum(v: Vector): real
  {
    if |v| == 0 then 0.0 else Sum(v[..|v| - 1]) + v[|v| - 1]
  }

  /** Column `j` of `m`. */
  function Column(m: Matrix, j: nat): (c: Vector)
    requires forall i :: 0 <= i < |m| ==> j < |m[i]|
    ensures |c| == |m|
    ensures forall i :: 0 <= i < |m| ==> c[i] == m[i][j]
  {
    seq(|m|, i requires 0 <= i < |m| => m[i][j])
  }

  /** Inner product of two vectors of equal length. */
  function Dot(u: Vector, v: Vector): real
    requires |u| == |v|
  {
    Sum(seq(|u|, i requires 0 <= i < |u| => u[i] * v[i]))
  }

  /** `np.dot(x, W) + b` for one row `x` and a matrix `W` of shape |x| x |b|:
      entry j is b[j] plus the weighted sum of column j of W. */
  function Dense(x: Vector, w: Matrix, b: Vector): (r: Vector)
    requires IsMatrix(w, |x|, |b|)
    ensures |r| == |b|
  {
    seq(|b|, j requires 0 <= j < |b| => Dot(x, Column(w, j)) + b[j])
  }

  /** `np.max(v)`: the largest entry of a non-empty vector. */
  function Max(v: Vector): (m: real)
    requires |v| > 0
    ensures m in v
    ensures forall i :: 0 <= i < |v| ==> v[i] <= m
  {
    if |v| == 1 then v[0]
    else
      var m := Max(v[..|v| - 1]);
      if v[|v| - 1] > m then v[|v| - 1] else m
  }

  // ---------------------------------------------------------------------
  // Facts about Sum

  lemma {:induction false} SumOfConstant(v: Vector, c: real)
    requires forall i :: 0 <= i < |v| ==> v[i] == c
    ensures Sum(v) == |v| as real * c
  {
    if |v| > 0 {
      SumOfConstant(v[..|v| - 1], c);
    }
  }

  lemma SumOfThree(v: Vector)
    requires |v| == 3
    ensures Sum(v) == v[0] + v[1] + v[2]
  {
    assert v[..2][..1] == v[..1];
    assert v[..1][..0] == [];
    assert Sum(v[..1]) == v[0];
    assert Sum(v[..2]) == Sum(v[..1]) + v[1];
  }

  lemma {:induction false} SumNonNegative(v: Vector)
    requires forall i :: 0 <= i < |v| ==> v[i] >= 0.0
    ensures Sum(v) >= 0.0
  {
    if |v| > 0 {
      SumNonNegative(v[..|v| - 1]);
    }
  }

  /** Every entry of a non-negative vector is at most the total. */
  lemma {:induction false} EntryAtMostSum(v: Vector, k: nat)
    requires forall i :: 0 <= i < |v| ==> v[i] >= 0.0
    requires k < |v|
    ensures v[k] <= Sum(v)
  {
    var n := |v| - 1;
    if k == n {
      SumNonNegative(v[..n]);
    } else {
      EntryAtMostSum(v[..n], k);
    }
  }

  /** A non-empty vector of positive entries has a positive total. */
  lemma SumPositive(v: Vector)
    requires |v| > 0
    requires forall i :: 0 <= i < |v| ==> v[i] > 0.0
    ensures Sum(v) > 0.0
  {
    EntryAtMostSum(v, 0);
    SumNonNegative(v[..|v| - 1]);
  }

  /** Every entry multiplied by `c`. */
  function Scale(v: Vector, c: real): (w: Vector)
    ensures |w| == |v|
    ensures forall i :: 0 <= i < |v| ==> w[i] == v[i] * c
  {
    seq(|v|, i requires 0 <= i < |v| => v[i] * c)
  }

  /** Scaling by `c` and then by `d` is scaling once by `f == c * d`. */
  lemma ScaleTwice(v: Vector, c: real, d: real, f: real)
    requires c * d == f
    ensures Scale(Scale(v, c), d) == Scale(v, f)
  {
    forall i | 0 <= i < |v|
      ensures Scale(Scale(v, c), d)[i] == Scale(v, f)[i]
    {
      assert (v[i] * c) * d == v[i] * (c * d);
    }
  }

  /** Scaling every entry by `c` scales the total by `c`. */
  lemma {:induction false} SumScaled(v: Vector, w: Vector, c: real)
    requires |w| == |v|
    requires forall i :: 0 <= i < |v| ==> w[i] == v[i] * c
    ensures Sum(w) == Sum(v) * c
  {
    if |v| > 0 {
      var n := |v| - 1;
      SumScaled(v[..n], w[..n], c);
    }
  }

  /** A total is at most `|v|` times any upper bound of the entries. */
  lemma {:induction false} SumAtMostLengthTimesBound(v: Vector, c: real)
    requires forall i :: 0 <= i < |v| ==> v[i] <= c
    ensures Sum(v) <= |v| as real * c
  {
    if |v| > 0 {
      var n := |v| - 1;
      SumAtMostLengthTimesBound(v[..n], c);
      StepBound(Sum(v[..n]), v[n], n as real, c);
    }
  }

  lemma StepBound(s: real, x: real, k: real, m: real)
    requires s <= k * m && x <= m
    ensures s + x <= (k + 1.0) * m
  {
  }

  /** Every column product with the zero vector vanishes, so a dense layer
      fed zeros returns its bias exactly. */
  lemma DenseOfZeros(w: Matrix, b: Vector, n: nat)
    requires IsMatrix(w, n, |b|)
    ensures Dense(Zeros(n), w, b) == b
  {
    forall j | 0 <= j < |b|
      ensures Dense(Zeros(n), w, b)[j] == b[j]
    {
      var c := Column(w, j);
      var products := seq(n, i requires 0 <= i < n => Zeros(n)[i] * c[i]);
      forall i | 0 <= i < n
        ensures products[i] == 0.0
      {
        assert Zeros(n)[i] == 0.0;
      }
      SumOfConstant(products, 0.0);
    }
  }

  // ---------------------------------------------------------------------
  // The row-combination reading of a dense layer

  /** Entrywise sum of two vectors of equal length. */
  function VecAdd(u: Vector, v: Vector): (r: Vector)
    requires |u| == |v|
    ensures |r| == |u|
    ensures forall i :: 0 <= i < |u| ==> r[i] == u[i] + v[i]
  {
    seq(|u|, i requires 0 <= i < |u| => u[i] + v[i])
  }

  /** x[0] * W[0] + ... + x[n - 1] * W[n - 1]: the rows of W weighted by the
      entries of x, added from the first row down. */
  function RowCombination(x: Vector, w: Matrix, cols: nat): (r: Vector)
    requires IsMatrix(w, |x|, cols)
    ensures |r| == cols
  {
    if |x| == 0 then Zeros(cols)
    else
      var n := |x| - 1;
      VecAdd(RowCombination(x[..n], w[..n], cols), Scale(w[n], x[n]))
  }

  /** The last row's contribution splits off an inner product with a
      column. */
  lemma DotStep(x: Vector, w: Matrix, cols: nat, j: nat)
    requires |x| > 0 && IsMatrix(w, |x|, cols) && j < cols
    ensures Dot(x, Column(w, j))
            == Dot(x[..|x| - 1], Column(w[..|x| - 1], j)) + x[|x| - 1] * w[|x| - 1][j]
  {
    var n := |x| - 1;
    var c := Column(w, j);
    var products := seq(|x|, i requires 0 <= i < |x| => x[i] * c[i]);
    var c' := Column(w[..n], j);
    var front := seq(n, i requires 0 <= i < n => x[..n][i] * c'[i]);
    forall i | 0 <= i < n
      ensures products[i] == front[i]
    {
      assert c'[i] == w[i][j] == c[i];
    }
    assert products[..n] == front;
  }

  /** Entry j of the row combination is the inner product of x with column
      j of W. */
  lemma {:induction false} RowCombinationEntries(x: Vector, w: Matrix, cols: nat)
    requires IsMatrix(w, |x|, cols)
    ensures forall j :: 0 <= j < cols ==> RowCombination(x, w, cols)[j] == Dot(x, Column(w, j))
  {
    if |x| > 0 {
      var n := |x| - 1;
      RowCombinationEntries(x[..n], w[..n], cols);
      forall j | 0 <= j < cols
        ensures RowCombination(x, w, cols)[j] == Dot(x, Column(w, j))
      {
        DotStep(x, w, cols, j);
      }
    }
  }

  /** `np.dot(x, W) + b` read row-wise: the rows of W weighted by x, plus
      the bias. */
  lemma {:induction false} DenseIsRowCombination(x: Vector, w: Matrix, b: Vector)
    requires IsMatrix(w, |x|, |b|)
    ensures Dense(x, w, b) == VecAdd(RowCombination(x, w, |b|), b)
  {
    RowCombinationEntries(x, w, |b|);
  }
}
