/** The part of numpy the network uses, over exact reals: vectors, matrices
    stored row by row, dot products, matrix-vector products, transposition,
    sums and argmax. */
module Linear {

  type Vector = seq<real>
  type Matrix = seq<seq<real>>

  /** m has the given number of rows, each of the given length. */
  predicate IsMatrix(m: Matrix, rows: nat, cols: nat) {
    |m| == rows && forall i :: 0 <= i < |m| ==> |m[i]| == cols
  }

  predicate IsZero(v: Vector) {
    forall i :: 0 <= i < |v| ==> v[i] == 0.0
  }

  /** Sum of the entries, added from the first to the last. */
  function Sum(v: Vector): real
    decreases |v|
  {
    if |v| == 0 then 0.0 else Sum(v[..|v| - 1]) + v[|v| - 1]
  }

  /** Dot product of two vectors of the same length. */
  function Dot(u: Vector, v: Vector): real
    requires |u| == |v|
    decreases |u|
  {
    if |u| == 0 then 0.0 else Dot(u[..|u| - 1], v[..|v| - 1]) + u[|u| - 1] * v[|v| - 1]
  }

  /** numpy.dot of a matrix and a column vector. */
  function MatVec(m: Matrix, v: Vector): (r: Vector)
    requires forall i :: 0 <= i < |m| ==> |m[i]| == |v|
    ensures |r| == |m|
  {
    seq(|m|, i requires 0 <= i < |m| => Dot(m[i], v))
  }

  /** The transpose of a matrix with the given number of columns. */
  function Transpose(m: Matrix, cols: nat): (t: Matrix)
    requires IsMatrix(m, |m|, cols)
    ensures IsMatrix(t, cols, |m|)
  {
    seq(cols, j requires 0 <= j < cols =>
      seq(|m|, i requires 0 <= i < |m| => m[i][j]))
  }

  /** Index of the first largest entry, as numpy.argmax returns it. */
  function Argmax(v: Vector): (k: nat)
    requires |v| > 0
    ensures k < |v|
    ensures forall i :: 0 <= i < |v| ==> v[i] <= v[k]
    ensures forall i :: 0 <= i < k ==> v[i] < v[k]
    decreases |v|
  {
    if |v| == 1 then 0
    else
      var k := Argmax(v[..|v| - 1]);
      if v[|v| - 1] > v[k] then |v| - 1 else k
  }

  /** The two clauses of Argmax's contract pin down its result: the first
      index at which the maximum stands is the only one that meets them. */
  lemma ArgmaxUnique(v: Vector, k: nat)
    requires k < |v|
    requires forall i :: 0 <= i < |v| ==> v[i] <= v[k]
    requires forall i :: 0 <= i < k ==> v[i] < v[k]
    ensures Argmax(v) == k
  {
  }

  /** A dot product with a vector of zeros is zero. */
  lemma {:induction false} DotZero(u: Vector, v: Vector)
    requires |u| == |v|
    requires IsZero(v)
    ensures Dot(u, v) == 0.0
    decreases |u|
  {
    if |u| > 0 {
      DotZero(u[..|u| - 1], v[..|v| - 1]);
    }
  }

  /** The sum of two pieces is the sum of their sums, whatever the order
      of the additions. */
  lemma {:induction false} SumAppend(a: Vector, b: Vector)
    ensures Sum(a + b) == Sum(a) + Sum(b)
    decreases |b|
  {
    if |b| == 0 {
      assert a + b == a;
    } else {
      assert (a + b)[..|a + b| - 1] == a + b[..|b| - 1];
      assert (a + b)[|a + b| - 1] == b[|b| - 1];
      SumAppend(a, b[..|b| - 1]);
    }
  }

  /** A dot product is the sum of the entrywise products. */
  lemma {:induction false} DotIsSumOfProducts(u: Vector, v: Vector, p: Vector)
    requires |u| == |v| == |p|
    requires forall i :: 0 <= i < |p| ==> p[i] == u[i] * v[i]
    ensures Dot(u, v) == Sum(p)
    decreases |p|
  {
    if |p| > 0 {
      DotIsSumOfProducts(u[..|u| - 1], v[..|v| - 1], p[..|p| - 1]);
    }
  }

  /** Scaling every entry scales the sum. */
  lemma {:induction false} SumScale(v: Vector, w: Vector, c: real)
    requires |w| == |v|
    requires forall i :: 0 <= i < |v| ==> w[i] == v[i] * c
    ensures Sum(w) == Sum(v) * c
    decreases |v|
  {
    if |v| > 0 {
      SumScale(v[..|v| - 1], w[..|w| - 1], c);
    }
  }

  /** The sum of n copies of x. */
  lemma {:induction false} SumConstant(v: Vector, x: real)
    requires forall i :: 0 <= i < |v| ==> v[i] == x
    ensures Sum(v) == |v| as real * x
    decreases |v|
  {
    if |v| > 0 {
      SumConstant(v[..|v| - 1], x);
    }
  }

  /** Entries between lo and hi give a sum between n * lo and n * hi. */
  lemma {:induction false} SumBounds(v: Vector, lo: real, hi: real)
    requires forall i :: 0 <= i < |v| ==> lo <= v[i] <= hi
    ensures |v| as real * lo <= Sum(v) <= |v| as real * hi
    decreases |v|
  {
    if |v| > 0 {
      SumBounds(v[..|v| - 1], lo, hi);
      var n := (|v| - 1) as real;
      assert (n + 1.0) * lo == n * lo + lo && (n + 1.0) * hi == n * hi + hi;
    }
  }
}
