/** Failure-compatible results for the fatal errors the materials raise. */
module Outcomes {
  datatype Option<+T> = None | Some(value: T) {
    function GetOr(default: T): T {
      if Some? then value else default
    }
  }

  datatype Result<+T, +E> = Ok(value: T) | Err(error: E)
}

/**
 * Dense real vectors and matrices as sequences, with the few operations of
 * OOFEM's FloatArray / FloatMatrix that the materials use.  A "cleared"
 * matrix is the empty sequence (zero rows).
 */
module Algebra {
  type Vector = seq<real>
  type Matrix = seq<seq<real>>

  predicate IsMatrix(m: Matrix, rows: nat, cols: nat) {
    |m| == rows && forall i :: 0 <= i < rows ==> |m[i]| == cols
  }

  /** `c * v`, as FloatArray::times / beScaled. */
  function Scale(c: real, v: Vector): (r: Vector)
    ensures |r| == |v|
    ensures forall i :: 0 <= i < |v| ==> r[i] == c * v[i]
  {
    seq(|v|, i requires 0 <= i < |v| => c * v[i])
  }

  /** `c * m`, as FloatMatrix::times. */
  function ScaleMatrix(c: real, m: Matrix): (r: Matrix)
    ensures |r| == |m|
    ensures forall i :: 0 <= i < |m| ==> r[i] == Scale(c, m[i])
  {
    seq(|m|, i requires 0 <= i < |m| => Scale(c, m[i]))
  }

  /** Entry-wise difference of two matrices of one shape, as FloatMatrix::subtract. */
  function SubMatrix(a: Matrix, b: Matrix): (r: Matrix)
    requires |a| == |b| && forall i :: 0 <= i < |a| ==> |a[i]| == |b[i]|
    ensures |r| == |a|
    ensures forall i :: 0 <= i < |a| ==> |r[i]| == |a[i]|
    ensures forall i, j :: 0 <= i < |a| && 0 <= j < |a[i]| ==> r[i][j] == a[i][j] - b[i][j]
  {
    seq(|a|, i requires 0 <= i < |a| =>
      seq(|a[i]|, j requires 0 <= j < |a[i]| => a[i][j] - b[i][j]))
  }

  /** The rows-by-cols zero matrix (resize followed by zero). */
  function Zeros(rows: nat, cols: nat): (r: Matrix)
    ensures IsMatrix(r, rows, cols)
    ensures forall i, j :: 0 <= i < rows && 0 <= j < cols ==> r[i][j] == 0.0
  {
    seq(rows, i => seq(cols, j => 0.0))
  }

  /** The n-by-n identity scaled by c (beUnitMatrix followed by times). */
  function ScaledIdentity(n: nat, c: real): (r: Matrix)
    ensures IsMatrix(r, n, n)
    ensures forall i, j :: 0 <= i < n && 0 <= j < n ==> r[i][j] == (if i == j then c else 0.0)
  {
    seq(n, i => seq(n, j => if i == j then c else 0.0))
  }

  /** The column matrix holding v (FloatMatrix::initFromVector without transposition). */
  function Column(v: Vector): (r: Matrix)
    ensures IsMatrix(r, |v|, 1)
    ensures forall i :: 0 <= i < |v| ==> r[i][0] == v[i]
  {
    seq(|v|, i requires 0 <= i < |v| => [v[i]])
  }

  /** The dyadic product u v^T (FloatMatrix::beDyadicProductOf). */
  function Dyadic(u: Vector, v: Vector): (r: Matrix)
    ensures IsMatrix(r, |u|, |v|)
    ensures forall i, j :: 0 <= i < |u| && 0 <= j < |v| ==> r[i][j] == u[i] * v[j]
  {
    seq(|u|, i requires 0 <= i < |u| => seq(|v|, j requires 0 <= j < |v| => u[i] * v[j]))
  }

  function Dot(a: Vector, b: Vector): real
    requires |a| == |b|
  {
    if |a| == 0 then 0.0 else Dot(a[..|a| - 1], b[..|b| - 1]) + a[|a| - 1] * b[|b| - 1]
  }

  /** The product m v of a matrix with |v| columns and a vector (beProductOf). */
  function MatVec(m: Matrix, v: Vector): (r: Vector)
    requires forall i :: 0 <= i < |m| ==> |m[i]| == |v|
    ensures |r| == |m|
  {
    seq(|m|, i requires 0 <= i < |m| => Dot(m[i], v))
  }

  /** Entry-wise sum of two vectors of one length (FloatArray::add). */
  function Add(a: Vector, b: Vector): (r: Vector)
    requires |a| == |b|
    ensures |r| == |a|
    ensures forall i :: 0 <= i < |a| ==> r[i] == a[i] + b[i]
  {
    seq(|a|, i requires 0 <= i < |a| => a[i] + b[i])
  }

  /** Entry-wise difference of two vectors of one length (FloatArray::subtract). */
  function Sub(a: Vector, b: Vector): (r: Vector)
    requires |a| == |b|
    ensures |r| == |a|
    ensures forall i :: 0 <= i < |a| ==> r[i] == a[i] - b[i]
  {
    seq(|a|, i requires 0 <= i < |a| => a[i] - b[i])
  }

  /** The zero vector of length n (resize followed by zero). */
  function ZeroVector(n: nat): (r: Vector)
    ensures |r| == n
    ensures forall i :: 0 <= i < n ==> r[i] == 0.0
  {
    seq(n, i => 0.0)
  }

  /** The transpose of a matrix with `cols` columns (FloatMatrix::beTranspositionOf). */
  function Transpose(m: Matrix, cols: nat): (t: Matrix)
    requires forall i :: 0 <= i < |m| ==> |m[i]| == cols
    ensures IsMatrix(t, cols, |m|)
    ensures forall i, j :: 0 <= i < cols && 0 <= j < |m| ==> t[i][j] == m[j][i]
  {
    seq(cols, i requires 0 <= i < cols => seq(|m|, j requires 0 <= j < |m| => m[j][i]))
  }

  /** Any matrix maps the zero vector to the zero vector. */
  lemma {:induction false} MatVecZero(m: Matrix, v: Vector)
    requires forall i :: 0 <= i < |m| ==> |m[i]| == |v|
    requires forall j :: 0 <= j < |v| ==> v[j] == 0.0
    ensures MatVec(m, v) == ZeroVector(|m|)
  {
    forall i | 0 <= i < |m|
      ensures MatVec(m, v)[i] == 0.0
    {
      DotZeroRow(v, m[i]);
      DotCommutes(m[i], v);
    }
  }

  lemma {:induction false} DotCommutes(a: Vector, b: Vector)
    requires |a| == |b|
    ensures Dot(a, b) == Dot(b, a)
    decreases |a|
  {
    if |a| > 0 {
      DotCommutes(a[..|a| - 1], b[..|b| - 1]);
    }
  }

  /** The sign function of OOFEM's mathfem.h: -1, 0 or 1. */
  function Signum(x: real): real {
    if x < 0.0 then -1.0 else if x > 0.0 then 1.0 else 0.0
  }

  /** The absolute value. */
  function Abs(x: real): real {
    if x < 0.0 then -x else x
  }

  lemma MulNonNegative(a: real, b: real)
    requires a >= 0.0 && b >= 0.0
    ensures a * b >= 0.0
  {
  }

  /** A common non-zero factor cancels. */
  lemma CancelFactor(a: real, x: real, y: real)
    requires a != 0.0 && a * x == a * y
    ensures x == y
  {
    assert a * (x - y) == 0.0;
  }

  /** A non-negative number whose square is x * x, for non-negative x, is x. */
  lemma {:induction false} SquareRootUnique(r: real, x: real)
    requires r >= 0.0 && x >= 0.0 && r * r == x * x
    ensures r == x
  {
    if r + x != 0.0 {
      assert (r + x) * r == r * r + x * r;
      assert (r + x) * x == r * x + x * x;
      CancelFactor(r + x, r, x);
    }
  }

  /** `x * signum(x)` is the absolute value of x. */
  lemma SignumTimesSelf(x: real)
    ensures x * Signum(x) == (if x < 0.0 then -x else x)
    ensures x * Signum(x) >= 0.0
    ensures x * Signum(x) == Abs(x)
  {
  }

  /** The scaled identity applied to a vector scales it. */
  lemma {:induction false} ScaledIdentityTimes(n: nat, c: real, v: Vector)
    requires |v| == n
    ensures MatVec(ScaledIdentity(n, c), v) == Scale(c, v)
  {
    var k := ScaledIdentity(n, c);
    forall i | 0 <= i < n
      ensures MatVec(k, v)[i] == c * v[i]
    {
      DotWithUnitRow(k[i], v, i, c);
    }
    assert MatVec(k, v) == Scale(c, v);
  }

  /** A row that is c at position i and 0 elsewhere picks out c times entry i. */
  lemma {:induction false} DotWithUnitRow(row: Vector, v: Vector, i: nat, c: real)
    requires |row| == |v| && i < |v|
    requires forall j :: 0 <= j < |row| ==> row[j] == (if j == i then c else 0.0)
    ensures Dot(row, v) == c * v[i]
    decreases |row|
  {
    var n := |row| - 1;
    if n == i {
      DotZeroRow(row[..n], v[..n]);
    } else {
      DotWithUnitRow(row[..n], v[..n], i, c);
    }
  }

  lemma {:induction false} DotZeroRow(row: Vector, v: Vector)
    requires |row| == |v|
    requires forall j :: 0 <= j < |row| ==> row[j] == 0.0
    ensures Dot(row, v) == 0.0
    decreases |row|
  {
    if |row| > 0 {
      DotZeroRow(row[..|row| - 1], v[..|v| - 1]);
    }
  }
}

/** OOFEM's enumerations that the gradient-damage materials switch on. */
module Modes {
  /** The material mode of a Gauss point; every other OOFEM mode is `OtherMode`. */
  datatype MaterialMode = OneD | PlaneStress | PlaneStrain | ThreeD | OtherMode

  /** MatResponseMode; `SecantStiffness` stands for every mode that is neither elastic nor tangent. */
  datatype ResponseMode = ElasticStiffness | TangentStiffness | SecantStiffness

  /** The internal-length formulation of the gradient-damage extension. */
  datatype Formulation = Standard | Eikonal
}
