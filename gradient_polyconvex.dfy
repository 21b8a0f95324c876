/**
 * The gradient-polyconvex micromorphic material (OOFEM's
 * GradientPolyconvexMaterialOld,
 * src/sm/Materials/Micromorphic/GradientPolyconvex/gradientpolyconvexmaterialold.C).
 *
 * Finite-strain tensors are stored in vector form through giveVI (module
 * TensorIndex).  The micromorphic variable phi approximates the cofactor
 * of F; its relative stress is s = -Hk (cof F - phi).  The first
 * Piola-Kirchhoff stress adds a double-well term whose wells are the two
 * target metrics tC1, tC2 (the right Cauchy-Green tensors of simple shears
 * by +-(t + 1) eps).  The inverse and the determinant of F, and the
 * base-class conversions between full and reduced vector forms, are
 * external and come in a `Primitives` record.
 */
module GradientPolyconvex {
  import opened Outcomes
  import opened Algebra
  import opened Modes
  import opened TensorIndex
  import opened DenseArrays

  datatype Primitives = Primitives(
    inverse: Vector -> Vector,                  // vector form of F^-1 (FloatMatrix::beInverseOf)
    determinant: Vector -> real,                // J = det F (FloatMatrix::giveDeterminant)
    fullVectorFormF: Vector -> Vector,          // StructuralMaterial::giveFullVectorFormF, plane strain
    reducedVectorForm: Vector -> Vector,        // StructuralMaterial::giveReducedVectorForm, plane strain
    fullVectorForm: (Vector, MaterialMode) -> Vector)  // StructuralMaterial::giveFullVectorForm

  /** F is invertible: beInverseOf fails on a singular matrix. */
  predicate Invertible(prims: Primitives, vF: Vector) {
    |vF| == 9 && prims.determinant(vF) != 0.0 && |prims.inverse(vF)| == 9
  }

  // ---------------------------------------------------------------------
  // 3x3 tensor algebra
  // ---------------------------------------------------------------------

  /** a^T b for 3x3 matrices (FloatMatrix::beTProductOf). */
  function TProduct(a: Matrix, b: Matrix): (r: Matrix)
    requires IsMatrix(a, 3, 3) && IsMatrix(b, 3, 3)
    ensures IsMatrix(r, 3, 3)
  {
    seq(3, i requires 0 <= i < 3 => seq(3, j requires 0 <= j < 3 =>
      a[0][i] * b[0][j] + a[1][i] * b[1][j] + a[2][i] * b[2][j]))
  }

  /** The squared Frobenius norm of a 3x3 matrix. */
  function FrobeniusSquared(m: Matrix): real
    requires IsMatrix(m, 3, 3)
  {
    RowSquares(m[0]) + RowSquares(m[1]) + RowSquares(m[2])
  }

  function RowSquares(r: Vector): real
    requires |r| == 3
  {
    r[0] * r[0] + r[1] * r[1] + r[2] * r[2]
  }

  lemma SquareNonNegative(x: real)
    ensures x * x >= 0.0
  {
  }

  lemma SquarePositive(x: real)
    requires x != 0.0
    ensures x * x > 0.0
  {
  }

  /** The squared Frobenius norm is non-negative, and 0 for the zero matrix. */
  lemma {:induction false} FrobeniusSquaredSign(m: Matrix)
    requires IsMatrix(m, 3, 3)
    ensures FrobeniusSquared(m) >= 0.0
    ensures (forall i, j :: 0 <= i < 3 && 0 <= j < 3 ==> m[i][j] == 0.0) ==> FrobeniusSquared(m) == 0.0
  {
    forall i, j | 0 <= i < 3 && 0 <= j < 3 {
      SquareNonNegative(m[i][j]);
    }
    if forall i, j :: 0 <= i < 3 && 0 <= j < 3 ==> m[i][j] == 0.0 {
      assert m[0] == [0.0, 0.0, 0.0] && m[1] == [0.0, 0.0, 0.0] && m[2] == [0.0, 0.0, 0.0];
    }
  }

  /** The simple shear [[1, g, 0], [0, 1, 0], [0, 0, 1]]. */
  function SimpleShear(g: real): (f: Matrix)
    ensures IsMatrix(f, 3, 3)
  {
    [[1.0, g, 0.0], [0.0, 1.0, 0.0], [0.0, 0.0, 1.0]]
  }

  /**
   * A target metric of the double well: [[1, g, 0], [g, 1 + g^2, 0],
   * [0, 0, 1]]; tC1 takes g = (t + 1) eps and tC2 takes g = -(t + 1) eps.
   */
  function TargetMetric(g: real): (c: Matrix)
    ensures IsMatrix(c, 3, 3)
  {
    [[1.0, g, 0.0], [g, 1.0 + g * g, 0.0], [0.0, 0.0, 1.0]]
  }

  /**
   * The target metric is the right Cauchy-Green tensor F^T F of the simple
   * shear by g: the two wells are the shears by +-(t + 1) eps.  It is
   * symmetric, and the two targets differ only in the sign of the shear.
   */
  lemma {:induction false} TargetMetricIsSimpleShear(g: real)
    ensures TargetMetric(g) == TProduct(SimpleShear(g), SimpleShear(g))
    ensures forall i, j :: 0 <= i < 3 && 0 <= j < 3 ==> TargetMetric(g)[i][j] == TargetMetric(g)[j][i]
    ensures forall i, j :: 0 <= i < 3 && 0 <= j < 3 && !(i + j == 1) ==> TargetMetric(g)[i][j] == TargetMetric(-g)[i][j]
    ensures TargetMetric(-g)[0][1] == -TargetMetric(g)[0][1]
  {
    var c, f := TargetMetric(g), TProduct(SimpleShear(g), SimpleShear(g));
    assert f[0] == [1.0, g, 0.0];
    assert f[1][1] == g * g + 1.0;
    assert f[1] == [g, 1.0 + g * g, 0.0];
    assert f[2] == [0.0, 0.0, 1.0];
  }

  /** The squared distance between the two target metrics is 8 g^2. */
  lemma {:induction false} TargetsDistance(g: real)
    ensures FrobeniusSquared(SubMatrix(TargetMetric(g), TargetMetric(-g))) == 8.0 * (g * g)
  {
    var d := SubMatrix(TargetMetric(g), TargetMetric(-g));
    assert d[0] == [0.0, 2.0 * g, 0.0];
    assert d[1] == [2.0 * g, 0.0, 0.0];
    assert d[2] == [0.0, 0.0, 0.0];
  }

  // ---------------------------------------------------------------------
  // dC/dF
  // ---------------------------------------------------------------------

  /** The entry of compute_dC_dF for C_ij and F_mn: F_mj delta_in + F_mi delta_jn. */
  function DCdFEntry(vF: Vector, i: nat, j: nat, m: nat, n: nat): real
    requires |vF| == 9 && i < 3 && j < 3 && m < 3 && n < 3
  {
    Comp(vF, m, j) * Delta[VI(i, n)] + Comp(vF, m, i) * Delta[VI(j, n)]
  }

  /** dC/dF as a 9x9 matrix value. */
  function DCdF(vF: Vector): (d: Matrix)
    requires |vF| == 9
    ensures IsMatrix(d, 9, 9)
    ensures forall a, b :: 0 <= a < 9 && 0 <= b < 9 ==> d[a][b] == DCdFEntry(vF, Row(a), Col(a), Row(b), Col(b))
  {
    seq(9, a requires 0 <= a < 9 => seq(9, b requires 0 <= b < 9 => DCdFEntry(vF, Row(a), Col(a), Row(b), Col(b))))
  }

  /** C = F^T F is symmetric, so dC_ij/dF_mn does not change when i and j are swapped. */
  lemma {:induction false} DCdFSwapSymmetric(vF: Vector)
    requires |vF| == 9
    ensures forall i, j, m, n :: 0 <= i < 3 && 0 <= j < 3 && 0 <= m < 3 && 0 <= n < 3 ==>
              DCdF(vF)[VI(i, j)][VI(m, n)] == DCdF(vF)[VI(j, i)][VI(m, n)]
  {
    forall i, j, m, n | 0 <= i < 3 && 0 <= j < 3 && 0 <= m < 3 && 0 <= n < 3
      ensures DCdF(vF)[VI(i, j)][VI(m, n)] == DCdF(vF)[VI(j, i)][VI(m, n)]
    {
      var d := DCdF(vF);
      assert d[VI(i, j)][VI(m, n)] == DCdFEntry(vF, i, j, m, n);
      assert d[VI(j, i)][VI(m, n)] == DCdFEntry(vF, j, i, m, n);
    }
  }

  /** compute_dC_dF: the four nested loops over i, j, m, n. */
  method ComputeDCdF(vF: Vector) returns (dCdF: array2<real>)
    requires |vF| == 9
    ensures dCdF.Length0 == 9 && dCdF.Length1 == 9
    ensures Entries(dCdF) == DCdF(vF)
  {
    dCdF := new real[9, 9];
    FillByComponents(dCdF, (i: nat, j: nat, m: nat, n: nat) requires i < 3 && j < 3 && m < 3 && n < 3 =>
      DCdFEntry(vF, i, j, m, n));
    assert forall a :: 0 <= a < 9 ==> Entries(dCdF)[a] == DCdF(vF)[a];
  }

  /**
   * dC/dF is the derivative of C = F^T F: for every direction E and step h,
   * C(F + h E) = C(F) + h (dC/dF : E) + h^2 E^T E, component by component.
   */
  lemma {:induction false} DCdFIsDerivativeOfC(vF: Vector, vE: Vector, h: real, i: nat, j: nat)
    requires |vF| == 9 && |vE| == 9 && i < 3 && j < 3
    ensures var f, e := MatrixForm(vF), MatrixForm(vE);
            TProduct(MatrixForm(Add(vF, Scale(h, vE))), MatrixForm(Add(vF, Scale(h, vE))))[i][j] ==
              Quadratic(TProduct(f, f)[i][j], DirectionalDCdF(vF, vE, i, j), TProduct(e, e)[i][j], h)
  {
    var f, e := MatrixForm(vF), MatrixForm(vE);
    var g := MatrixForm(Add(vF, Scale(h, vE)));
    ShiftedMatrixForm(vF, vE, h);
    ShiftedProduct(f, e, g, h, i, j);
    DirectionalDCdFValue(vF, vE, i, j);
  }

  /** The matrix form of F + h E is entry-wise f + h e. */
  lemma ShiftedMatrixForm(vF: Vector, vE: Vector, h: real)
    requires |vF| == 9 && |vE| == 9
    ensures var f, e, g := MatrixForm(vF), MatrixForm(vE), MatrixForm(Add(vF, Scale(h, vE)));
            forall k, l :: 0 <= k < 3 && 0 <= l < 3 ==> g[k][l] == f[k][l] + h * e[k][l]
  {
    var f, e, g := MatrixForm(vF), MatrixForm(vE), MatrixForm(Add(vF, Scale(h, vE)));
    forall k, l | 0 <= k < 3 && 0 <= l < 3
      ensures g[k][l] == f[k][l] + h * e[k][l]
    {
      var x := vE[VI(k, l)];
      assert e[k][l] == x;
      assert g[k][l] == vF[VI(k, l)] + h * x;
    }
  }

  /**
   * (F + h E)^T (F + h E) expanded in h, for 3x3 matrices: the sum rule for
   * F + D and the scaling rule for D = h E.
   */
  lemma {:induction false} ShiftedProduct(f: Matrix, e: Matrix, g: Matrix, h: real, i: nat, j: nat)
    requires IsMatrix(f, 3, 3) && IsMatrix(e, 3, 3) && IsMatrix(g, 3, 3) && i < 3 && j < 3
    requires forall k, l :: 0 <= k < 3 && 0 <= l < 3 ==> g[k][l] == f[k][l] + h * e[k][l]
    ensures TProduct(g, g)[i][j] == Quadratic(TProduct(f, f)[i][j], SymmetricPart(f, e, i, j), TProduct(e, e)[i][j], h)
  {
    var d := ScaleMatrix(h, e);
    ScaledSplit(f, e, g, d, h);
    SumProduct(f, d, g, i, j);
    ScaledParts(f, e, d, h, i, j, TProduct(f, f)[i][j]);
  }

  /** With D = h E, the matrix F + h E is F + D. */
  lemma ScaledSplit(f: Matrix, e: Matrix, g: Matrix, d: Matrix, h: real)
    requires IsMatrix(f, 3, 3) && IsMatrix(e, 3, 3) && IsMatrix(g, 3, 3) && d == ScaleMatrix(h, e)
    requires forall k, l :: 0 <= k < 3 && 0 <= l < 3 ==> g[k][l] == f[k][l] + h * e[k][l]
    ensures IsMatrix(d, 3, 3)
    ensures forall k, l :: 0 <= k < 3 && 0 <= l < 3 ==> d[k][l] == h * e[k][l]
    ensures forall k, l :: 0 <= k < 3 && 0 <= l < 3 ==> g[k][l] == f[k][l] + d[k][l]
  {
  }

  /** (F + D)^T (F + D) = F^T F + (F^T D + D^T F) + D^T D, for 3x3 matrices. */
  lemma {:induction false} SumProduct(f: Matrix, d: Matrix, g: Matrix, i: nat, j: nat)
    requires IsMatrix(f, 3, 3) && IsMatrix(d, 3, 3) && IsMatrix(g, 3, 3) && i < 3 && j < 3
    requires forall k, l :: 0 <= k < 3 && 0 <= l < 3 ==> g[k][l] == f[k][l] + d[k][l]
    ensures TProduct(g, g)[i][j] == TProduct(f, f)[i][j] + SymmetricPart(f, d, i, j) + TProduct(d, d)[i][j]
  {
    TProductEntry(g, g, i, j);
    TProductEntry(f, f, i, j);
    TProductEntry(d, d, i, j);
    ColumnSum(g[0][i], g[1][i], g[2][i], g[0][j], g[1][j], g[2][j],
              f[0][i], f[1][i], f[2][i], f[0][j], f[1][j], f[2][j],
              d[0][i], d[1][i], d[2][i], d[0][j], d[1][j], d[2][j]);
  }

  /** With D = h E, the first-order part scales by h and the second-order part by h^2 (t is the zeroth-order part). */
  lemma {:induction false} ScaledParts(f: Matrix, e: Matrix, d: Matrix, h: real, i: nat, j: nat, t: real)
    requires IsMatrix(f, 3, 3) && IsMatrix(e, 3, 3) && IsMatrix(d, 3, 3) && i < 3 && j < 3
    requires forall k, l :: 0 <= k < 3 && 0 <= l < 3 ==> d[k][l] == h * e[k][l]
    ensures t + SymmetricPart(f, d, i, j) + TProduct(d, d)[i][j] ==
            Quadratic(t, SymmetricPart(f, e, i, j), TProduct(e, e)[i][j], h)
  {
    TProductEntry(d, d, i, j);
    TProductEntry(e, e, i, j);
    ColumnScale(d[0][i], d[1][i], d[2][i], d[0][j], d[1][j], d[2][j],
                e[0][i], e[1][i], e[2][i], e[0][j], e[1][j], e[2][j],
                f[0][i], f[1][i], f[2][i], f[0][j], f[1][j], f[2][j], h, t);
  }

  /** Entry (i, j) of a^T b is the dot product of column i of a with column j of b. */
  lemma TProductEntry(a: Matrix, b: Matrix, i: nat, j: nat)
    requires IsMatrix(a, 3, 3) && IsMatrix(b, 3, 3) && i < 3 && j < 3
    ensures TProduct(a, b)[i][j] == a[0][i] * b[0][j] + a[1][i] * b[1][j] + a[2][i] * b[2][j]
  {
  }

  /** For columns x = a + c and y = b + d: x.y = a.b + (b.c + a.d) + c.d. */
  lemma ColumnSum(x0: real, x1: real, x2: real, y0: real, y1: real, y2: real,
                  a0: real, a1: real, a2: real, b0: real, b1: real, b2: real,
                  c0: real, c1: real, c2: real, d0: real, d1: real, d2: real)
    requires x0 == a0 + c0 && x1 == a1 + c1 && x2 == a2 + c2
    requires y0 == b0 + d0 && y1 == b1 + d1 && y2 == b2 + d2
    ensures x0 * y0 + x1 * y1 + x2 * y2 ==
            (a0 * b0 + a1 * b1 + a2 * b2) + ((b0 * c0 + a0 * d0) + (b1 * c1 + a1 * d1) + (b2 * c2 + a2 * d2))
              + (c0 * d0 + c1 * d1 + c2 * d2)
  {
  }

  /**
   * For columns x = h u and y = h v and any a, b: t + (the mixed terms of
   * a, b with x, y) + x.y is the quadratic in h with coefficients t, the
   * mixed terms with u, v, and u.v.
   */
  lemma ColumnScale(x0: real, x1: real, x2: real, y0: real, y1: real, y2: real,
                    u0: real, u1: real, u2: real, v0: real, v1: real, v2: real,
                    a0: real, a1: real, a2: real, b0: real, b1: real, b2: real, h: real, t: real)
    requires x0 == h * u0 && x1 == h * u1 && x2 == h * u2
    requires y0 == h * v0 && y1 == h * v1 && y2 == h * v2
    ensures t + ((b0 * x0 + a0 * y0) + (b1 * x1 + a1 * y1) + (b2 * x2 + a2 * y2)) + (x0 * y0 + x1 * y1 + x2 * y2) ==
            Quadratic(t, (b0 * u0 + a0 * v0) + (b1 * u1 + a1 * v1) + (b2 * u2 + a2 * v2), u0 * v0 + u1 * v1 + u2 * v2, h)
  {
    assert (b0 * x0 + a0 * y0) + (b1 * x1 + a1 * y1) + (b2 * x2 + a2 * y2) ==
           h * ((b0 * u0 + a0 * v0) + (b1 * u1 + a1 * v1) + (b2 * u2 + a2 * v2));
    assert x0 * y0 + x1 * y1 + x2 * y2 == h * h * (u0 * v0 + u1 * v1 + u2 * v2);
  }

  /** (F^T E + E^T F)_ij, the first-order change of F^T F in the direction E. */
  function SymmetricPart(f: Matrix, e: Matrix, i: nat, j: nat): real
    requires IsMatrix(f, 3, 3) && IsMatrix(e, 3, 3) && i < 3 && j < 3
  {
    (f[0][j] * e[0][i] + f[0][i] * e[0][j]) + (f[1][j] * e[1][i] + f[1][i] * e[1][j]) + (f[2][j] * e[2][i] + f[2][i] * e[2][j])
  }

  /** The polynomial c0 + h c1 + h^2 c2 in h. */
  function Quadratic(c0: real, c1: real, c2: real, h: real): real {
    c0 + h * c1 + h * h * c2
  }

  /** dC/dF applied to a direction E, summed over m, n in loop order. */
  function DirectionalDCdF(vF: Vector, vE: Vector, i: nat, j: nat): real
    requires |vF| == 9 && |vE| == 9 && i < 3 && j < 3
  {
    DCdFRow(vF, vE, i, j, 0) + DCdFRow(vF, vE, i, j, 1) + DCdFRow(vF, vE, i, j, 2)
  }

  function DCdFRow(vF: Vector, vE: Vector, i: nat, j: nat, m: nat): real
    requires |vF| == 9 && |vE| == 9 && i < 3 && j < 3 && m < 3
  {
    DCdFEntry(vF, i, j, m, 0) * Comp(vE, m, 0) + DCdFEntry(vF, i, j, m, 1) * Comp(vE, m, 1)
      + DCdFEntry(vF, i, j, m, 2) * Comp(vE, m, 2)
  }

  /** The Kronecker deltas collapse the sum to sum_m (F_mj E_mi + F_mi E_mj). */
  lemma {:induction false} DirectionalDCdFValue(vF: Vector, vE: Vector, i: nat, j: nat)
    requires |vF| == 9 && |vE| == 9 && i < 3 && j < 3
    ensures var f, e := MatrixForm(vF), MatrixForm(vE);
            DirectionalDCdF(vF, vE, i, j) == SymmetricPart(f, e, i, j)
  {
    DCdFRowValue(vF, vE, i, j, 0);
    DCdFRowValue(vF, vE, i, j, 1);
    DCdFRowValue(vF, vE, i, j, 2);
  }

  /** Row m of the directional derivative: F_mj E_mi + F_mi E_mj. */
  lemma {:induction false} DCdFRowValue(vF: Vector, vE: Vector, i: nat, j: nat, m: nat)
    requires |vF| == 9 && |vE| == 9 && i < 3 && j < 3 && m < 3
    ensures var f, e := MatrixForm(vF), MatrixForm(vE);
            DCdFRow(vF, vE, i, j, m) == f[m][j] * e[m][i] + f[m][i] * e[m][j]
  {
    var a, b := Comp(vF, m, j), Comp(vF, m, i);
    var e0, e1, e2 := Comp(vE, m, 0), Comp(vE, m, 1), Comp(vE, m, 2);
    DeltaIsKronecker(i, 0); DeltaIsKronecker(i, 1); DeltaIsKronecker(i, 2);
    DeltaIsKronecker(j, 0); DeltaIsKronecker(j, 1); DeltaIsKronecker(j, 2);
    KroneckerRow(a, b, e0, e1, e2, i, j, Delta[VI(i, 0)], Delta[VI(i, 1)], Delta[VI(i, 2)],
      Delta[VI(j, 0)], Delta[VI(j, 1)], Delta[VI(j, 2)]);
  }

  /** sum_n (a delta_in + b delta_jn) e_n == a e_i + b e_j, on plain reals. */
  lemma KroneckerRow(a: real, b: real, e0: real, e1: real, e2: real, i: nat, j: nat,
                     di0: real, di1: real, di2: real, dj0: real, dj1: real, dj2: real)
    requires i < 3 && j < 3
    requires di0 == (if i == 0 then 1.0 else 0.0) && di1 == (if i == 1 then 1.0 else 0.0) && di2 == (if i == 2 then 1.0 else 0.0)
    requires dj0 == (if j == 0 then 1.0 else 0.0) && dj1 == (if j == 1 then 1.0 else 0.0) && dj2 == (if j == 2 then 1.0 else 0.0)
    ensures (a * di0 + b * dj0) * e0 + (a * di1 + b * dj1) * e1 + (a * di2 + b * dj2) * e2 ==
            a * [e0, e1, e2][i] + b * [e0, e1, e2][j]
  {
  }

  // ---------------------------------------------------------------------
  // Cofactor, relative and higher-order stresses
  // ---------------------------------------------------------------------

  /** The cofactor J F^-T in vector form: component (i, j) is invF(j, i) J. */
  function Cofactor(prims: Primitives, vF: Vector): (c: Vector)
    requires Invertible(prims, vF)
    ensures |c| == 9
  {
    var vInvF, J := prims.inverse(vF), prims.determinant(vF);
    seq(9, k requires 0 <= k < 9 => Comp(vInvF, Col(k), Row(k)) * J)
  }

  /** The cofactor is J times the transpose of F^-1 (cofF = J invF^T). */
  lemma {:induction false} CofactorIsScaledTransposedInverse(prims: Primitives, vF: Vector)
    requires Invertible(prims, vF)
    ensures MatrixForm(Cofactor(prims, vF)) ==
              ScaleMatrix(prims.determinant(vF), Transpose(MatrixForm(prims.inverse(vF)), 3))
  {
    var vInvF, J := prims.inverse(vF), prims.determinant(vF);
    var c, t := MatrixForm(Cofactor(prims, vF)), Transpose(MatrixForm(vInvF), 3);
    forall i | 0 <= i < 3 ensures c[i] == Scale(J, t[i]) {
      forall j | 0 <= j < 3 ensures c[i][j] == Scale(J, t[i])[j] {
        var x := Comp(vInvF, j, i);
        assert t[i][j] == x;
        assert c[i][j] == x * J;
      }
    }
  }

  /** The relative stress s = -Hk (cof F - phi) of the 3D evaluator. */
  function RelativeStress(prims: Primitives, Hk: real, vF: Vector, phi: Vector): (s: Vector)
    requires Invertible(prims, vF) && |phi| == 9
    ensures |s| == 9
    ensures forall k :: 0 <= k < 9 ==> s[k] == -Hk * (Cofactor(prims, vF)[k] - phi[k])
  {
    Scale(-Hk, Sub(Cofactor(prims, vF), phi))
  }

  /** The higher-order stress M = Ak grad phi. */
  function HigherOrderStress(Ak: real, grad: Vector): (m: Vector)
    ensures |m| == |grad|
    ensures forall k :: 0 <= k < |grad| ==> m[k] == Ak * grad[k]
  {
    Scale(Ak, grad)
  }

  /** s vanishes exactly when phi is the cofactor of F (for a non-zero Hk). */
  lemma {:induction false} RelativeStressVanishesAtCofactor(prims: Primitives, Hk: real, vF: Vector, phi: Vector)
    requires Invertible(prims, vF) && |phi| == 9 && Hk != 0.0
    ensures RelativeStress(prims, Hk, vF, phi) == ZeroVector(9) <==> phi == Cofactor(prims, vF)
  {
    var s, c := RelativeStress(prims, Hk, vF, phi), Cofactor(prims, vF);
    forall k | 0 <= k < 9 ensures s[k] == 0.0 <==> phi[k] == c[k] {
      ScaledDifferenceZero(-Hk, c[k], phi[k], s[k]);
    }
    assert (s == ZeroVector(9)) == (forall k :: 0 <= k < 9 ==> s[k] == 0.0);
    assert (phi == c) == (forall k :: 0 <= k < 9 ==> phi[k] == c[k]);
  }

  /** a (x - y) is zero exactly when x == y, for a non-zero a. */
  lemma ScaledDifferenceZero(a: real, x: real, y: real, r: real)
    requires a != 0.0 && r == a * (x - y)
    ensures r == 0.0 <==> x == y
  {
    if r == 0.0 {
      CancelFactor(a, x - y, 0.0);
    }
  }

  // ---------------------------------------------------------------------
  // Micromorphic tangent blocks
  // ---------------------------------------------------------------------

  /**
   * The coefficient of the micromorphic loops:
   * invF(j, i) invF(p, o) - invF(p, i) invF(j, o).
   */
  function Minor(vInvF: Vector, i: nat, j: nat, o: nat, p: nat): real
    requires |vInvF| == 9 && i < 3 && j < 3 && o < 3 && p < 3
  {
    Comp(vInvF, j, i) * Comp(vInvF, p, o) - Comp(vInvF, p, i) * Comp(vInvF, j, o)
  }

  /**
   * The coefficient is symmetric under exchanging the pairs (i, j) and
   * (o, p), alternates under exchanging i with o or j with p, and is zero
   * when i == o or j == p.
   */
  lemma MinorSymmetries(vInvF: Vector, i: nat, j: nat, o: nat, p: nat)
    requires |vInvF| == 9 && i < 3 && j < 3 && o < 3 && p < 3
    ensures Minor(vInvF, i, j, o, p) == Minor(vInvF, o, p, i, j)
    ensures Minor(vInvF, i, j, o, p) == -Minor(vInvF, o, j, i, p)
    ensures Minor(vInvF, i, j, o, p) == -Minor(vInvF, i, p, o, j)
    ensures i == o || j == p ==> Minor(vInvF, i, j, o, p) == 0.0
  {
  }

  /** Entry (VI(i, j), VI(o, p)) of dSigdPhi and dSdUgrad in 3D: -J Hk times the coefficient. */
  function DSigDPhiEntry(prims: Primitives, Hk: real, vF: Vector, i: nat, j: nat, o: nat, p: nat): real
    requires Invertible(prims, vF) && i < 3 && j < 3 && o < 3 && p < 3
  {
    -prims.determinant(vF) * Hk * Minor(prims.inverse(vF), i, j, o, p)
  }

  /** The 3D 9x9 matrix of dSigdPhi and dSdUgrad. */
  function DSigDPhiMatrix(prims: Primitives, Hk: real, vF: Vector): (d: Matrix)
    requires Invertible(prims, vF)
    ensures IsMatrix(d, 9, 9)
    ensures forall a, b {:trigger d[a][b]} :: 0 <= a < 9 && 0 <= b < 9 ==> d[a][b] == DSigDPhiEntry(prims, Hk, vF, Row(a), Col(a), Row(b), Col(b))
  {
    seq(9, a requires 0 <= a < 9 => seq(9, b requires 0 <= b < 9 => DSigDPhiEntry(prims, Hk, vF, Row(a), Col(a), Row(b), Col(b))))
  }

  /**
   * The micromorphic part of the first Piola-Kirchhoff stress after the
   * first c of the nine (m, n) steps for component (i, j):
   * 0 - sum of coefficient(i, j, m, n) J s(m, n), in loop order.
   */
  function MicroPartial(vInvF: Vector, J: real, s: Vector, i: nat, j: nat, c: nat): real
    requires |vInvF| == 9 && |s| == 9 && i < 3 && j < 3 && c <= 9
  {
    if c == 0 then 0.0
    else MicroPartial(vInvF, J, s, i, j, c - 1) - MicroTerm(vInvF, J, s, i, j, (c - 1) / 3, (c - 1) % 3)
  }

  /** The term of step (m, n) for component (i, j): coefficient(i, j, m, n) J s(m, n). */
  function MicroTerm(vInvF: Vector, J: real, s: Vector, i: nat, j: nat, m: nat, n: nat): real
    requires |vInvF| == 9 && |s| == 9 && i < 3 && j < 3 && m < 3 && n < 3
  {
    Minor(vInvF, i, j, m, n) * J * Comp(s, m, n)
  }

  /** The term of the vPm loop body for component (i, j), as a function of the step (m, n). */
  function MicroTerms(vInvF: Vector, J: real, s: Vector, i: nat, j: nat): (f: (nat, nat) --> real)
    requires |vInvF| == 9 && |s| == 9 && i < 3 && j < 3
    ensures forall m, n :: m < 3 && n < 3 ==> f.requires(m, n)
  {
    (m: nat, n: nat) requires m < 3 && n < 3 => MicroTerm(vInvF, J, s, i, j, m, n)
  }

  /** The running component of vPm is minus the step sum of its terms. */
  lemma {:induction false} MicroPartialAsStepSum(vInvF: Vector, J: real, s: Vector, i: nat, j: nat, c: nat)
    requires |vInvF| == 9 && |s| == 9 && i < 3 && j < 3 && c <= 9
    ensures MicroPartial(vInvF, J, s, i, j, c) == -StepSum(MicroTerms(vInvF, J, s, i, j), c)
  {
    if c > 0 {
      MicroPartialAsStepSum(vInvF, J, s, i, j, c - 1);
    }
  }

  /** vPm: the micromorphic part of the first Piola-Kirchhoff stress. */
  function MicroStress(vInvF: Vector, J: real, s: Vector): (v: Vector)
    requires |vInvF| == 9 && |s| == 9
    ensures |v| == 9
    ensures forall i, j :: 0 <= i < 3 && 0 <= j < 3 ==> v[VI(i, j)] == MicroPartial(vInvF, J, s, i, j, 9)
  {
    seq(9, k requires 0 <= k < 9 => MicroPartial(vInvF, J, s, Row(k), Col(k), 9))
  }

  /** dSigdPhi applied to a change delta of phi, summed over (m, n) in loop order. */
  function DSigDPhiPartial(prims: Primitives, Hk: real, vF: Vector, delta: Vector, i: nat, j: nat, c: nat): real
    requires Invertible(prims, vF) && |delta| == 9 && i < 3 && j < 3 && c <= 9
  {
    StepSum(DSigDPhiTerms(prims, Hk, vF, delta, i, j), c)
  }

  function DSigDPhiTerm(prims: Primitives, Hk: real, vF: Vector, delta: Vector, i: nat, j: nat, m: nat, n: nat): real
    requires Invertible(prims, vF) && |delta| == 9 && i < 3 && j < 3 && m < 3 && n < 3
  {
    DSigDPhiEntry(prims, Hk, vF, i, j, m, n) * Comp(delta, m, n)
  }

  /** The term of dSigdPhi applied to delta for component (i, j), as a function of the step (m, n). */
  function DSigDPhiTerms(prims: Primitives, Hk: real, vF: Vector, delta: Vector, i: nat, j: nat): (f: (nat, nat) --> real)
    requires Invertible(prims, vF) && |delta| == 9 && i < 3 && j < 3
    ensures forall m, n :: m < 3 && n < 3 ==> f.requires(m, n)
  {
    (m: nat, n: nat) requires m < 3 && n < 3 => DSigDPhiTerm(prims, Hk, vF, delta, i, j, m, n)
  }

  /**
   * dSigdPhi is the exact derivative of the micromorphic stress vPm with
   * respect to phi: changing phi by delta changes each component of vPm by
   * sum over (m, n) of dSigdPhi(ij, mn) delta(mn).
   */
  lemma {:induction false} DSigDPhiIsDerivativeOfMicroStress(prims: Primitives, Hk: real, vF: Vector, phi: Vector, delta: Vector,
                                                            i: nat, j: nat)
    requires Invertible(prims, vF) && |phi| == 9 && |delta| == 9 && i < 3 && j < 3
    ensures var vInvF, J := prims.inverse(vF), prims.determinant(vF);
            MicroStress(vInvF, J, RelativeStress(prims, Hk, vF, Add(phi, delta)))[VI(i, j)]
              - MicroStress(vInvF, J, RelativeStress(prims, Hk, vF, phi))[VI(i, j)]
            == DSigDPhiPartial(prims, Hk, vF, delta, i, j, 9)
  {
    MicroPartialDifference(prims, Hk, vF, phi, delta, i, j, 9);
  }

  lemma {:induction false} MicroPartialDifference(prims: Primitives, Hk: real, vF: Vector, phi: Vector, delta: Vector,
                                                  i: nat, j: nat, c: nat)
    requires Invertible(prims, vF) && |phi| == 9 && |delta| == 9 && i < 3 && j < 3 && c <= 9
    ensures var vInvF, J := prims.inverse(vF), prims.determinant(vF);
            MicroPartial(vInvF, J, RelativeStress(prims, Hk, vF, Add(phi, delta)), i, j, c)
              - MicroPartial(vInvF, J, RelativeStress(prims, Hk, vF, phi), i, j, c)
            == DSigDPhiPartial(prims, Hk, vF, delta, i, j, c)
  {
    var vInvF, J := prims.inverse(vF), prims.determinant(vF);
    var s1, s0 := RelativeStress(prims, Hk, vF, Add(phi, delta)), RelativeStress(prims, Hk, vF, phi);
    var f1, f0, g := MicroTerms(vInvF, J, s1, i, j), MicroTerms(vInvF, J, s0, i, j), DSigDPhiTerms(prims, Hk, vF, delta, i, j);
    forall m, n | m < 3 && n < 3
      ensures f0(m, n) - f1(m, n) == g(m, n)
    {
      MicroTermDifference(prims, Hk, vF, phi, delta, i, j, m, n);
    }
    StepSumDifference(f1, f0, g, c);
    MicroPartialAsStepSum(vInvF, J, s1, i, j, c);
    MicroPartialAsStepSum(vInvF, J, s0, i, j, c);
  }

  /** One step (m, n): the term for phi + delta differs from the term for phi by minus dSigdPhi(ij, mn) delta(mn). */
  lemma MicroTermDifference(prims: Primitives, Hk: real, vF: Vector, phi: Vector, delta: Vector, i: nat, j: nat, m: nat, n: nat)
    requires Invertible(prims, vF) && |phi| == 9 && |delta| == 9 && i < 3 && j < 3 && m < 3 && n < 3
    ensures var vInvF, J := prims.inverse(vF), prims.determinant(vF);
            -MicroTerm(vInvF, J, RelativeStress(prims, Hk, vF, Add(phi, delta)), i, j, m, n)
              + MicroTerm(vInvF, J, RelativeStress(prims, Hk, vF, phi), i, j, m, n)
            == DSigDPhiTerm(prims, Hk, vF, delta, i, j, m, n)
  {
    var s1, s0 := RelativeStress(prims, Hk, vF, Add(phi, delta)), RelativeStress(prims, Hk, vF, phi);
    var k := VI(m, n);
    RelativeStressShift(Hk, Cofactor(prims, vF)[k], phi[k], Add(phi, delta)[k], Comp(delta, m, n), Comp(s1, m, n), Comp(s0, m, n));
    MicroStep(Minor(prims.inverse(vF), i, j, m, n), prims.determinant(vF), Hk, Comp(s1, m, n), Comp(s0, m, n), Comp(delta, m, n),
              DSigDPhiEntry(prims, Hk, vF, i, j, m, n));
  }

  /** Shifting phi by d shifts s = -Hk (cof - phi) by Hk d. */
  lemma RelativeStressShift(Hk: real, cof: real, phi: real, phi1: real, d: real, s1: real, s0: real)
    requires phi1 == phi + d && s1 == -Hk * (cof - phi1) && s0 == -Hk * (cof - phi)
    ensures s1 - s0 == Hk * d
  {
  }

  /** One loop step: the change of -c J s is -J Hk c d when s changes by Hk d. */
  lemma MicroStep(c: real, J: real, Hk: real, s1: real, s0: real, d: real, entry: real)
    requires s1 - s0 == Hk * d && entry == -J * Hk * c
    ensures -(c * J * s1) + c * J * s0 == entry * d
  {
    assert c * J * s1 - c * J * s0 == c * J * (s1 - s0);
  }

  /** dSdPhi: Hk times the identity, 5x5 in plane strain and 9x9 otherwise. */
  function DSdPhi(mode: MaterialMode, Hk: real): (d: Matrix)
    ensures var n := if mode == PlaneStrain then 5 else 9;
            IsMatrix(d, n, n) && forall a, b :: 0 <= a < n && 0 <= b < n ==> d[a][b] == (if a == b then Hk else 0.0)
  {
    ScaledIdentity(if mode == PlaneStrain then 5 else 9, Hk)
  }

  /** dMdPhiGrad: Ak times the identity, 10x10 in plane strain and 27x27 otherwise. */
  function DMdPhiGrad(mode: MaterialMode, Ak: real): (d: Matrix)
    ensures var n := if mode == PlaneStrain then 10 else 27;
            IsMatrix(d, n, n) && forall a, b :: 0 <= a < n && 0 <= b < n ==> d[a][b] == (if a == b then Ak else 0.0)
  {
    ScaledIdentity(if mode == PlaneStrain then 10 else 27, Ak)
  }

  /** In 3D, dSdPhi is the exact derivative of s with respect to phi: s(phi + d) - s(phi) = dSdPhi d. */
  lemma {:induction false} DSdPhiIsDerivativeOfRelativeStress(prims: Primitives, Hk: real, vF: Vector, phi: Vector, d: Vector)
    requires Invertible(prims, vF) && |phi| == 9 && |d| == 9
    ensures Sub(RelativeStress(prims, Hk, vF, Add(phi, d)), RelativeStress(prims, Hk, vF, phi)) == MatVec(DSdPhi(ThreeD, Hk), d)
  {
    var s1, s0, c := RelativeStress(prims, Hk, vF, Add(phi, d)), RelativeStress(prims, Hk, vF, phi), Cofactor(prims, vF);
    forall k | 0 <= k < 9 ensures s1[k] - s0[k] == Hk * d[k] {
      RelativeStressShift(Hk, c[k], phi[k], Add(phi, d)[k], d[k], s1[k], s0[k]);
    }
    ScaledIdentityTimes(9, Hk, d);
  }

  /** dMdPhiGrad is the exact derivative of M: M(g + d) - M(g) = dMdPhiGrad d. */
  lemma {:induction false} DMdPhiGradIsDerivativeOfHigherOrderStress(mode: MaterialMode, Ak: real, grad: Vector, d: Vector)
    requires |grad| == |d| == (if mode == PlaneStrain then 10 else 27)
    ensures Sub(HigherOrderStress(Ak, Add(grad, d)), HigherOrderStress(Ak, grad)) == MatVec(DMdPhiGrad(mode, Ak), d)
  {
    var m1, m0 := HigherOrderStress(Ak, Add(grad, d)), HigherOrderStress(Ak, grad);
    forall k | 0 <= k < |d| ensures m1[k] - m0[k] == Ak * d[k] {
      assert m1[k] == Ak * (grad[k] + d[k]);
    }
    ScaledIdentityTimes(|d|, Ak, d);
  }

  // ---------------------------------------------------------------------
  // First Piola-Kirchhoff stress
  // ---------------------------------------------------------------------

  /** The right Cauchy-Green tensor C = F^T F of a deformation gradient in vector form. */
  function RightCauchyGreen(vF: Vector): (c: Matrix)
    requires |vF| == 9
    ensures IsMatrix(c, 3, 3)
  {
    TProduct(MatrixForm(vF), MatrixForm(vF))
  }

  /** F G^T for 3x3 matrices (FloatMatrix::beProductTOf). */
  function ProductT(a: Matrix, b: Matrix): (r: Matrix)
    requires IsMatrix(a, 3, 3) && IsMatrix(b, 3, 3)
    ensures IsMatrix(r, 3, 3)
  {
    seq(3, i requires 0 <= i < 3 => seq(3, j requires 0 <= j < 3 =>
      a[i][0] * b[j][0] + a[i][1] * b[j][1] + a[i][2] * b[j][2]))
  }

  /**
   * The quantities the double-well stress and its stiffness are built from,
   * at one deformation gradient: vB = F F^T, n1 = |C - tC1|^2,
   * n2 = |C - tC2|^2, the vector forms vD1, vD2 of C - tC1 and C - tC2,
   * and their products w1 = dCdF^T vD1, w2 = dCdF^T vD2.
   */
  datatype DoubleWellTerms = DoubleWellTerms(vB: Vector, n1: real, n2: real, vD1: Vector, vD2: Vector, w1: Vector, w2: Vector)

  predicate WellSized(dw: DoubleWellTerms) {
    |dw.vB| == 9 && |dw.vD1| == 9 && |dw.vD2| == 9 && |dw.w1| == 9 && |dw.w2| == 9
  }

  /** The terms for a given vB, transposed tangent dCdFt and differences d1, d2. */
  function TermsOf(vB: Vector, dCdFt: Matrix, d1: Matrix, d2: Matrix): (dw: DoubleWellTerms)
    requires |vB| == 9 && IsMatrix(dCdFt, 9, 9) && IsMatrix(d1, 3, 3) && IsMatrix(d2, 3, 3)
    ensures WellSized(dw)
  {
    DoubleWellTerms(vB, FrobeniusSquared(d1), FrobeniusSquared(d2), VectorForm(d1), VectorForm(d2),
                    MatVec(dCdFt, VectorForm(d1)), MatVec(dCdFt, VectorForm(d2)))
  }

  /** The terms at the deformation gradient vF for the targets tC1, tC2. */
  function DoubleWellTermsAt(vF: Vector, tC1: Matrix, tC2: Matrix): (dw: DoubleWellTerms)
    requires |vF| == 9 && IsMatrix(tC1, 3, 3) && IsMatrix(tC2, 3, 3)
    ensures WellSized(dw)
  {
    var c := RightCauchyGreen(vF);
    TermsOf(VectorForm(ProductT(MatrixForm(vF), MatrixForm(vF))), Transpose(DCdF(vF), 9),
            SubMatrix(c, tC1), SubMatrix(c, tC2))
  }

  /** alpha (arb1 + arb2) with arb1 = 2 n2 w1 and arb2 = 2 n1 w2. */
  function DoubleWell(alpha: real, dw: DoubleWellTerms): (v: Vector)
    requires WellSized(dw)
    ensures |v| == 9
  {
    Scale(alpha, Add(Scale(2.0 * dw.n2, dw.w1), Scale(2.0 * dw.n1, dw.w2)))
  }

  /** The double-well part of the first Piola-Kirchhoff stress. */
  function DoubleWellStress(vF: Vector, tC1: Matrix, tC2: Matrix, alpha: real): (v: Vector)
    requires |vF| == 9 && IsMatrix(tC1, 3, 3) && IsMatrix(tC2, 3, 3)
    ensures |v| == 9
  {
    DoubleWell(alpha, DoubleWellTermsAt(vF, tC1, tC2))
  }

  /** vP: the double-well part plus the micromorphic part vPm. */
  function FirstPiolaStress(prims: Primitives, Hk: real, alpha: real, vF: Vector, phi: Vector, tC1: Matrix, tC2: Matrix): (v: Vector)
    requires Invertible(prims, vF) && |phi| == 9 && IsMatrix(tC1, 3, 3) && IsMatrix(tC2, 3, 3)
    ensures |v| == 9
  {
    Add(DoubleWellStress(vF, tC1, tC2, alpha),
        MicroStress(prims.inverse(vF), prims.determinant(vF), RelativeStress(prims, Hk, vF, phi)))
  }

  /** The combination vanishes when one of the two wells is reached (n1 = 0 and w1 = 0, or n2 = 0 and w2 = 0). */
  lemma {:induction false} DoubleWellVanishes(alpha: real, dw: DoubleWellTerms)
    requires WellSized(dw)
    requires (dw.n1 == 0.0 && dw.w1 == ZeroVector(9)) || (dw.n2 == 0.0 && dw.w2 == ZeroVector(9))
    ensures DoubleWell(alpha, dw) == ZeroVector(9)
  {
    if dw.n1 == 0.0 && dw.w1 == ZeroVector(9) {
      ScaleOfZero(2.0 * dw.n2, dw.w1);
      ZeroScale(2.0 * dw.n1, dw.w2);
    } else {
      ZeroScale(2.0 * dw.n2, dw.w1);
      ScaleOfZero(2.0 * dw.n1, dw.w2);
    }
    var arb1, arb2 := Scale(2.0 * dw.n2, dw.w1), Scale(2.0 * dw.n1, dw.w2);
    AddZeros(arb1, arb2);
    ScaleOfZero(alpha, Add(arb1, arb2));
  }

  /** A zero difference gives a zero norm and a zero product with the tangent. */
  lemma {:induction false} WellTerms(dCdFt: Matrix, d: Matrix)
    requires IsMatrix(dCdFt, 9, 9) && IsMatrix(d, 3, 3)
    requires forall i, j :: 0 <= i < 3 && 0 <= j < 3 ==> d[i][j] == 0.0
    ensures FrobeniusSquared(d) == 0.0 && MatVec(dCdFt, VectorForm(d)) == ZeroVector(9)
  {
    ZeroDifference(d);
    MatVecZero(dCdFt, VectorForm(d));
  }

  /** At the first well (C == tC1) the first norm and the first product vanish. */
  lemma {:induction false} FirstWellTerms(vF: Vector, tC1: Matrix, tC2: Matrix)
    requires |vF| == 9 && IsMatrix(tC1, 3, 3) && IsMatrix(tC2, 3, 3)
    requires RightCauchyGreen(vF) == tC1
    ensures var dw := DoubleWellTermsAt(vF, tC1, tC2); dw.n1 == 0.0 && dw.w1 == ZeroVector(9)
  {
    WellTerms(Transpose(DCdF(vF), 9), SubMatrix(RightCauchyGreen(vF), tC1));
  }

  /** At the second well (C == tC2) the second norm and the second product vanish. */
  lemma {:induction false} SecondWellTerms(vF: Vector, tC1: Matrix, tC2: Matrix)
    requires |vF| == 9 && IsMatrix(tC1, 3, 3) && IsMatrix(tC2, 3, 3)
    requires RightCauchyGreen(vF) == tC2
    ensures var dw := DoubleWellTermsAt(vF, tC1, tC2); dw.n2 == 0.0 && dw.w2 == ZeroVector(9)
  {
    WellTerms(Transpose(DCdF(vF), 9), SubMatrix(RightCauchyGreen(vF), tC2));
  }

  /** At either well (C == tC1 or C == tC2) the double-well stress is zero. */
  lemma {:induction false} DoubleWellStressVanishesAtWells(vF: Vector, tC1: Matrix, tC2: Matrix, alpha: real)
    requires |vF| == 9 && IsMatrix(tC1, 3, 3) && IsMatrix(tC2, 3, 3)
    requires RightCauchyGreen(vF) == tC1 || RightCauchyGreen(vF) == tC2
    ensures DoubleWellStress(vF, tC1, tC2, alpha) == ZeroVector(9)
  {
    if RightCauchyGreen(vF) == tC1 {
      FirstWellTerms(vF, tC1, tC2);
    } else {
      SecondWellTerms(vF, tC1, tC2);
    }
    DoubleWellVanishes(alpha, DoubleWellTermsAt(vF, tC1, tC2));
  }

  /** A zero 3x3 matrix has norm 0 and the zero vector form. */
  lemma {:induction false} ZeroDifference(d: Matrix)
    requires IsMatrix(d, 3, 3)
    requires forall i, j :: 0 <= i < 3 && 0 <= j < 3 ==> d[i][j] == 0.0
    ensures 2.0 * FrobeniusSquared(d) == 0.0
    ensures forall k :: 0 <= k < 9 ==> VectorForm(d)[k] == 0.0
  {
    FrobeniusSquaredSign(d);
    forall k | 0 <= k < 9 ensures VectorForm(d)[k] == 0.0 {
      VIOnto(k);
    }
  }

  lemma ScaleOfZero(c: real, v: Vector)
    requires v == ZeroVector(9)
    ensures Scale(c, v) == ZeroVector(9)
  {
    assert forall i :: 0 <= i < 9 ==> Scale(c, v)[i] == 0.0;
  }

  lemma ZeroScale(c: real, v: Vector)
    requires c == 0.0 && |v| == 9
    ensures Scale(c, v) == ZeroVector(9)
  {
    assert forall i :: 0 <= i < 9 ==> Scale(c, v)[i] == 0.0;
  }

  lemma AddZeros(a: Vector, b: Vector)
    requires a == ZeroVector(9) && b == ZeroVector(9)
    ensures Add(a, b) == ZeroVector(9)
  {
    assert forall i :: 0 <= i < 9 ==> Add(a, b)[i] == 0.0;
  }

  /**
   * The sheared configurations are the stress-free wells: the shear by g has
   * zero double-well stress when TargetMetric(g) is the first target ...
   */
  lemma {:induction false} ShearIsFirstWell(g: real, tC2: Matrix, alpha: real)
    requires IsMatrix(tC2, 3, 3)
    ensures DoubleWellStress(VectorForm(SimpleShear(g)), TargetMetric(g), tC2, alpha) == ZeroVector(9)
  {
    ShearIsWell(g);
    DoubleWellStressVanishesAtWells(VectorForm(SimpleShear(g)), TargetMetric(g), tC2, alpha);
  }

  /** ... and when it is the second target (so F = SimpleShear(+-g) for tC1, tC2 = TargetMetric(+-g)). */
  lemma {:induction false} ShearIsSecondWell(g: real, tC1: Matrix, alpha: real)
    requires IsMatrix(tC1, 3, 3)
    ensures DoubleWellStress(VectorForm(SimpleShear(g)), tC1, TargetMetric(g), alpha) == ZeroVector(9)
  {
    ShearIsWell(g);
    DoubleWellStressVanishesAtWells(VectorForm(SimpleShear(g)), tC1, TargetMetric(g), alpha);
  }

  /** The right Cauchy-Green tensor of the simple shear by g is the target metric for g. */
  lemma {:induction false} ShearIsWell(g: real)
    ensures RightCauchyGreen(VectorForm(SimpleShear(g))) == TargetMetric(g)
  {
    FormsRoundTrip(VectorForm(SimpleShear(g)), SimpleShear(g));
    TargetMetricIsSimpleShear(g);
  }

  // ---------------------------------------------------------------------
  // Stiffness dP/dF (dSigdUgrad)
  // ---------------------------------------------------------------------

  /**
   * The double-well stiffness for P_ij and F_pq:
   * alpha (4 (B_ip delta_jq + F_iq F_pj)(n1 + n2) + 4 D1_jq delta_ip n2
   *        + 4 D2_jq delta_ip n1 + 4 w1_ij w2_pq + 4 w2_ij w1_pq).
   */
  function DoubleWellStiffness(alpha: real, vF: Vector, dw: DoubleWellTerms, i: nat, j: nat, p: nat, q: nat): real
    requires |vF| == 9 && WellSized(dw) && i < 3 && j < 3 && p < 3 && q < 3
  {
    alpha * (4.0 * (Comp(dw.vB, i, p) * Comp(Delta, j, q) + Comp(vF, i, q) * Comp(vF, p, j)) * (dw.n1 + dw.n2)
             + 4.0 * Comp(dw.vD1, j, q) * Comp(Delta, i, p) * dw.n2
             + 4.0 * Comp(dw.vD2, j, q) * Comp(Delta, i, p) * dw.n1
             + 4.0 * Comp(dw.w1, i, j) * Comp(dw.w2, p, q)
             + 4.0 * Comp(dw.w2, i, j) * Comp(dw.w1, p, q))
  }

  /**
   * The derivative of the coefficient Minor(i, j, m, n) with respect to
   * F(o, p), written with dInvF(a, b) / dF(o, p) = -invF(a, o) invF(p, b).
   */
  function MinorDerivative(vInvF: Vector, i: nat, j: nat, o: nat, p: nat, m: nat, n: nat): real
    requires |vInvF| == 9 && i < 3 && j < 3 && o < 3 && p < 3 && m < 3 && n < 3
  {
    - Comp(vInvF, j, o) * Comp(vInvF, p, i) * Comp(vInvF, n, m)
    - Comp(vInvF, j, i) * Comp(vInvF, n, o) * Comp(vInvF, p, m)
    + Comp(vInvF, n, o) * Comp(vInvF, p, i) * Comp(vInvF, j, m)
    + Comp(vInvF, n, i) * Comp(vInvF, j, o) * Comp(vInvF, p, m)
  }

  /** First term of step (m, n): -J s(m, n) Minor(i, j, m, n) invF(p, o). */
  function StiffnessTerm1(vInvF: Vector, J: real, s: Vector, i: nat, j: nat, o: nat, p: nat, m: nat, n: nat): real
    requires |vInvF| == 9 && |s| == 9 && i < 3 && j < 3 && o < 3 && p < 3 && m < 3 && n < 3
  {
    -J * Comp(s, m, n) * Minor(vInvF, i, j, m, n) * Comp(vInvF, p, o)
  }

  /** Second term of step (m, n): Hk J^2 Minor(o, p, m, n) Minor(i, j, m, n). */
  function StiffnessTerm2(vInvF: Vector, J: real, Hk: real, i: nat, j: nat, o: nat, p: nat, m: nat, n: nat): real
    requires |vInvF| == 9 && i < 3 && j < 3 && o < 3 && p < 3 && m < 3 && n < 3
  {
    Hk * J * J * Minor(vInvF, o, p, m, n) * Minor(vInvF, i, j, m, n)
  }

  /** Third term of step (m, n): -J s(m, n) MinorDerivative(i, j, o, p, m, n). */
  function StiffnessTerm3(vInvF: Vector, J: real, s: Vector, i: nat, j: nat, o: nat, p: nat, m: nat, n: nat): real
    requires |vInvF| == 9 && |s| == 9 && i < 3 && j < 3 && o < 3 && p < 3 && m < 3 && n < 3
  {
    -J * Comp(s, m, n) * MinorDerivative(vInvF, i, j, o, p, m, n)
  }

  /**
   * The micromorphic stiffness for P_ij and F_op after the first c of the
   * nine (m, n) steps, each step adding its three terms in order.
   */
  function MicroStiffnessPartial(vInvF: Vector, J: real, Hk: real, s: Vector, i: nat, j: nat, o: nat, p: nat, c: nat): real
    requires |vInvF| == 9 && |s| == 9 && i < 3 && j < 3 && o < 3 && p < 3 && c <= 9
  {
    if c == 0 then 0.0
    else
      var m, n := (c - 1) / 3, (c - 1) % 3;
      MicroStiffnessPartial(vInvF, J, Hk, s, i, j, o, p, c - 1)
        + StiffnessTerm1(vInvF, J, s, i, j, o, p, m, n)
        + StiffnessTerm2(vInvF, J, Hk, i, j, o, p, m, n)
        + StiffnessTerm3(vInvF, J, s, i, j, o, p, m, n)
  }

  /** Entry (VI(i, j), VI(o, p)) of dSigdUgrad in 3D: double-well plus micromorphic stiffness. */
  function DSigDUgradEntry(prims: Primitives, Hk: real, alpha: real, vF: Vector, phi: Vector, dw: DoubleWellTerms,
                           i: nat, j: nat, o: nat, p: nat): real
    requires Invertible(prims, vF) && |phi| == 9 && WellSized(dw) && i < 3 && j < 3 && o < 3 && p < 3
  {
    DoubleWellStiffness(alpha, vF, dw, i, j, o, p)
      + MicroStiffnessPartial(prims.inverse(vF), prims.determinant(vF), Hk, RelativeStress(prims, Hk, vF, phi), i, j, o, p, 9)
  }

  /** The 3D 9x9 matrix of dSigdUgrad at F = vF and phi, for the double-well terms dw of the targets. */
  function DSigDUgradMatrix(prims: Primitives, Hk: real, alpha: real, vF: Vector, phi: Vector, dw: DoubleWellTerms): (d: Matrix)
    requires Invertible(prims, vF) && |phi| == 9 && WellSized(dw)
    ensures IsMatrix(d, 9, 9)
    ensures forall a, b {:trigger d[a][b]} :: 0 <= a < 9 && 0 <= b < 9 ==>
              d[a][b] == DSigDUgradEntry(prims, Hk, alpha, vF, phi, dw, Row(a), Col(a), Row(b), Col(b))
  {
    seq(9, a requires 0 <= a < 9 => seq(9, b requires 0 <= b < 9 =>
      DSigDUgradEntry(prims, Hk, alpha, vF, phi, dw, Row(a), Col(a), Row(b), Col(b))))
  }

  predicate Symmetric3(m: Matrix)
    requires IsMatrix(m, 3, 3)
  {
    forall i, j :: 0 <= i < 3 && 0 <= j < 3 ==> m[i][j] == m[j][i]
  }

  /**
   * The double-well stiffness has the major symmetry (ij) <-> (pq) when B,
   * C - tC1 and C - tC2 are symmetric.
   */
  lemma {:induction false} DoubleWellStiffnessSymmetric(alpha: real, vF: Vector, dw: DoubleWellTerms, i: nat, j: nat, p: nat, q: nat)
    requires |vF| == 9 && WellSized(dw) && i < 3 && j < 3 && p < 3 && q < 3
    requires Comp(dw.vB, i, p) == Comp(dw.vB, p, i)
    requires Comp(dw.vD1, j, q) == Comp(dw.vD1, q, j) && Comp(dw.vD2, j, q) == Comp(dw.vD2, q, j)
    ensures DoubleWellStiffness(alpha, vF, dw, i, j, p, q) == DoubleWellStiffness(alpha, vF, dw, p, q, i, j)
  {
    DeltaIsKronecker(i, p);
    DeltaIsKronecker(p, i);
    DeltaIsKronecker(j, q);
    DeltaIsKronecker(q, j);
  }

  /** With a zero relative stress only the Hk J^2 Minor Minor terms remain, and they are symmetric. */
  lemma {:induction false} MicroStiffnessSymmetric(vInvF: Vector, J: real, Hk: real, s: Vector, i: nat, j: nat, o: nat, p: nat, c: nat)
    requires |vInvF| == 9 && |s| == 9 && i < 3 && j < 3 && o < 3 && p < 3 && c <= 9
    requires s == ZeroVector(9)
    ensures MicroStiffnessPartial(vInvF, J, Hk, s, i, j, o, p, c) == MicroStiffnessPartial(vInvF, J, Hk, s, o, p, i, j, c)
  {
    if c > 0 {
      var m, n := (c - 1) / 3, (c - 1) % 3;
      MicroStiffnessSymmetric(vInvF, J, Hk, s, i, j, o, p, c - 1);
      ZeroStressTerms(vInvF, J, s, i, j, o, p, m, n);
      ZeroStressTerms(vInvF, J, s, o, p, i, j, m, n);
      ProductOrder(Hk * J * J, Minor(vInvF, o, p, m, n), Minor(vInvF, i, j, m, n));
    }
  }

  lemma ZeroStressTerms(vInvF: Vector, J: real, s: Vector, i: nat, j: nat, o: nat, p: nat, m: nat, n: nat)
    requires |vInvF| == 9 && |s| == 9 && i < 3 && j < 3 && o < 3 && p < 3 && m < 3 && n < 3
    requires s == ZeroVector(9)
    ensures StiffnessTerm1(vInvF, J, s, i, j, o, p, m, n) == 0.0
    ensures StiffnessTerm3(vInvF, J, s, i, j, o, p, m, n) == 0.0
  {
    assert Comp(s, m, n) == 0.0;
  }

  lemma ProductOrder(a: real, x: real, y: real)
    ensures a * x * y == a * y * x
  {
  }

  /** B = F F^T and C = F^T F are symmetric. */
  lemma {:induction false} GramSymmetric(f: Matrix)
    requires IsMatrix(f, 3, 3)
    ensures Symmetric3(ProductT(f, f)) && Symmetric3(TProduct(f, f))
  {
  }

  /** A tensor in vector form is symmetric. */
  predicate SymmetricVector(v: Vector)
    requires |v| == 9
  {
    forall i, j :: 0 <= i < 3 && 0 <= j < 3 ==> Comp(v, i, j) == Comp(v, j, i)
  }

  /** dSigdUgrad is symmetric for a zero relative stress and symmetric B, C - tC1, C - tC2. */
  lemma {:induction false} DSigDUgradSymmetric(prims: Primitives, Hk: real, alpha: real, vF: Vector, phi: Vector, dw: DoubleWellTerms)
    requires Invertible(prims, vF) && |phi| == 9 && WellSized(dw)
    requires RelativeStress(prims, Hk, vF, phi) == ZeroVector(9)
    requires SymmetricVector(dw.vB) && SymmetricVector(dw.vD1) && SymmetricVector(dw.vD2)
    ensures var d := DSigDUgradMatrix(prims, Hk, alpha, vF, phi, dw);
            forall a, b :: 0 <= a < 9 && 0 <= b < 9 ==> d[a][b] == d[b][a]
  {
    var d := DSigDUgradMatrix(prims, Hk, alpha, vF, phi, dw);
    forall a, b | 0 <= a < 9 && 0 <= b < 9 ensures d[a][b] == d[b][a] {
      VIOnto(a);
      VIOnto(b);
      DSigDUgradEntrySymmetric(prims, Hk, alpha, vF, phi, dw, Row(a), Col(a), Row(b), Col(b));
    }
  }

  lemma {:induction false} DSigDUgradEntrySymmetric(prims: Primitives, Hk: real, alpha: real, vF: Vector, phi: Vector, dw: DoubleWellTerms,
                                                    i: nat, j: nat, o: nat, p: nat)
    requires Invertible(prims, vF) && |phi| == 9 && WellSized(dw) && i < 3 && j < 3 && o < 3 && p < 3
    requires RelativeStress(prims, Hk, vF, phi) == ZeroVector(9)
    requires SymmetricVector(dw.vB) && SymmetricVector(dw.vD1) && SymmetricVector(dw.vD2)
    ensures DSigDUgradEntry(prims, Hk, alpha, vF, phi, dw, i, j, o, p) == DSigDUgradEntry(prims, Hk, alpha, vF, phi, dw, o, p, i, j)
  {
    DoubleWellStiffnessSymmetric(alpha, vF, dw, i, j, o, p);
    MicroStiffnessSymmetric(prims.inverse(vF), prims.determinant(vF), Hk, RelativeStress(prims, Hk, vF, phi), i, j, o, p, 9);
  }

  /** For symmetric targets, B = F F^T, C - tC1 and C - tC2 are symmetric. */
  lemma {:induction false} DoubleWellTermsSymmetric(vF: Vector, tC1: Matrix, tC2: Matrix)
    requires |vF| == 9 && IsMatrix(tC1, 3, 3) && IsMatrix(tC2, 3, 3)
    requires Symmetric3(tC1) && Symmetric3(tC2)
    ensures var dw := DoubleWellTermsAt(vF, tC1, tC2);
            SymmetricVector(dw.vB) && SymmetricVector(dw.vD1) && SymmetricVector(dw.vD2)
  {
    var f := MatrixForm(vF);
    GramSymmetric(f);
    var c := RightCauchyGreen(vF);
    SymmetricDifference(c, tC1);
    SymmetricDifference(c, tC2);
    SymmetricForm(ProductT(f, f));
    SymmetricForm(SubMatrix(c, tC1));
    SymmetricForm(SubMatrix(c, tC2));
  }

  lemma SymmetricDifference(a: Matrix, b: Matrix)
    requires IsMatrix(a, 3, 3) && IsMatrix(b, 3, 3) && Symmetric3(a) && Symmetric3(b)
    ensures Symmetric3(SubMatrix(a, b))
  {
  }

  lemma SymmetricForm(m: Matrix)
    requires IsMatrix(m, 3, 3) && Symmetric3(m)
    ensures SymmetricVector(VectorForm(m))
  {
  }

  /**
   * Major symmetry of dSigdUgrad: when phi is the cofactor of F (zero
   * relative stress) and both targets are symmetric, entry (a, b) equals
   * entry (b, a), as the second derivative of an energy must.
   */
  lemma {:induction false} DSigDUgradSymmetricAtCofactor(prims: Primitives, Hk: real, alpha: real, vF: Vector, tC1: Matrix, tC2: Matrix)
    requires Invertible(prims, vF) && IsMatrix(tC1, 3, 3) && IsMatrix(tC2, 3, 3)
    requires Symmetric3(tC1) && Symmetric3(tC2)
    ensures var d := DSigDUgradMatrix(prims, Hk, alpha, vF, Cofactor(prims, vF), DoubleWellTermsAt(vF, tC1, tC2));
            forall a, b :: 0 <= a < 9 && 0 <= b < 9 ==> d[a][b] == d[b][a]
  {
    var phi := Cofactor(prims, vF);
    var s := RelativeStress(prims, Hk, vF, phi);
    forall k | 0 <= k < 9 ensures s[k] == 0.0 {
      ScaledDifferenceZeroAt(-Hk, phi[k], s[k]);
    }
    assert s == ZeroVector(9);
    DoubleWellTermsSymmetric(vF, tC1, tC2);
    DSigDUgradSymmetric(prims, Hk, alpha, vF, phi, DoubleWellTermsAt(vF, tC1, tC2));
  }

  /** a (x - x) is zero. */
  lemma ScaledDifferenceZeroAt(a: real, x: real, r: real)
    requires r == a * (x - x)
    ensures r == 0.0
  {
  }
}
