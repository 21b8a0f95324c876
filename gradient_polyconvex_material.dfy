/**
 * The material and status objects of OOFEM's GradientPolyconvexMaterialOld
 * (src/sm/Materials/Micromorphic/GradientPolyconvex/gradientpolyconvexmaterialold.C):
 * the parameters read from the input record, the target metrics the
 * material overwrites at every time step, the tangent blocks assembled in
 * 9x9 arrays by nested loops, the generalized-stress evaluators that fill
 * the temp status, and the values reported at integration points.  The
 * formulas themselves are those of module GradientPolyconvex.
 */
module PolyconvexMaterial {
  import opened Outcomes
  import opened Algebra
  import opened Modes
  import opened TensorIndex
  import opened DenseArrays
  import opened GradientPolyconvex

  /** The fatal error of the stress evaluator for a mode it does not support. */
  datatype Error = UnknownMaterialMode(mode: MaterialMode)

  /** The fields initializeFrom reads; Hk, Ak and eps are required, alpha and gamma optional. */
  datatype InputRecord = InputRecord(hk: Option<real>, ak: Option<real>, eps: Option<real>,
                                     alpha: Option<real>, gamma: Option<real>)

  datatype InputField = HkField | AkField | EpsField

  /** IRRT_OK, or the failure of IR_GIVE_FIELD for the first missing required field. */
  datatype InputResult = InputOk | MissingField(field: InputField)

  /** The three generalized stresses: first Piola-Kirchhoff vP, relative s and higher-order M. */
  datatype GeneralizedStresses = GeneralizedStresses(vP: Vector, s: Vector, M: Vector)

  /** The internal-state types giveIPValue answers itself; every other type goes to the base class. */
  datatype InternalStateType =
    | MicromorphicStress | MicromorphicStrain
    | MicromorphicRelativeStress | MicromorphicRelativeStrain
    | MicromorphicHigherOrderStress | MicromorphicHigherOrderStrain
    | MaxEquivalentStrainLevel | DeformationGradientTensor
    | OtherStateType

  // ---------------------------------------------------------------------
  // Status
  // ---------------------------------------------------------------------

  /**
   * GradientPolyconvexMaterialOldStatus.  The first four vectors belong to
   * the base statuses (structural and micromorphic) and are given to the
   * constructor; the micromorphic fields come in a committed and a temp copy.
   */
  class GradientPolyconvexMaterialOldStatus {
    var stressVector: Vector
    var strainVector: Vector
    var tempPVector: Vector
    var tempFVector: Vector
    var micromorphicVar: Vector
    var tempMicromorphicVar: Vector
    var micromorphicVarGrad: Vector
    var tempMicromorphicVarGrad: Vector
    var micromorphicStress: Vector
    var tempMicromorphicStress: Vector
    var micromorphicStressGrad: Vector
    var tempMicromorphicStressGrad: Vector

    /** The values the stress evaluator does not touch. */
    function Committed(): seq<Vector>
      reads this`stressVector, this`strainVector, this`micromorphicVar, this`micromorphicVarGrad,
            this`micromorphicStress, this`micromorphicStressGrad
    {
      [stressVector, strainVector, micromorphicVar, micromorphicVarGrad, micromorphicStress, micromorphicStressGrad]
    }

    /**
     * The temp values are those of an evaluation at F = vF, phi and grad
     * phi, for the constants Hk, Ak, alpha and the targets tC1, tC2: vP
     * is the first Piola-Kirchhoff stress, s the relative stress and M the
     * higher-order stress.
     */
    ghost predicate HoldsEvaluation(prims: Primitives, Hk: real, Ak: real, alpha: real, vF: Vector, phi: Vector, grad: Vector,
                                    tC1: Matrix, tC2: Matrix)
      reads this`tempFVector, this`tempMicromorphicVar, this`tempMicromorphicVarGrad,
            this`tempPVector, this`tempMicromorphicStress, this`tempMicromorphicStressGrad
    {
      Invertible(prims, vF) && |phi| == 9 && IsMatrix(tC1, 3, 3) && IsMatrix(tC2, 3, 3) &&
      tempFVector == vF && tempMicromorphicVar == phi && tempMicromorphicVarGrad == grad &&
      tempPVector == FirstPiolaStress(prims, Hk, alpha, vF, phi, tC1, tC2) &&
      tempMicromorphicStress == RelativeStress(prims, Hk, vF, phi) &&
      tempMicromorphicStressGrad == HigherOrderStress(Ak, grad)
    }

    /** The temp values an evaluation stores: F, phi and its gradient, vP, s and M. */
    method SetTempValues(vF: Vector, phi: Vector, grad: Vector, vP: Vector, s: Vector, M: Vector)
      modifies this`tempFVector, this`tempMicromorphicVar, this`tempMicromorphicVarGrad,
               this`tempPVector, this`tempMicromorphicStress, this`tempMicromorphicStressGrad
      ensures tempFVector == vF && tempMicromorphicVar == phi && tempMicromorphicVarGrad == grad
      ensures tempPVector == vP && tempMicromorphicStress == s && tempMicromorphicStressGrad == M
      ensures Committed() == old(Committed())
    {
      tempMicromorphicVar := phi;
      tempMicromorphicVarGrad := grad;
      tempPVector := vP;
      tempFVector := vF;
      tempMicromorphicStress := s;
      tempMicromorphicStressGrad := M;
    }

    /**
     * phi starts as the identity [1, 1, 1, 0, ...], the relative stress as
     * nine zeros and both gradients as eighteen zeros; each temp copy
     * equals its committed field.
     */
    constructor (stressVector: Vector, strainVector: Vector, tempPVector: Vector, tempFVector: Vector)
      ensures this.stressVector == stressVector && this.strainVector == strainVector
      ensures this.tempPVector == tempPVector && this.tempFVector == tempFVector
      ensures micromorphicVar == Delta && micromorphicStress == ZeroVector(9)
      ensures micromorphicVarGrad == ZeroVector(18) && micromorphicStressGrad == ZeroVector(18)
      ensures tempMicromorphicVar == micromorphicVar && tempMicromorphicVarGrad == micromorphicVarGrad
      ensures tempMicromorphicStress == micromorphicStress && tempMicromorphicStressGrad == micromorphicStressGrad
    {
      this.stressVector, this.strainVector := stressVector, strainVector;
      this.tempPVector, this.tempFVector := tempPVector, tempFVector;
      var phi := ZeroVector(9);
      phi := phi[0 := 1.0][1 := 1.0][2 := 1.0];
      micromorphicVar := phi;
      micromorphicStress := ZeroVector(9);
      micromorphicVarGrad := ZeroVector(18);
      micromorphicStressGrad := ZeroVector(18);
      tempMicromorphicVar := micromorphicVar;
      tempMicromorphicVarGrad := micromorphicVarGrad;
      tempMicromorphicStress := micromorphicStress;
      tempMicromorphicStressGrad := micromorphicStressGrad;
    }
  }

  /**
   * The initial phi is the cofactor of the undeformed configuration: for
   * F = I (inverse I, determinant 1) the relative stress at the initial
   * phi is zero.
   */
  lemma {:induction false} InitialMicromorphicVarIsUndeformedCofactor(prims: Primitives, Hk: real)
    requires prims.inverse(Delta) == Delta && prims.determinant(Delta) == 1.0
    ensures Invertible(prims, Delta)
    ensures Cofactor(prims, Delta) == Delta
    ensures RelativeStress(prims, Hk, Delta, Delta) == ZeroVector(9)
  {
    var c := Cofactor(prims, Delta);
    forall k | 0 <= k < 9 ensures c[k] == Delta[k] {
      VIOnto(k);
      DeltaIsKronecker(Col(k), Row(k));
      DeltaIsKronecker(Row(k), Col(k));
    }
    var s := RelativeStress(prims, Hk, Delta, Delta);
    forall k | 0 <= k < 9 ensures s[k] == 0.0 {
      ScaledDifferenceZeroAt(-Hk, Delta[k], s[k]);
    }
  }

  // ---------------------------------------------------------------------
  // Loops of the evaluator and of dSigdUgrad
  // ---------------------------------------------------------------------

  /**
   * The double-well quantities both the stress and the stiffness compute
   * from F and the targets: B = F F^T, C - tC1 and C - tC2 with their
   * squared norms, and the products dCdF^T (C - tCi).
   */
  method ComputeDoubleWellTerms(vF: Vector, tC1: Matrix, tC2: Matrix) returns (dw: DoubleWellTerms)
    requires |vF| == 9 && IsMatrix(tC1, 3, 3) && IsMatrix(tC2, 3, 3)
    ensures dw == DoubleWellTermsAt(vF, tC1, tC2)
  {
    var F := MatrixForm(vF);
    var vB := VectorForm(ProductT(F, F));
    var C := TProduct(F, F);
    var C_tC1 := SubMatrix(C, tC1);
    var C_tC2 := SubMatrix(C, tC2);
    var normSq1, normSq2 := FrobeniusSquared(C_tC1), FrobeniusSquared(C_tC2);
    var vC_tC1, vC_tC2 := VectorForm(C_tC1), VectorForm(C_tC2);
    var dCdF := ComputeDCdF(vF);
    var dCdFt := Transpose(Entries(dCdF), 9);
    dw := DoubleWellTerms(vB, normSq1, normSq2, vC_tC1, vC_tC2, MatVec(dCdFt, vC_tC1), MatVec(dCdFt, vC_tC2));
  }

  /**
   * The 3D body of dSigdUgrad on a zeroed 9x9 array: the double-well
   * loops, then the micromorphic loops with s = -Hk (cof F - phi).
   */
  method FillDSigDUgrad(answer: array2<real>, prims: Primitives, Hk: real, alpha: real, vF: Vector, phi: Vector,
                        dw: DoubleWellTerms)
    requires answer.Length0 == 9 && answer.Length1 == 9
    requires forall a, b :: 0 <= a < 9 && 0 <= b < 9 ==> answer[a, b] == 0.0
    requires Invertible(prims, vF) && |phi| == 9 && WellSized(dw)
    modifies answer
    ensures Entries(answer) == DSigDUgradMatrix(prims, Hk, alpha, vF, phi, dw)
  {
    AddByComponents(answer, (i: nat, j: nat, p: nat, q: nat) requires i < 3 && j < 3 && p < 3 && q < 3 =>
      DoubleWellStiffness(alpha, vF, dw, i, j, p, q));
    ghost var doubleWell := Entries(answer);
    var s := RelativeStress(prims, Hk, vF, phi);
    AddMicroStiffness(answer, prims.inverse(vF), prims.determinant(vF), Hk, s);
    ghost var full := Entries(answer);
    StiffnessFromParts(doubleWell, full, prims, Hk, alpha, vF, phi, dw);
    DSigDUgradByEntries(full, prims, Hk, alpha, vF, phi, dw);
  }

  /** The double-well pass followed by the micromorphic pass gives the entries of dSigdUgrad. */
  lemma {:induction false} StiffnessFromParts(doubleWell: Matrix, full: Matrix, prims: Primitives, Hk: real, alpha: real,
                                              vF: Vector, phi: Vector, dw: DoubleWellTerms)
    requires Invertible(prims, vF) && |phi| == 9 && WellSized(dw)
    requires IsMatrix(doubleWell, 9, 9) && IsMatrix(full, 9, 9)
    requires forall a, b {:trigger doubleWell[a][b]} :: 0 <= a < 9 && 0 <= b < 9 ==>
               doubleWell[a][b] == 0.0 + DoubleWellStiffness(alpha, vF, dw, Row(a), Col(a), Row(b), Col(b))
    requires forall a, b {:trigger full[a][b]} :: 0 <= a < 9 && 0 <= b < 9 ==>
               full[a][b] == doubleWell[a][b] + MicroStiffnessPartial(prims.inverse(vF), prims.determinant(vF), Hk,
                                                                      RelativeStress(prims, Hk, vF, phi), Row(a), Col(a), Row(b), Col(b), 9)
    ensures forall a, b {:trigger full[a][b]} :: 0 <= a < 9 && 0 <= b < 9 ==>
              full[a][b] == DSigDUgradEntry(prims, Hk, alpha, vF, phi, dw, Row(a), Col(a), Row(b), Col(b))
  {
  }

  lemma {:induction false} DSigDUgradByEntries(m: Matrix, prims: Primitives, Hk: real, alpha: real,
                                               vF: Vector, phi: Vector, dw: DoubleWellTerms)
    requires Invertible(prims, vF) && |phi| == 9 && WellSized(dw) && IsMatrix(m, 9, 9)
    requires forall a, b {:trigger m[a][b]} :: 0 <= a < 9 && 0 <= b < 9 ==>
               m[a][b] == DSigDUgradEntry(prims, Hk, alpha, vF, phi, dw, Row(a), Col(a), Row(b), Col(b))
    ensures m == DSigDUgradMatrix(prims, Hk, alpha, vF, phi, dw)
  {
    var d := DSigDUgradMatrix(prims, Hk, alpha, vF, phi, dw);
    forall a | 0 <= a < 9 ensures m[a] == d[a] {
    }
  }

  /** dSigdUgrad in 3D at F = vF and phi for the targets tC1, tC2. */
  ghost function DSigDUgrad3d(prims: Primitives, Hk: real, alpha: real, vF: Vector, phi: Vector, tC1: Matrix, tC2: Matrix): (d: Matrix)
    requires Invertible(prims, vF) && |phi| == 9 && IsMatrix(tC1, 3, 3) && IsMatrix(tC2, 3, 3)
    ensures IsMatrix(d, 9, 9)
  {
    DSigDUgradMatrix(prims, Hk, alpha, vF, phi, DoubleWellTermsAt(vF, tC1, tC2))
  }

  /** The 3D part of giveMicromorphicMatrix_dSigdUgrad: a zeroed 9x9 array, the terms, the two passes. */
  method AssembleDSigDUgrad(prims: Primitives, Hk: real, alpha: real, vF: Vector, phi: Vector, tC1: Matrix, tC2: Matrix)
    returns (answer: array2<real>)
    requires Invertible(prims, vF) && |phi| == 9 && IsMatrix(tC1, 3, 3) && IsMatrix(tC2, 3, 3)
    ensures answer.Length0 == 9 && answer.Length1 == 9
    ensures Entries(answer) == DSigDUgrad3d(prims, Hk, alpha, vF, phi, tC1, tC2)
  {
    answer := new real[9, 9]((_, _) => 0.0);
    var dw := ComputeDoubleWellTerms(vF, tC1, tC2);
    FillDSigDUgrad(answer, prims, Hk, alpha, vF, phi, dw);
  }

  /** The assembled 3D matrix, reduced in plane strain. */
  method DSigDUgradTangent(prims: Primitives, Hk: real, alpha: real, vF: Vector, phi: Vector, tC1: Matrix, tC2: Matrix,
                           planeStrain: bool)
    returns (answer: array2<real>)
    requires Invertible(prims, vF) && |phi| == 9 && IsMatrix(tC1, 3, 3) && IsMatrix(tC2, 3, 3)
    ensures TangentFor(answer, DSigDUgrad3d(prims, Hk, alpha, vF, phi, tC1, tC2), planeStrain)
  {
    var full := AssembleDSigDUgrad(prims, Hk, alpha, vF, phi, tC1, tC2);
    answer := ReduceForMode(full, planeStrain);
  }

  /**
   * The computation of giveFiniteStrainGeneralizedStressVectors_3d:
   * s = -Hk (cof F - phi), M = Ak grad phi, and vP = the double-well part
   * plus the micromorphic part accumulated by the vPm loops.
   */
  method EvaluateStresses(prims: Primitives, Hk: real, Ak: real, alpha: real, vF: Vector, phi: Vector, grad: Vector,
                          tC1: Matrix, tC2: Matrix)
    returns (vP: Vector, s: Vector, M: Vector)
    requires Invertible(prims, vF) && |phi| == 9 && IsMatrix(tC1, 3, 3) && IsMatrix(tC2, 3, 3)
    ensures vP == FirstPiolaStress(prims, Hk, alpha, vF, phi, tC1, tC2)
    ensures s == RelativeStress(prims, Hk, vF, phi)
    ensures M == HigherOrderStress(Ak, grad)
  {
    var vInvF := prims.inverse(vF);
    var J := prims.determinant(vF);
    var vCofF := Cofactor(prims, vF);
    s := Scale(-Hk, Sub(vCofF, phi));
    M := Scale(Ak, grad);
    var vPdw := ComputeDoubleWellStress(vF, tC1, tC2, alpha);
    var vPm := MicroStressLoops(vInvF, J, s);
    vP := Add(vPdw, vPm[..]);
  }

  /** The double-well part alpha (arb1 + arb2), arb1 = 2 n2 w1 and arb2 = 2 n1 w2. */
  method ComputeDoubleWellStress(vF: Vector, tC1: Matrix, tC2: Matrix, alpha: real) returns (v: Vector)
    requires |vF| == 9 && IsMatrix(tC1, 3, 3) && IsMatrix(tC2, 3, 3)
    ensures v == DoubleWellStress(vF, tC1, tC2, alpha)
  {
    var dw := ComputeDoubleWellTerms(vF, tC1, tC2);
    v := CombineWells(alpha, dw);
  }

  /** alpha (arb1 + arb2) from the double-well terms. */
  method CombineWells(alpha: real, dw: DoubleWellTerms) returns (v: Vector)
    requires WellSized(dw)
    ensures v == DoubleWell(alpha, dw)
  {
    var arb1 := Scale(2.0 * dw.n2, dw.w1);
    var arb2 := Scale(2.0 * dw.n1, dw.w2);
    v := Scale(alpha, Add(arb1, arb2));
  }

  /**
   * The nine (m, n) steps of the vPm loops for component (i, j):
   * vPm(ij) -= Minor J s(mn).  The running value is kept in a local and
   * written back once; the subtractions happen in the same order.
   */
  method AccumulateMicroComponent(vPm: array<real>, vInvF: Vector, J: real, s: Vector, i: nat, j: nat)
    requires vPm.Length == 9 && |vInvF| == 9 && |s| == 9 && i < 3 && j < 3
    requires vPm[VI(i, j)] == 0.0
    modifies vPm
    ensures vPm[VI(i, j)] == MicroPartial(vInvF, J, s, i, j, 9)
    ensures forall a :: 0 <= a < 9 && a != VI(i, j) ==> vPm[a] == old(vPm[a])
  {
    var acc := SubtractSteps(MicroTerms(vInvF, J, s, i, j), vPm[VI(i, j)]);
    MicroPartialAsStepSum(vInvF, J, s, i, j, 9);
    vPm[VI(i, j)] := acc;
  }

  /** vPm: the four nested loops of the 3D evaluator over i, j, m, n, from a zero vector. */
  method MicroStressLoops(vInvF: Vector, J: real, s: Vector) returns (vPm: array<real>)
    requires |vInvF| == 9 && |s| == 9
    ensures vPm.Length == 9 && vPm[..] == MicroStress(vInvF, J, s)
  {
    ghost var target := MicroStress(vInvF, J, s);
    vPm := new real[9](_ => 0.0);
    for i := 0 to 3
      invariant ComponentsBefore(vPm[..], target, 3 * i)
    {
      for j := 0 to 3
        invariant ComponentsBefore(vPm[..], target, 3 * i + j)
      {
        MicroStressComponent(vPm, vInvF, J, s, i, j);
      }
    }
    ComponentsAll(vPm[..], target);
  }

  /** Step (i, j) of the outer loops of vPm: component (i, j) receives its sum, the others keep theirs. */
  method MicroStressComponent(vPm: array<real>, vInvF: Vector, J: real, s: Vector, i: nat, j: nat)
    requires vPm.Length == 9 && |vInvF| == 9 && |s| == 9 && i < 3 && j < 3
    requires ComponentsBefore(vPm[..], MicroStress(vInvF, J, s), 3 * i + j)
    modifies vPm
    ensures ComponentsBefore(vPm[..], MicroStress(vInvF, J, s), 3 * i + j + 1)
  {
    ghost var prev := vPm[..];
    VIOnto(VI(i, j));
    AccumulateMicroComponent(vPm, vInvF, J, s, i, j);
    ComponentsStep(prev, vPm[..], MicroStress(vInvF, J, s), i, j);
  }

  /**
   * The nine (m, n) steps of the micromorphic stiffness loops for entry
   * (ij, op), three += each.  The running value is kept in a local and
   * written back once; the additions happen in the same order.
   */
  method AddMicroStiffnessEntry(answer: array2<real>, vInvF: Vector, J: real, Hk: real, s: Vector,
                                i: nat, j: nat, o: nat, p: nat)
    requires answer.Length0 == 9 && answer.Length1 == 9 && |vInvF| == 9 && |s| == 9
    requires i < 3 && j < 3 && o < 3 && p < 3
    modifies answer
    ensures answer[VI(i, j), VI(o, p)] == old(answer[VI(i, j), VI(o, p)]) + MicroStiffnessPartial(vInvF, J, Hk, s, i, j, o, p, 9)
    ensures forall a, b :: 0 <= a < 9 && 0 <= b < 9 && (a != VI(i, j) || b != VI(o, p)) ==> answer[a, b] == old(answer[a, b])
  {
    var x, y := VI(i, j), VI(o, p);
    var acc := MicroStiffnessSum(vInvF, J, Hk, s, i, j, o, p, answer[x, y]);
    answer[x, y] := acc;
  }

  /** start plus the three terms of each step (m, n) of the loops over m and n, in loop order. */
  method MicroStiffnessSum(vInvF: Vector, J: real, Hk: real, s: Vector, i: nat, j: nat, o: nat, p: nat, start: real)
    returns (acc: real)
    requires |vInvF| == 9 && |s| == 9 && i < 3 && j < 3 && o < 3 && p < 3
    ensures acc == start + MicroStiffnessPartial(vInvF, J, Hk, s, i, j, o, p, 9)
  {
    var fs := StiffnessTerms(vInvF, J, Hk, s, i, j, o, p);
    acc := AddSteps3(fs.0, fs.1, fs.2, start);
    MicroStiffnessAsStepSum(vInvF, J, Hk, s, i, j, o, p, 9);
  }

  /** The three terms of the loop body for entry (ij, op), as functions of the step (m, n). */
  function StiffnessTerms(vInvF: Vector, J: real, Hk: real, s: Vector, i: nat, j: nat, o: nat, p: nat)
    : (fs: ((nat, nat) --> real, (nat, nat) --> real, (nat, nat) --> real))
    requires |vInvF| == 9 && |s| == 9 && i < 3 && j < 3 && o < 3 && p < 3
    ensures forall m, n :: m < 3 && n < 3 ==> fs.0.requires(m, n) && fs.1.requires(m, n) && fs.2.requires(m, n)
  {
    ((m: nat, n: nat) requires m < 3 && n < 3 => StiffnessTerm1(vInvF, J, s, i, j, o, p, m, n),
     (m: nat, n: nat) requires m < 3 && n < 3 => StiffnessTerm2(vInvF, J, Hk, i, j, o, p, m, n),
     (m: nat, n: nat) requires m < 3 && n < 3 => StiffnessTerm3(vInvF, J, s, i, j, o, p, m, n))
  }

  /** The running micromorphic stiffness is the step sum of its three terms. */
  lemma {:induction false} MicroStiffnessAsStepSum(vInvF: Vector, J: real, Hk: real, s: Vector, i: nat, j: nat, o: nat, p: nat, c: nat)
    requires |vInvF| == 9 && |s| == 9 && i < 3 && j < 3 && o < 3 && p < 3 && c <= 9
    ensures var fs := StiffnessTerms(vInvF, J, Hk, s, i, j, o, p);
            MicroStiffnessPartial(vInvF, J, Hk, s, i, j, o, p, c) == StepSum3(fs.0, fs.1, fs.2, c)
  {
    if c > 0 {
      MicroStiffnessAsStepSum(vInvF, J, Hk, s, i, j, o, p, c - 1);
    }
  }

  /** The six nested loops of the micromorphic stiffness over i, j, o, p, m, n. */
  method AddMicroStiffness(answer: array2<real>, vInvF: Vector, J: real, Hk: real, s: Vector)
    requires answer.Length0 == 9 && answer.Length1 == 9 && |vInvF| == 9 && |s| == 9
    modifies answer
    ensures forall a, b :: 0 <= a < 9 && 0 <= b < 9 ==>
              answer[a, b] == old(answer[a, b]) + MicroStiffnessPartial(vInvF, J, Hk, s, Row(a), Col(a), Row(b), Col(b), 9)
  {
    ghost var f := MicroStiffnessOf(vInvF, J, Hk, s);
    ghost var base := Entries(answer);
    for i := 0 to 3
      invariant AddedBefore(Entries(answer), base, f, 27 * i)
    {
      for j := 0 to 3
        invariant AddedBefore(Entries(answer), base, f, 27 * i + 9 * j)
      {
        AddMicroStiffnessBlock(answer, base, vInvF, J, Hk, s, i, j);
      }
    }
    AddedAll(Entries(answer), base, f);
  }

  /** The loops over o and p for one (i, j): the entries of row ij receive their micromorphic stiffness. */
  method AddMicroStiffnessBlock(answer: array2<real>, ghost base: Matrix, vInvF: Vector, J: real, Hk: real, s: Vector,
                                i: nat, j: nat)
    requires answer.Length0 == 9 && answer.Length1 == 9 && IsMatrix(base, 9, 9) && |vInvF| == 9 && |s| == 9
    requires i < 3 && j < 3
    requires AddedBefore(Entries(answer), base, MicroStiffnessOf(vInvF, J, Hk, s), 27 * i + 9 * j)
    modifies answer
    ensures AddedBefore(Entries(answer), base, MicroStiffnessOf(vInvF, J, Hk, s), 27 * i + 9 * j + 9)
  {
    for o := 0 to 3
      invariant AddedBefore(Entries(answer), base, MicroStiffnessOf(vInvF, J, Hk, s), 27 * i + 9 * j + 3 * o)
    {
      for p := 0 to 3
        invariant AddedBefore(Entries(answer), base, MicroStiffnessOf(vInvF, J, Hk, s), 27 * i + 9 * j + 3 * o + p)
      {
        AddMicroStiffnessComponent(answer, base, vInvF, J, Hk, s, i, j, o, p);
      }
    }
  }

  /** The micromorphic stiffness of entry (ij, op) as a function of the four components. */
  function MicroStiffnessOf(vInvF: Vector, J: real, Hk: real, s: Vector): (f: (nat, nat, nat, nat) --> real)
    requires |vInvF| == 9 && |s| == 9
    ensures forall i, j, o, p :: i < 3 && j < 3 && o < 3 && p < 3 ==> f.requires(i, j, o, p)
  {
    (i: nat, j: nat, o: nat, p: nat) requires i < 3 && j < 3 && o < 3 && p < 3 =>
      MicroStiffnessPartial(vInvF, J, Hk, s, i, j, o, p, 9)
  }

  /** Step (i, j, o, p) of the outer loops: the entry (ij, op) receives its micromorphic stiffness. */
  method AddMicroStiffnessComponent(answer: array2<real>, ghost base: Matrix, vInvF: Vector, J: real, Hk: real, s: Vector,
                                    i: nat, j: nat, o: nat, p: nat)
    requires answer.Length0 == 9 && answer.Length1 == 9 && IsMatrix(base, 9, 9) && |vInvF| == 9 && |s| == 9
    requires i < 3 && j < 3 && o < 3 && p < 3
    requires AddedBefore(Entries(answer), base, MicroStiffnessOf(vInvF, J, Hk, s), 27 * i + 9 * j + 3 * o + p)
    modifies answer
    ensures AddedBefore(Entries(answer), base, MicroStiffnessOf(vInvF, J, Hk, s), 27 * i + 9 * j + 3 * o + p + 1)
  {
    ghost var prev := Entries(answer);
    AddMicroStiffnessEntry(answer, vInvF, J, Hk, s, i, j, o, p);
    AddedStep(prev, Entries(answer), base, MicroStiffnessOf(vInvF, J, Hk, s), i, j, o, p);
  }

  /** The four loops writing the coefficient of (ij, op) of dSigdPhi. */
  method FillMinors(answer: array2<real>, vInvF: Vector)
    requires answer.Length0 == 9 && answer.Length1 == 9 && |vInvF| == 9
    modifies answer
    ensures forall a, b {:trigger answer[a, b]} :: 0 <= a < 9 && 0 <= b < 9 ==>
              answer[a, b] == Minor(vInvF, Row(a), Col(a), Row(b), Col(b))
  {
    FillByComponents(answer, (i: nat, j: nat, o: nat, p: nat) requires i < 3 && j < 3 && o < 3 && p < 3 =>
      Minor(vInvF, i, j, o, p));
  }

  /** The coefficients, then the scaling by -J Hk. */
  method FillDSigDPhi(answer: array2<real>, prims: Primitives, Hk: real, vF: Vector)
    requires answer.Length0 == 9 && answer.Length1 == 9 && Invertible(prims, vF)
    modifies answer
    ensures Entries(answer) == DSigDPhiMatrix(prims, Hk, vF)
  {
    FillMinors(answer, prims.inverse(vF));
    ghost var filled := Entries(answer);
    ScaleInPlace(answer, -prims.determinant(vF) * Hk);
    ghost var scaled := Entries(answer);
    ScaledMinorsAreDSigDPhi(filled, scaled, prims, Hk, vF);
    DSigDPhiByEntries(scaled, prims, Hk, vF);
  }

  /** The coefficients scaled by -J Hk are the entries of dSigdPhi. */
  lemma {:induction false} ScaledMinorsAreDSigDPhi(filled: Matrix, scaled: Matrix, prims: Primitives, Hk: real, vF: Vector)
    requires Invertible(prims, vF) && IsMatrix(filled, 9, 9) && IsMatrix(scaled, 9, 9)
    requires forall a, b {:trigger filled[a][b]} :: 0 <= a < 9 && 0 <= b < 9 ==>
               filled[a][b] == Minor(prims.inverse(vF), Row(a), Col(a), Row(b), Col(b))
    requires forall a, b :: 0 <= a < 9 && 0 <= b < 9 ==>
               scaled[a][b] == (-prims.determinant(vF) * Hk) * filled[a][b]
    ensures forall a, b {:trigger scaled[a][b]} :: 0 <= a < 9 && 0 <= b < 9 ==>
              scaled[a][b] == DSigDPhiEntry(prims, Hk, vF, Row(a), Col(a), Row(b), Col(b))
  {
  }

  lemma {:induction false} DSigDPhiByEntries(m: Matrix, prims: Primitives, Hk: real, vF: Vector)
    requires Invertible(prims, vF) && IsMatrix(m, 9, 9)
    requires forall a, b {:trigger m[a][b]} :: 0 <= a < 9 && 0 <= b < 9 ==>
               m[a][b] == DSigDPhiEntry(prims, Hk, vF, Row(a), Col(a), Row(b), Col(b))
    ensures m == DSigDPhiMatrix(prims, Hk, vF)
  {
    var d := DSigDPhiMatrix(prims, Hk, vF);
    forall a | 0 <= a < 9 ensures m[a] == d[a] {
    }
  }

  // ---------------------------------------------------------------------
  // Values at integration points
  // ---------------------------------------------------------------------

  /** The relative-stress layout: 12 holds s(1) and 21 holds -s(1), the other seven are 0. */
  function RelativeStressLayout(s: Vector): (r: Vector)
    requires |s| >= 1
    ensures |r| == 9
  {
    ZeroVector(9)[5 := s[0]][8 := -s[0]]
  }

  /** The higher-order layout of M or kappa: 12 holds v(1) and 21 holds v(2), the other seven are 0. */
  function HigherOrderLayout(v: Vector): (r: Vector)
    requires |v| >= 2
    ensures |r| == 9
  {
    ZeroVector(9)[5 := v[0]][8 := v[1]]
  }

  /**
   * The layouts read as tensors: only the in-plane shear components are
   * set, the relative stress is skew in them, and the 2D values come back
   * out of components 12 and 21.
   */
  lemma {:induction false} LayoutsAsTensors(s: Vector, v: Vector)
    requires |s| >= 1 && |v| >= 2
    ensures Comp(RelativeStressLayout(s), 0, 1) == s[0] && Comp(RelativeStressLayout(s), 1, 0) == -s[0]
    ensures Comp(RelativeStressLayout(s), 0, 1) == -Comp(RelativeStressLayout(s), 1, 0)
    ensures Comp(HigherOrderLayout(v), 0, 1) == v[0] && Comp(HigherOrderLayout(v), 1, 0) == v[1]
    ensures forall i, j :: 0 <= i < 3 && 0 <= j < 3 && !(i < 2 && j < 2 && i != j) ==>
              Comp(RelativeStressLayout(s), i, j) == 0.0 && Comp(HigherOrderLayout(v), i, j) == 0.0
  {
    forall i, j | 0 <= i < 3 && 0 <= j < 3 && !(i < 2 && j < 2 && i != j)
      ensures Comp(RelativeStressLayout(s), i, j) == 0.0 && Comp(HigherOrderLayout(v), i, j) == 0.0
    {
      assert VI(i, j) != 5 && VI(i, j) != 8;
    }
  }

  /** The squared distances n1 = |C - tC1|^2 and n2 = |C - tC2|^2 of C = F^T F to the targets. */
  function WellDistances(vF: Vector, tC1: Matrix, tC2: Matrix): (n: (real, real))
    requires |vF| == 9 && IsMatrix(tC1, 3, 3) && IsMatrix(tC2, 3, 3)
    ensures n.0 >= 0.0 && n.1 >= 0.0
  {
    var c := RightCauchyGreen(vF);
    FrobeniusSquaredSign(SubMatrix(c, tC1));
    FrobeniusSquaredSign(SubMatrix(c, tC2));
    (FrobeniusSquared(SubMatrix(c, tC1)), FrobeniusSquared(SubMatrix(c, tC2)))
  }

  /**
   * IST_MaxEquivalentStrainLevel as written: when both distances are 0
   * the answer is assigned the integer 0, which FloatArray's constructor
   * from a size turns into an array of size 0.
   */
  function EquivalentStrainLevelAsWritten(vF: Vector, tC1: Matrix, tC2: Matrix): (r: Vector)
    requires |vF| == 9 && IsMatrix(tC1, 3, 3) && IsMatrix(tC2, 3, 3)
    ensures var n := WellDistances(vF, tC1, tC2);
            n.0 == 0.0 && n.1 == 0.0 ==> r == []
  {
    var n := WellDistances(vF, tC1, tC2);
    if n.0 == 0.0 && n.1 == 0.0 then [] else [n.0 / (n.0 + n.1)]
  }

  /** IST_MaxEquivalentStrainLevel: n1 / (n1 + n2), and 0 when C is at both targets. */
  function EquivalentStrainLevel(vF: Vector, tC1: Matrix, tC2: Matrix): (r: Vector)
    requires |vF| == 9 && IsMatrix(tC1, 3, 3) && IsMatrix(tC2, 3, 3)
    ensures |r| == 1 && 0.0 <= r[0] <= 1.0
  {
    var n := WellDistances(vF, tC1, tC2);
    if n.0 == 0.0 && n.1 == 0.0 then [0.0]
    else
      RatioBounds(n.0, n.1);
      [n.0 / (n.0 + n.1)]
  }

  lemma SelfRatio(d: real)
    requires d > 0.0
    ensures d / (d + 0.0) == 1.0
  {
  }

  lemma RatioBounds(a: real, b: real)
    requires a >= 0.0 && b >= 0.0 && !(a == 0.0 && b == 0.0)
    ensures a + b > 0.0 && 0.0 <= a / (a + b) <= 1.0
  {
  }

  /**
   * The two readings differ exactly when C sits on both targets at once;
   * with eps = 0 both targets are the identity and the undeformed state
   * F = I is such a point, where the value of size 1 comes out empty.
   */
  lemma {:induction false} EquivalentStrainLevelAsWrittenIsEmptyAtIdentity()
    ensures EquivalentStrainLevelAsWritten(Delta, TargetMetric(0.0), TargetMetric(0.0)) == []
    ensures EquivalentStrainLevel(Delta, TargetMetric(0.0), TargetMetric(0.0)) == [0.0]
  {
    IdentityIsUnsheared();
    ShearIsWell(0.0);
    AtTargetDistanceZero(TargetMetric(0.0));
    assert WellDistances(Delta, TargetMetric(0.0), TargetMetric(0.0)) == (0.0, 0.0);
  }

  /** C minus itself has squared norm 0. */
  lemma {:induction false} AtTargetDistanceZero(c: Matrix)
    requires IsMatrix(c, 3, 3)
    ensures FrobeniusSquared(SubMatrix(c, c)) == 0.0
  {
    FrobeniusSquaredSign(SubMatrix(c, c));
  }

  lemma {:induction false} IdentityIsUnsheared()
    ensures VectorForm(SimpleShear(0.0)) == Delta
  {
    var v := VectorForm(SimpleShear(0.0));
    forall k | 0 <= k < 9 ensures v[k] == Delta[k] {
      VIOnto(k);
      DeltaIsKronecker(Row(k), Col(k));
    }
  }

  /** Everywhere else the two readings agree. */
  lemma {:induction false} EquivalentStrainLevelReadingsAgree(vF: Vector, tC1: Matrix, tC2: Matrix)
    requires |vF| == 9 && IsMatrix(tC1, 3, 3) && IsMatrix(tC2, 3, 3)
    requires WellDistances(vF, tC1, tC2) != (0.0, 0.0)
    ensures EquivalentStrainLevelAsWritten(vF, tC1, tC2) == EquivalentStrainLevel(vF, tC1, tC2)
  {
  }

  /** The level is 0 at the first well: at the shear by g, with the targets of g and -g. */
  lemma {:induction false} EquivalentStrainLevelAtFirstWell(g: real)
    ensures EquivalentStrainLevel(VectorForm(SimpleShear(g)), TargetMetric(g), TargetMetric(-g)) == [0.0]
  {
    ShearIsWell(g);
    AtTargetDistanceZero(TargetMetric(g));
    TargetsDistance(g);
    var n := WellDistances(VectorForm(SimpleShear(g)), TargetMetric(g), TargetMetric(-g));
    assert n == (0.0, 8.0 * (g * g));
    if n.1 != 0.0 {
      ZeroRatio(n.1);
    }
  }

  /** The level is 1 at the second well: at the shear by -g, when g is not 0. */
  lemma {:induction false} EquivalentStrainLevelAtSecondWell(g: real)
    requires g != 0.0
    ensures EquivalentStrainLevel(VectorForm(SimpleShear(-g)), TargetMetric(g), TargetMetric(-g)) == [1.0]
  {
    SquarePositive(g);
    ShearIsWell(-g);
    AtTargetDistanceZero(TargetMetric(-g));
    TargetsDistance(-g);
    assert -(-g) == g;
    assert (-g) * (-g) == g * g;
    var d := 8.0 * (g * g);
    assert WellDistances(VectorForm(SimpleShear(-g)), TargetMetric(g), TargetMetric(-g)) == (d, 0.0);
    SelfRatio(d);
  }

  lemma ZeroRatio(d: real)
    requires d > 0.0
    ensures 0.0 / (0.0 + d) == 0.0
  {
  }

  // ---------------------------------------------------------------------
  // Material
  // ---------------------------------------------------------------------

  class GradientPolyconvexMaterialOld {
    var Hk: real
    var Ak: real
    var alpha: real
    var gamma: real
    var eps: real
    var tC1_0: Matrix
    var tC2_0: Matrix

    /** Hk = Ak = 0, alpha = 1e3, gamma = 1e-5; the targets are empty until initializeFrom. */
    constructor ()
      ensures Hk == 0.0 && Ak == 0.0 && alpha == 1000.0 && gamma == 0.00001
      ensures tC1_0 == [] && tC2_0 == []
    {
      Hk, Ak := 0.0, 0.0;
      alpha := 1000.0;
      gamma := 0.00001;
      eps := 0.0;
      tC1_0, tC2_0 := [], [];
    }

    /** The shear of the targets at intrinsic time t: tEps = (t + 1) eps. */
    function TargetShear(t: real): real
      reads this`eps
    {
      (t + 1.0) * eps
    }

    /** The stored targets are those of time t: the metrics of the shears by +-tEps. */
    ghost predicate HoldsTargetsOf(t: real)
      reads this`eps, this`tC1_0, this`tC2_0
    {
      tC1_0 == TargetMetric(TargetShear(t)) && tC2_0 == TargetMetric(-TargetShear(t))
    }

    /**
     * initializeFrom: Hk, Ak and eps are required and read in that order,
     * the first missing one ends the parse with the fields before it
     * already set; alpha keeps its value unless given; gamma becomes 1
     * unless given; the targets become the metrics of the shears by +-eps.
     */
    method InitializeFrom(rec: InputRecord) returns (r: InputResult)
      modifies this
      ensures r == (if rec.hk.None? then MissingField(HkField)
                    else if rec.ak.None? then MissingField(AkField)
                    else if rec.eps.None? then MissingField(EpsField)
                    else InputOk)
      ensures Hk == rec.hk.GetOr(old(Hk))
      ensures Ak == (if rec.hk.Some? then rec.ak.GetOr(old(Ak)) else old(Ak))
      ensures eps == (if r == InputOk then rec.eps.value else old(eps))
      ensures r == InputOk ==> alpha == rec.alpha.GetOr(old(alpha)) && gamma == rec.gamma.GetOr(1.0)
      ensures r == InputOk ==> tC1_0 == TargetMetric(eps) && tC2_0 == TargetMetric(-eps)
      ensures r != InputOk ==> alpha == old(alpha) && gamma == old(gamma) && tC1_0 == old(tC1_0) && tC2_0 == old(tC2_0)
    {
      if rec.hk.None? {
        return MissingField(HkField);
      }
      Hk := rec.hk.value;
      if rec.ak.None? {
        return MissingField(AkField);
      }
      Ak := rec.ak.value;
      if rec.eps.None? {
        return MissingField(EpsField);
      }
      var e := rec.eps.value;
      eps := e;
      alpha := rec.alpha.GetOr(alpha);
      gamma := 1.0;
      gamma := rec.gamma.GetOr(gamma);
      tC1_0 := [[1.0, e, 0.0], [e, 1.0 + e * e, 0.0], [0.0, 0.0, 1.0]];
      assert TargetMetric(e)[1][1] == 1.0 + e * e;
      assert tC1_0 == TargetMetric(e);
      tC2_0 := [[1.0, -e, 0.0], [-e, 1.0 + e * e, 0.0], [0.0, 0.0, 1.0]];
      assert (-e) * (-e) == e * e;
      assert TargetMetric(-e)[1][1] == 1.0 + e * e;
      assert tC2_0 == TargetMetric(-e);
      return InputOk;
    }

    /** givetC1: overwrites tC1_0 with the metric of the shear by tEps and returns it. */
    method GiveTC1(t: real) returns (tC1: Matrix)
      modifies this`tC1_0
      ensures tC1 == tC1_0 == TargetMetric(TargetShear(t))
    {
      var tEps := (t + 1.0) * eps;
      tC1_0 := [[1.0, tEps, 0.0], [tEps, 1.0 + tEps * tEps, 0.0], [0.0, 0.0, 1.0]];
      assert tC1_0 == TargetMetric(tEps) && TargetShear(t) == tEps;
      tC1 := tC1_0;
    }

    /** givetC2: overwrites tC2_0 with the metric of the shear by -tEps and returns it. */
    method GiveTC2(t: real) returns (tC2: Matrix)
      modifies this`tC2_0
      ensures tC2 == tC2_0 == TargetMetric(-TargetShear(t))
    {
      var tEps := (t + 1.0) * eps;
      tC2_0 := [[1.0, -tEps, 0.0], [-tEps, 1.0 + tEps * tEps, 0.0], [0.0, 0.0, 1.0]];
      assert (-tEps) * (-tEps) == tEps * tEps;
      assert tC2_0 == TargetMetric(-tEps) && TargetShear(t) == tEps;
      tC2 := tC2_0;
    }

    /**
     * giveMicromorphicMatrix_dSigdPhi: the coefficients written by the four
     * loops, scaled by -J Hk; in plane strain the 5x5 reduction.
     */
    method DSigDPhi(prims: Primitives, status: GradientPolyconvexMaterialOldStatus, mode: MaterialMode)
      returns (answer: array2<real>)
      requires Invertible(prims, status.tempFVector)
      ensures TangentFor(answer, DSigDPhiMatrix(prims, Hk, status.tempFVector), mode == PlaneStrain)
    {
      var vF := status.tempFVector;
      answer := new real[9, 9];
      FillDSigDPhi(answer, prims, Hk, vF);
      answer := ReduceForMode(answer, mode == PlaneStrain);
    }

    /**
     * giveMicromorphicMatrix_dSdUgrad: the same matrix as dSigdPhi; the
     * first column is set to the vector form of F^-1 and then overwritten
     * by the loops.
     */
    method DSdUgrad(prims: Primitives, status: GradientPolyconvexMaterialOldStatus, mode: MaterialMode)
      returns (answer: array2<real>)
      requires Invertible(prims, status.tempFVector)
      ensures TangentFor(answer, DSigDPhiMatrix(prims, Hk, status.tempFVector), mode == PlaneStrain)
    {
      var vF := status.tempFVector;
      var vInvF := prims.inverse(vF);
      answer := new real[9, 9];
      for k := 0 to 9 {
        answer[k, 0] := vInvF[k];
      }
      FillDSigDPhi(answer, prims, Hk, vF);
      answer := ReduceForMode(answer, mode == PlaneStrain);
    }

    /** givetC1 followed by givetC2, as every evaluation for a time t begins. */
    method UpdateTargets(t: real)
      modifies this`tC1_0, this`tC2_0
      ensures HoldsTargetsOf(t)
      ensures IsMatrix(tC1_0, 3, 3) && IsMatrix(tC2_0, 3, 3)
    {
      var tC1 := GiveTC1(t);
      var tC2 := GiveTC2(t);
    }

    /**
     * giveMicromorphicMatrix_dSigdUgrad: dP/dF at the temp F and phi of the
     * status, for the targets of time t (which it stores); in plane strain
     * the 5x5 reduction.
     */
    method DSigDUgrad(prims: Primitives, status: GradientPolyconvexMaterialOldStatus, mode: MaterialMode, t: real)
      returns (answer: array2<real>)
      requires Invertible(prims, status.tempFVector) && |status.tempMicromorphicVar| == 9
      modifies this`tC1_0, this`tC2_0
      ensures HoldsTargetsOf(t)
      ensures TangentFor(answer, DSigDUgrad3d(prims, Hk, alpha, status.tempFVector, status.tempMicromorphicVar, tC1_0, tC2_0),
                         mode == PlaneStrain)
    {
      var tC1 := GiveTC1(t);
      var tC2 := GiveTC2(t);
      answer := DSigDUgradAtTargets(prims, status, mode);
    }

    /** dSigdUgrad for the targets currently stored. */
    method DSigDUgradAtTargets(prims: Primitives, status: GradientPolyconvexMaterialOldStatus, mode: MaterialMode)
      returns (answer: array2<real>)
      requires Invertible(prims, status.tempFVector) && |status.tempMicromorphicVar| == 9
      requires IsMatrix(tC1_0, 3, 3) && IsMatrix(tC2_0, 3, 3)
      ensures TangentFor(answer, DSigDUgrad3d(prims, Hk, alpha, status.tempFVector, status.tempMicromorphicVar, tC1_0, tC2_0),
                         mode == PlaneStrain)
    {
      answer := DSigDUgradTangent(prims, Hk, alpha, status.tempFVector, status.tempMicromorphicVar, tC1_0, tC2_0, mode == PlaneStrain);
    }

    /**
     * giveFiniteStrainGeneralizedStressVectors_3d: s = -Hk (cof F - phi),
     * M = Ak grad phi and vP = the double-well part plus vPm for the
     * targets of time t; F, phi, grad phi, vP, s and M become the temp
     * values of the status and nothing else of it changes.
     */
    method GiveFiniteStrainGeneralizedStressVectors3d(prims: Primitives, status: GradientPolyconvexMaterialOldStatus,
                                                     vF: Vector, phi: Vector, grad: Vector, t: real)
      returns (vP: Vector, s: Vector, M: Vector)
      requires Invertible(prims, vF) && |phi| == 9
      modifies this`tC1_0, this`tC2_0,
               status`tempFVector, status`tempMicromorphicVar, status`tempMicromorphicVarGrad,
               status`tempPVector, status`tempMicromorphicStress, status`tempMicromorphicStressGrad
      ensures HoldsTargetsOf(t)
      ensures status.HoldsEvaluation(prims, Hk, Ak, alpha, vF, phi, grad, tC1_0, tC2_0)
      ensures vP == status.tempPVector && s == status.tempMicromorphicStress && M == status.tempMicromorphicStressGrad
      ensures status.Committed() == old(status.Committed())
    {
      UpdateTargets(t);
      vP, s, M := StressesAtTargets(prims, status, vF, phi, grad, t);
    }

    /** The 3D stresses for the targets of time t, already stored, written to the temp values of the status. */
    method StressesAtTargets(prims: Primitives, status: GradientPolyconvexMaterialOldStatus, vF: Vector, phi: Vector, grad: Vector,
                             ghost t: real)
      returns (vP: Vector, s: Vector, M: Vector)
      requires Invertible(prims, vF) && |phi| == 9
      requires HoldsTargetsOf(t) && IsMatrix(tC1_0, 3, 3) && IsMatrix(tC2_0, 3, 3)
      modifies status`tempFVector, status`tempMicromorphicVar, status`tempMicromorphicVarGrad,
               status`tempPVector, status`tempMicromorphicStress, status`tempMicromorphicStressGrad
      ensures HoldsTargetsOf(t)
      ensures status.HoldsEvaluation(prims, Hk, Ak, alpha, vF, phi, grad, tC1_0, tC2_0)
      ensures vP == status.tempPVector && s == status.tempMicromorphicStress && M == status.tempMicromorphicStressGrad
      ensures status.Committed() == old(status.Committed())
    {
      vP, s, M := EvaluateStresses(prims, Hk, Ak, alpha, vF, phi, grad, tC1_0, tC2_0);
      status.SetTempValues(vF, phi, grad, vP, s, M);
    }

    /**
     * giveFiniteStrainGeneralizedStressVectors_PlaneStrain: the 3D
     * evaluator on the full forms of F and phi, with vP and s reduced back.
     */
    method GiveFiniteStrainGeneralizedStressVectorsPlaneStrain(prims: Primitives, status: GradientPolyconvexMaterialOldStatus,
                                                              reducedvF: Vector, reducedPhi: Vector, grad: Vector, t: real)
      returns (vP: Vector, s: Vector, M: Vector)
      requires Invertible(prims, prims.fullVectorFormF(reducedvF)) && |prims.fullVectorFormF(reducedPhi)| == 9
      modifies this`tC1_0, this`tC2_0,
               status`tempFVector, status`tempMicromorphicVar, status`tempMicromorphicVarGrad,
               status`tempPVector, status`tempMicromorphicStress, status`tempMicromorphicStressGrad
      ensures HoldsTargetsOf(t)
      ensures status.HoldsEvaluation(prims, Hk, Ak, alpha, prims.fullVectorFormF(reducedvF), prims.fullVectorFormF(reducedPhi), grad,
                                     tC1_0, tC2_0)
      ensures vP == prims.reducedVectorForm(status.tempPVector) && s == prims.reducedVectorForm(status.tempMicromorphicStress)
      ensures M == status.tempMicromorphicStressGrad
      ensures status.Committed() == old(status.Committed())
    {
      var vF := prims.fullVectorFormF(reducedvF);
      var vMV := prims.fullVectorFormF(reducedPhi);
      var fullvP, fullS;
      fullvP, fullS, M := GiveFiniteStrainGeneralizedStressVectors3d(prims, status, vF, vMV, grad, t);
      vP := prims.reducedVectorForm(fullvP);
      s := prims.reducedVectorForm(fullS);
    }

    /**
     * giveFiniteStrainGeneralizedStressVectors: 3D and plane strain go to
     * their evaluators; every other mode is the fatal error, with nothing
     * changed.
     */
    method GiveFiniteStrainGeneralizedStressVectors(prims: Primitives, status: GradientPolyconvexMaterialOldStatus,
                                                    mode: MaterialMode, vF: Vector, phi: Vector, grad: Vector, t: real)
      returns (r: Result<GeneralizedStresses, Error>)
      requires mode == ThreeD ==> Invertible(prims, vF) && |phi| == 9
      requires mode == PlaneStrain ==> Invertible(prims, prims.fullVectorFormF(vF)) && |prims.fullVectorFormF(phi)| == 9
      modifies this`tC1_0, this`tC2_0,
               status`tempFVector, status`tempMicromorphicVar, status`tempMicromorphicVarGrad,
               status`tempPVector, status`tempMicromorphicStress, status`tempMicromorphicStressGrad
      ensures mode != ThreeD && mode != PlaneStrain ==>
                r == Err(UnknownMaterialMode(mode)) && unchanged(this) && unchanged(status)
      ensures mode == ThreeD || mode == PlaneStrain ==> HoldsTargetsOf(t) && status.Committed() == old(status.Committed())
      ensures mode == ThreeD ==>
                status.HoldsEvaluation(prims, Hk, Ak, alpha, vF, phi, grad, tC1_0, tC2_0) &&
                r == Ok(GeneralizedStresses(status.tempPVector, status.tempMicromorphicStress, status.tempMicromorphicStressGrad))
      ensures mode == PlaneStrain ==>
                status.HoldsEvaluation(prims, Hk, Ak, alpha, prims.fullVectorFormF(vF), prims.fullVectorFormF(phi), grad, tC1_0, tC2_0) &&
                r == Ok(GeneralizedStresses(prims.reducedVectorForm(status.tempPVector),
                                            prims.reducedVectorForm(status.tempMicromorphicStress),
                                            status.tempMicromorphicStressGrad))
    {
      if mode == ThreeD {
        var vP, s, M := GiveFiniteStrainGeneralizedStressVectors3d(prims, status, vF, phi, grad, t);
        r := Ok(GeneralizedStresses(vP, s, M));
      } else if mode == PlaneStrain {
        var vP, s, M := GiveFiniteStrainGeneralizedStressVectorsPlaneStrain(prims, status, vF, phi, grad, t);
        r := Ok(GeneralizedStresses(vP, s, M));
      } else {
        r := Err(UnknownMaterialMode(mode));
      }
    }

    /**
     * giveIPValue: the internal-state types of the micromorphic material;
     * None hands every other type to the base class.  Only the
     * equivalent-strain level touches the material: it stores the targets
     * of time t.
     */
    method GiveIPValue(prims: Primitives, status: GradientPolyconvexMaterialOldStatus, mode: MaterialMode,
                       kind: InternalStateType, t: real)
      returns (answer: Option<Vector>)
      requires kind == MicromorphicRelativeStress ==> |status.micromorphicStress| >= 1
      requires kind == MicromorphicHigherOrderStress ==> |status.micromorphicStressGrad| >= 2
      requires kind == MicromorphicHigherOrderStrain ==> |status.micromorphicVarGrad| >= 2
      requires kind == MaxEquivalentStrainLevel ==> |status.tempFVector| == 9
      requires kind == DeformationGradientTensor ==> Invertible(prims, status.tempFVector)
      modifies this`tC1_0, this`tC2_0
      ensures kind != MaxEquivalentStrainLevel ==> tC1_0 == old(tC1_0) && tC2_0 == old(tC2_0)
      ensures kind == MaxEquivalentStrainLevel ==>
                tC1_0 == TargetMetric(TargetShear(t)) && tC2_0 == TargetMetric(-TargetShear(t))
      ensures kind == MaxEquivalentStrainLevel ==>
                answer == Some(EquivalentStrainLevel(status.tempFVector, tC1_0, tC2_0))
      ensures answer == match kind
                case MicromorphicStress => Some(prims.fullVectorForm(status.stressVector, mode))
                case MicromorphicStrain => Some(prims.fullVectorForm(status.strainVector, mode))
                case MicromorphicRelativeStress => Some(RelativeStressLayout(status.micromorphicStress))
                case MicromorphicRelativeStrain => Some(ZeroVector(9))
                case MicromorphicHigherOrderStress => Some(HigherOrderLayout(status.micromorphicStressGrad))
                case MicromorphicHigherOrderStrain => Some(HigherOrderLayout(status.micromorphicVarGrad))
                case MaxEquivalentStrainLevel => answer
                case DeformationGradientTensor => Some(Cofactor(prims, status.tempFVector))
                case OtherStateType => None
    {
      match kind {
        case MicromorphicStress =>
          answer := Some(prims.fullVectorForm(status.stressVector, mode));
        case MicromorphicStrain =>
          answer := Some(prims.fullVectorForm(status.strainVector, mode));
        case MicromorphicRelativeStress =>
          answer := Some(RelativeStressLayout(status.micromorphicStress));
        case MicromorphicRelativeStrain =>
          answer := Some(ZeroVector(9));
        case MicromorphicHigherOrderStress =>
          answer := Some(HigherOrderLayout(status.micromorphicStressGrad));
        case MicromorphicHigherOrderStrain =>
          answer := Some(HigherOrderLayout(status.micromorphicVarGrad));
        case MaxEquivalentStrainLevel =>
          var tC1 := GiveTC1(t);
          var tC2 := GiveTC2(t);
          answer := Some(EquivalentStrainLevel(status.tempFVector, tC1, tC2));
        case DeformationGradientTensor =>
          answer := Some(Cofactor(prims, status.tempFVector));
        case OtherStateType =>
          answer := None;
      }
    }
  }
}
