/**
 * Gradient-damage coupling over a generic multi-surface plasticity law
 * (OOFEM's SimplePlasticGradientDamageMaterial,
 * src/sm/Materials/simpleplasticgradientdamagematerial.C).
 *
 * The damage is driven by kappa = m * nonlocal + (1 - m) * h_last, where
 * h_last is the last entry of the strain-space hardening vector.  The
 * plasticity return, the damage law g and its derivative, and the base
 * stiffness matrices are external and come in a `Primitives` record.
 */
module SimplePlasticGradientDamage {
  import opened Outcomes
  import opened Algebra
  import opened Modes
  import opened DenseArrays

  /** The return-mapping algorithm of the plasticity base class. */
  datatype ReturnMappingType = ClosestPoint | CuttingPlane

  /**
   * Material constants: `l` is the entry of the internal-length matrix,
   * `internalLength` the length of the gradient-damage extension.
   */
  datatype Params = Params(
    mParam: real, l: real, internalLength: real,
    rmType: ReturnMappingType, kinematicHardeningFlag: bool)

  /** A snapshot of the material status. */
  datatype PointState = PointState(
    damage: real, tempDamage: real,
    tempStress: Vector, tempHardening: Vector,
    nonlocalDamageDrivingVariable: real, localDamageDrivingVariable: real)

  /** What the base stress return writes: the stress, the temp hardening vector and the temp damage. */
  datatype PlasticReturn = PlasticReturn(stress: Vector, tempHardening: Vector, tempDamage: real)

  datatype Primitives = Primitives(
    g: real -> real,                                        // giveDamageParam
    gPrime: real -> real,                                   // giveDamageParamPrime
    stressReturn: (PointState, Vector) -> PlasticReturn,    // MPlasticMaterial2::giveRealStressVector
    consistentStiffness: (PointState, ResponseMode) -> Matrix,
    elastoPlasticStiffness: (PointState, ResponseMode) -> Matrix,
    stiffnessCorrection: (PointState, ResponseMode) -> Matrix)

  // ---------------------------------------------------------------------
  // Input record
  // ---------------------------------------------------------------------

  datatype Record = Record(m: Option<real>)

  /**
   * initializeFrom: after the base classes have read their fields (given
   * as `base`), kinematic hardening is switched off and mParam defaults to
   * 1, the standard gradient form.
   */
  function InitializeFrom(rec: Record, base: Params): (r: Params)
    ensures !r.kinematicHardeningFlag
    ensures r.mParam == rec.m.GetOr(1.0)
    ensures rec.m == None ==> r.mParam == 1.0
    ensures r.l == base.l && r.internalLength == base.internalLength && r.rmType == base.rmType
  {
    base.(kinematicHardeningFlag := false, mParam := rec.m.GetOr(1.0))
  }

  // ---------------------------------------------------------------------
  // Damage
  // ---------------------------------------------------------------------

  /** The damage-driving variable kappa = m * nonlocal + (1 - m) * local. */
  function DrivingKappa(p: Params, nonlocal: real, local: real): (k: real)
    ensures p.mParam == 1.0 ==> k == nonlocal
    ensures p.mParam == 0.0 ==> k == local
  {
    p.mParam * nonlocal + (1.0 - p.mParam) * local
  }

  /**
   * computeDamage: g(kappa), clamped from below by the committed damage.
   * The local variable is the entry of `h` at the size of the status's temp
   * hardening vector.
   */
  function ComputeDamage(p: Params, prims: Primitives, s: PointState, h: Vector): (d: real)
    requires 1 <= |s.tempHardening| <= |h|
    ensures d >= s.damage
    ensures d >= prims.g(DrivingKappa(p, s.nonlocalDamageDrivingVariable, h[|s.tempHardening| - 1]))
    ensures d == s.damage || d == prims.g(DrivingKappa(p, s.nonlocalDamageDrivingVariable, h[|s.tempHardening| - 1]))
  {
    var kappa := DrivingKappa(p, s.nonlocalDamageDrivingVariable, h[|s.tempHardening| - 1]);
    var tempDamage := prims.g(kappa);
    if s.damage > tempDamage then s.damage else tempDamage
  }

  /**
   * Damage never decreases along a sequence of committed steps: if each
   * committed damage is the damage computed in the previous step, the
   * sequence is non-decreasing.
   */
  lemma {:induction false} DamageIsMonotone(p: Params, prims: Primitives, states: seq<PointState>, hs: seq<Vector>)
    requires |hs| == |states|
    requires forall k :: 0 <= k < |states| ==> 1 <= |states[k].tempHardening| <= |hs[k]|
    requires forall k :: 0 < k < |states| ==>
               states[k].damage == ComputeDamage(p, prims, states[k - 1], hs[k - 1])
    ensures forall i, k :: 0 <= i <= k < |states| ==> states[i].damage <= states[k].damage
  {
    forall i, k | 0 <= i <= k < |states|
      ensures states[i].damage <= states[k].damage
    {
      var j := i;
      while j < k
        invariant i <= j <= k
        invariant states[i].damage <= states[j].damage
      {
        assert states[j + 1].damage == ComputeDamage(p, prims, states[j], hs[j]);
        j := j + 1;
      }
    }
  }

  /**
   * compute_dDamage_dKappa: g'(kappa) for positive kappa, exactly 0
   * otherwise; the local variable is the last entry of `h`.
   */
  function DDamageDKappa(p: Params, prims: Primitives, s: PointState, h: Vector): (r: real)
    requires |h| >= 1
    ensures DrivingKappa(p, s.nonlocalDamageDrivingVariable, h[|h| - 1]) <= 0.0 ==> r == 0.0
    ensures DrivingKappa(p, s.nonlocalDamageDrivingVariable, h[|h| - 1]) > 0.0 ==>
              r == prims.gPrime(DrivingKappa(p, s.nonlocalDamageDrivingVariable, h[|h| - 1]))
  {
    var kappa := DrivingKappa(p, s.nonlocalDamageDrivingVariable, h[|h| - 1]);
    if kappa > 0.0 then prims.gPrime(kappa) else 0.0
  }

  /**
   * The damage and its derivative read the same kappa when the argument
   * has the size of the status's temp hardening vector; with the default
   * m = 1 that kappa is the nonlocal variable alone.
   */
  lemma {:induction false} DamageAndDerivativeShareKappa(p: Params, prims: Primitives, s: PointState, h: Vector)
    requires 1 <= |s.tempHardening| == |h|
    ensures var kappa := DrivingKappa(p, s.nonlocalDamageDrivingVariable, h[|h| - 1]);
            ComputeDamage(p, prims, s, h) == (if s.damage > prims.g(kappa) then s.damage else prims.g(kappa)) &&
            DDamageDKappa(p, prims, s, h) == (if kappa > 0.0 then prims.gPrime(kappa) else 0.0)
    ensures p.mParam == 1.0 ==> DrivingKappa(p, s.nonlocalDamageDrivingVariable, h[|h| - 1]) == s.nonlocalDamageDrivingVariable
  {
  }

  // ---------------------------------------------------------------------
  // Driving variables and forcing factors
  // ---------------------------------------------------------------------

  /**
   * computeLocalDamageDrivingVariable: the hardening entry at the reduced
   * hardening size, or 0 when that size is 0.
   */
  function LocalDrivingVariable(reducedSize: nat, h: Vector): (r: real)
    requires reducedSize <= |h|
    ensures reducedSize == 0 ==> r == 0.0
    ensures reducedSize > 0 ==> r == h[reducedSize - 1]
  {
    if reducedSize > 0 then h[reducedSize - 1] else 0.0
  }

  /** N-factor: the nonlocal driving variable itself. */
  function NFactor(nlDamageDrivingVariable: real): (n: real)
    ensures n == nlDamageDrivingVariable
  {
    nlDamageDrivingVariable
  }

  /** B-factor: the nonlocal gradient times internalLength^2. */
  function BFactor(p: Params, grad: Vector): (b: Vector)
    ensures |b| == |grad|
    ensures forall i :: 0 <= i < |grad| ==> b[i] == p.internalLength * p.internalLength * grad[i]
  {
    Scale(p.internalLength * p.internalLength, grad)
  }

  /** dd_BB (giveInternalLengthMatrix): the 1x1 matrix [l]. */
  function DdBB(p: Params): (k: Matrix)
    ensures IsMatrix(k, 1, 1) && k[0][0] == p.l
  {
    [[p.l]]
  }

  /**
   * dd_BB reads the field `l` while the B-factor scales by
   * internalLength^2: for a one-component gradient the block applied to the
   * gradient reproduces the B-factor exactly when l = internalLength^2 (or
   * the gradient vanishes).
   */
  lemma {:induction false} DdBBMatchesBFactorIff(p: Params, g: real)
    ensures MatVec(DdBB(p), [g]) == BFactor(p, [g]) <==> (p.l == p.internalLength * p.internalLength || g == 0.0)
  {
    var lhs, rhs := MatVec(DdBB(p), [g]), BFactor(p, [g]);
    assert lhs[0] == Dot([p.l], [g]) == p.l * g;
    assert rhs[0] == p.internalLength * p.internalLength * g;
    if p.l != p.internalLength * p.internalLength && g != 0.0 {
      assert p.l * g != p.internalLength * p.internalLength * g by {
        if p.l * g == p.internalLength * p.internalLength * g {
          CancelFactor(g, p.l, p.internalLength * p.internalLength);
        }
      }
      assert lhs[0] != rhs[0];
    } else {
      assert lhs == rhs;
    }
  }

  // ---------------------------------------------------------------------
  // Coupled stiffness blocks
  // ---------------------------------------------------------------------

  /** Block ud: zero unless damage grows, then g'(kappa) m times the effective stress tempStress / (1 - D_temp). */
  function Ud(p: Params, prims: Primitives, s: PointState): (r: Matrix)
    requires |s.tempHardening| >= 1
    requires s.tempDamage - s.damage > 0.0 ==> s.tempDamage != 1.0
    ensures IsMatrix(r, |s.tempStress|, 1)
    ensures s.tempDamage - s.damage <= 0.0 ==> forall i :: 0 <= i < |s.tempStress| ==> r[i][0] == 0.0
    ensures s.tempDamage - s.damage > 0.0 ==> forall i :: 0 <= i < |s.tempStress| ==>
              r[i][0] == s.tempStress[i] * (1.0 / (1.0 - s.tempDamage))
                         * (prims.gPrime(DrivingKappa(p, s.nonlocalDamageDrivingVariable, s.tempHardening[|s.tempHardening| - 1])) * p.mParam)
  {
    var kappa := DrivingKappa(p, s.nonlocalDamageDrivingVariable, s.tempHardening[|s.tempHardening| - 1]);
    if s.tempDamage - s.damage > 0.0 then
      var tempEffStress := Scale(1.0 / (1.0 - s.tempDamage), s.tempStress);
      ScaleMatrix(prims.gPrime(kappa) * p.mParam, Column(tempEffStress))
    else Column(Scale(0.0, s.tempStress))
  }

  /** Under damage growth ud times (1 - D_temp) is g'(kappa) m times the nominal stress; with m = 0 ud vanishes. */
  lemma {:induction false} UdScalesNominalStress(p: Params, prims: Primitives, s: PointState, i: nat)
    requires |s.tempHardening| >= 1 && s.tempDamage - s.damage > 0.0 && s.tempDamage != 1.0
    requires i < |s.tempStress|
    ensures var gp := prims.gPrime(DrivingKappa(p, s.nonlocalDamageDrivingVariable, s.tempHardening[|s.tempHardening| - 1]));
            (1.0 - s.tempDamage) * Ud(p, prims, s)[i][0] == gp * p.mParam * s.tempStress[i]
    ensures p.mParam == 0.0 ==> Ud(p, prims, s)[i][0] == 0.0
  {
    var gp := prims.gPrime(DrivingKappa(p, s.nonlocalDamageDrivingVariable, s.tempHardening[|s.tempHardening| - 1]));
    var q := 1.0 - s.tempDamage;
    var x := s.tempStress[i];
    assert Ud(p, prims, s)[i][0] == x * (1.0 / q) * (gp * p.mParam);
    assert q * (x * (1.0 / q) * (gp * p.mParam)) == (q * (1.0 / q)) * (x * (gp * p.mParam));
    assert q * (1.0 / q) == 1.0;
  }

  /** The base tangent: the consistent matrix for the closest-point return, the elastoplastic one otherwise. */
  function BaseStiffness(p: Params, prims: Primitives, s: PointState, mode: ResponseMode): (k: Matrix)
    ensures p.rmType == ClosestPoint ==> k == prims.consistentStiffness(s, mode)
    ensures p.rmType != ClosestPoint ==> k == prims.elastoPlasticStiffness(s, mode)
  {
    if p.rmType == ClosestPoint then prims.consistentStiffness(s, mode)
    else prims.elastoPlasticStiffness(s, mode)
  }

  /**
   * The uu block as a value: the base tangent, and under damage growth
   * (1 - D_temp) K - (1 - m) C, the correction C being subtracted only when
   * it has rows.
   */
  function UuValue(p: Params, prims: Primitives, s: PointState, mode: ResponseMode): (v: Matrix)
    requires UuShapes(p, prims, s, mode)
    ensures IsMatrix(v, |BaseStiffness(p, prims, s, mode)|, |BaseStiffness(p, prims, s, mode)[0]|)
    ensures s.tempDamage - s.damage <= 0.0 ==> v == BaseStiffness(p, prims, s, mode)
  {
    var k := BaseStiffness(p, prims, s, mode);
    if s.tempDamage - s.damage > 0.0 then
      var scaled := ScaleMatrix(1.0 - s.tempDamage, k);
      var correction := ScaleMatrix(1.0 - p.mParam, prims.stiffnessCorrection(s, mode));
      if |correction| > 0 then SubMatrix(scaled, correction) else scaled
    else k
  }

  /** The base tangent is rectangular, and a correction with rows has its shape (FloatMatrix::subtract). */
  predicate UuShapes(p: Params, prims: Primitives, s: PointState, mode: ResponseMode) {
    var k := BaseStiffness(p, prims, s, mode);
    |k| > 0 && IsMatrix(k, |k|, |k[0]|) &&
    (|prims.stiffnessCorrection(s, mode)| > 0 ==> IsMatrix(prims.stiffnessCorrection(s, mode), |k|, |k[0]|))
  }

  /**
   * The uu entries: the base tangent without damage growth, otherwise the
   * damaged tangent minus the weighted correction (or without it when the
   * correction is empty).
   */
  lemma {:induction false} UuValueEntries(p: Params, prims: Primitives, s: PointState, mode: ResponseMode, i: nat, j: nat)
    requires UuShapes(p, prims, s, mode)
    requires i < |BaseStiffness(p, prims, s, mode)| && j < |BaseStiffness(p, prims, s, mode)[0]|
    ensures var k, c, v := BaseStiffness(p, prims, s, mode), prims.stiffnessCorrection(s, mode), UuValue(p, prims, s, mode);
            IsMatrix(v, |k|, |k[0]|) &&
            (s.tempDamage - s.damage <= 0.0 ==> v[i][j] == k[i][j]) &&
            (s.tempDamage - s.damage > 0.0 && |c| > 0 ==> v[i][j] == (1.0 - s.tempDamage) * k[i][j] - (1.0 - p.mParam) * c[i][j]) &&
            (s.tempDamage - s.damage > 0.0 && |c| == 0 ==> v[i][j] == (1.0 - s.tempDamage) * k[i][j])
  {
    var k := BaseStiffness(p, prims, s, mode);
    assert |k[i]| == |k[0]|;
  }

  /** Under damage growth, every uu entry is the scaled base entry less the weighted correction entry, if any. */
  lemma {:induction false} DamagedUuEntries(p: Params, prims: Primitives, s: PointState, mode: ResponseMode)
    requires UuShapes(p, prims, s, mode) && s.tempDamage - s.damage > 0.0
    ensures var k, c := BaseStiffness(p, prims, s, mode), ScaleMatrix(1.0 - p.mParam, prims.stiffnessCorrection(s, mode));
            forall i, j :: 0 <= i < |k| && 0 <= j < |k[0]| ==>
              UuValue(p, prims, s, mode)[i][j] ==
                (if |c| > 0 then (1.0 - s.tempDamage) * k[i][j] - c[i][j] else (1.0 - s.tempDamage) * k[i][j])
  {
    var k, c := BaseStiffness(p, prims, s, mode), ScaleMatrix(1.0 - p.mParam, prims.stiffnessCorrection(s, mode));
    forall i, j | 0 <= i < |k| && 0 <= j < |k[0]|
      ensures UuValue(p, prims, s, mode)[i][j] ==
                (if |c| > 0 then (1.0 - s.tempDamage) * k[i][j] - c[i][j] else (1.0 - s.tempDamage) * k[i][j])
    {
      assert |k[i]| == |k[0]|;
    }
  }

  /**
   * giveGradientDamageStiffnessMatrix_uu: copy the base tangent into
   * `answer`, and under damage growth scale it in place and subtract the
   * weighted correction in place.
   */
  method Uu(p: Params, prims: Primitives, s: PointState, mode: ResponseMode) returns (answer: array2<real>)
    requires UuShapes(p, prims, s, mode)
    ensures answer.Length0 == |BaseStiffness(p, prims, s, mode)| && answer.Length1 == |BaseStiffness(p, prims, s, mode)[0]|
    ensures forall i, j :: 0 <= i < answer.Length0 && 0 <= j < answer.Length1 ==>
              answer[i, j] == UuValue(p, prims, s, mode)[i][j]
  {
    var k := BaseStiffness(p, prims, s, mode);
    var rows, cols := |k|, |k[0]|;
    answer := new real[rows, cols];
    CopyInto(answer, k);
    if s.tempDamage - s.damage > 0.0 {
      DamageInPlace(answer, k, 1.0 - s.tempDamage, ScaleMatrix(1.0 - p.mParam, prims.stiffnessCorrection(s, mode)));
      DamagedUuEntries(p, prims, s, mode);
    } else {
      assert UuValue(p, prims, s, mode) == k;
    }
  }

  /**
   * The damage-growth branch of giveGradientDamageStiffnessMatrix_uu on a
   * copy of the base tangent k: scale by `factor` in place, then subtract
   * the weighted correction in place when it has rows.
   */
  method DamageInPlace(answer: array2<real>, k: Matrix, factor: real, correction: Matrix)
    requires IsMatrix(k, answer.Length0, answer.Length1)
    requires |correction| > 0 ==> IsMatrix(correction, answer.Length0, answer.Length1)
    requires forall i, j :: 0 <= i < answer.Length0 && 0 <= j < answer.Length1 ==> answer[i, j] == k[i][j]
    modifies answer
    ensures forall i, j :: 0 <= i < answer.Length0 && 0 <= j < answer.Length1 ==>
              answer[i, j] == (if |correction| > 0 then factor * k[i][j] - correction[i][j] else factor * k[i][j])
  {
    ScaleInPlace(answer, factor);
    if |correction| > 0 {
      SubtractInPlace(answer, correction);
    }
  }

  // ---------------------------------------------------------------------
  // Status and stress evaluation
  // ---------------------------------------------------------------------

  class SimplePlasticGradientDamageMaterialStatus {
    var damage: real
    var tempDamage: real
    var tempStress: Vector
    var tempHardening: Vector
    var nonlocalDamageDrivingVariable: real
    var localDamageDrivingVariable: real

    function State(): PointState
      reads this
    {
      PointState(damage, tempDamage, tempStress, tempHardening, nonlocalDamageDrivingVariable, localDamageDrivingVariable)
    }

    /** The nonlocal driving variable starts at 0; the hardening vector has the status size. */
    constructor (hardening: Vector)
      ensures nonlocalDamageDrivingVariable == 0.0
      ensures tempHardening == hardening
    {
      damage, tempDamage := 0.0, 0.0;
      tempStress := [];
      tempHardening := hardening;
      nonlocalDamageDrivingVariable := 0.0;
      localDamageDrivingVariable := 0.0;
    }
  }

  /**
   * The status after giveRealStressVectorGradientDamage: the base return's
   * temp values, and the nonlocal input and the last hardening entry stored
   * as the two driving variables.
   */
  function EvaluateStress(prims: Primitives, s: PointState, strain: Vector, nonlocal: real): (r: PointState)
    requires |prims.stressReturn(s, strain).tempHardening| >= 1
    ensures r.damage == s.damage
    ensures r.nonlocalDamageDrivingVariable == nonlocal
    ensures r.tempStress == prims.stressReturn(s, strain).stress
    ensures r.tempDamage == prims.stressReturn(s, strain).tempDamage
    ensures r.tempHardening == prims.stressReturn(s, strain).tempHardening
    ensures r.localDamageDrivingVariable == r.tempHardening[|r.tempHardening| - 1]
  {
    var ret := prims.stressReturn(s, strain);
    PointState(s.damage, ret.tempDamage, ret.stress, ret.tempHardening,
               nonlocal, ret.tempHardening[|ret.tempHardening| - 1])
  }

  /** giveRealStressVectorGradientDamage, updating the status in place. */
  method GiveRealStressVectorGradientDamage(prims: Primitives, status: SimplePlasticGradientDamageMaterialStatus,
                                            reducedStrain: Vector, nonlocal: real)
    returns (stress: Vector, localCumulatedStrain: real)
    requires |prims.stressReturn(status.State(), reducedStrain).tempHardening| >= 1
    modifies status
    ensures status.State() == EvaluateStress(prims, old(status.State()), reducedStrain, nonlocal)
    ensures stress == status.tempStress
    ensures localCumulatedStrain == status.localDamageDrivingVariable == status.tempHardening[|status.tempHardening| - 1]
  {
    var ret := prims.stressReturn(status.State(), reducedStrain);
    stress := ret.stress;
    status.tempStress, status.tempHardening, status.tempDamage := ret.stress, ret.tempHardening, ret.tempDamage;
    var size := |status.tempHardening|;
    localCumulatedStrain := status.tempHardening[size - 1];
    status.nonlocalDamageDrivingVariable := nonlocal;
    status.localDamageDrivingVariable := localCumulatedStrain;
  }

  /**
   * After an evaluation, computeLocalDamageDrivingVariable at the full
   * hardening size returns the local value the evaluation reported.
   */
  lemma {:induction false} LocalDrivingVariableAfterEvaluation(prims: Primitives, s: PointState, strain: Vector, nonlocal: real)
    requires |prims.stressReturn(s, strain).tempHardening| >= 1
    ensures var r := EvaluateStress(prims, s, strain, nonlocal);
            LocalDrivingVariable(|r.tempHardening|, r.tempHardening) == r.localDamageDrivingVariable
  {
  }
}
