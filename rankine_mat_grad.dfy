/**
 * Gradient regularisation of Rankine plasticity coupled with isotropic
 * damage (OOFEM's RankineMatGrad, src/sm/Materials/rankinematgrad.C).
 *
 * The material point status keeps committed and temp copies; the stress
 * evaluator writes only the temp copies; the coupled stiffness blocks
 * (uu, ud, du, du_BB, dd_NN, dd_BB, dd_BN) and the nonlocal forcing
 * factors are functions of a snapshot of the status.  The base Rankine
 * plasticity return, the damage law and its derivative, the plastic
 * modulus, the principal-stress rotation, the base stiffness matrices and
 * sqrt are external and are supplied as a `Primitives` record.
 */
module RankineMatGrad {
  import opened Outcomes
  import opened Algebra
  import opened Modes

  datatype Error = UnsupportedMode(mode: MaterialMode) | UnknownFormulation(code: int)

  /** Constants of the material: E, nu, H0 come from the Rankine base, the rest from this class. */
  datatype Params = Params(
    E: real, nu: real, H0: real,
    mParam: real, negligibleDamage: real, internalLength: real,
    formulation: Formulation)

  /** The base-class (RankineMatStatus) variables that exist in a committed and a temp copy. */
  datatype BaseVars = BaseVars(strain: Vector, stress: Vector, effStress: Vector, kappa: real, damage: real)

  /** A snapshot of a RankineMatGradStatus. */
  datatype PointState = PointState(
    committed: BaseVars, temp: BaseVars,
    dKappa1: real, dKappa2: real,
    nonlocal: real, tempNonlocal: real, kappaHat: real,
    tempNonlocalGrad: Vector)

  /** What the external plasticity return writes into the temp status. */
  datatype ReturnResult = ReturnResult(effStress: Vector, kappa: real, dKappa1: real, dKappa2: real)

  /** The collaborators this file calls but does not define. */
  datatype Primitives = Primitives(
    plasticityReturn: (PointState, Vector) -> ReturnResult,      // RankineMat::performPlasticityReturn
    computeDamage: PointState -> real,                            // RankineMat::computeDamage
    gPrime: real -> real,                                         // computeDamageParamPrime
    plasticModulus: real -> real,                                 // evalPlasticModulus
    principalRotation: Vector -> Matrix,                          // principal directions of a stress + their 3x3 transformation
    elasticStiffness: MaterialMode -> Matrix,                     // linear elastic material
    planeStressStiffness: (PointState, ResponseMode, real) -> Matrix, // evaluatePlaneStressStiffMtrx
    sqrt: real -> real)

  // ---------------------------------------------------------------------
  // Input record
  // ---------------------------------------------------------------------

  /** The optional fields of the input record read by initializeFrom. */
  datatype Record = Record(m: Option<real>, negligibleDamage: Option<real>, formulationType: Option<int>)

  /** Formulation-type code: 0 is the standard gradient form, 2 the eikonal one; anything else is fatal. */
  function FormulationFromCode(code: int): (r: Result<Formulation, Error>)
    ensures r == Ok(Standard) <==> code == 0
    ensures r == Ok(Eikonal) <==> code == 2
    ensures r.Err? <==> code != 0 && code != 2
    ensures r.Err? ==> r.error == UnknownFormulation(code)
  {
    if code == 0 then Ok(Standard)
    else if code == 2 then Ok(Eikonal)
    else Err(UnknownFormulation(code))
  }

  /**
   * initializeFrom: mParam defaults to 2, negligible_damage to 0 and the
   * formulation code to 0; E, nu, H0 and the internal length come from the
   * base classes' own parsing.
   */
  function InitializeFrom(rec: Record, E: real, nu: real, H0: real, internalLength: real): (r: Result<Params, Error>)
    ensures r.Ok? <==> FormulationFromCode(rec.formulationType.GetOr(0)).Ok?
    ensures r.Ok? ==> r.value.mParam == rec.m.GetOr(2.0)
    ensures r.Ok? ==> r.value.negligibleDamage == rec.negligibleDamage.GetOr(0.0)
    ensures r.Ok? ==> Ok(r.value.formulation) == FormulationFromCode(rec.formulationType.GetOr(0))
  {
    match FormulationFromCode(rec.formulationType.GetOr(0))
    case Err(e) => Err(e)
    case Ok(f) => Ok(Params(E, nu, H0, rec.m.GetOr(2.0), rec.negligibleDamage.GetOr(0.0), internalLength, f))
  }

  /** An empty input record gives mParam 2, no negligible damage and the standard formulation. */
  lemma InitializeFromDefaults(E: real, nu: real, H0: real, l: real)
    ensures InitializeFrom(Record(None, None, None), E, nu, H0, l) == Ok(Params(E, nu, H0, 2.0, 0.0, l, Standard))
  {
  }

  // ---------------------------------------------------------------------
  // Driving variables and eikonal lengths
  // ---------------------------------------------------------------------

  /** computeCumPlastStrain: the combined driving variable kappa_hat = m * nonlocal + (1 - m) * local. */
  function KappaHat(p: Params, s: PointState): (k: real)
    ensures p.mParam == 1.0 ==> k == s.tempNonlocal
    ensures p.mParam == 0.0 ==> k == s.temp.kappa
  {
    p.mParam * s.tempNonlocal + (1.0 - p.mParam) * s.temp.kappa
  }

  /** With m = 1 kappa_hat is the nonlocal value, with m = 0 the local one; for m in [0, 1] it lies between them. */
  lemma {:induction false} KappaHatBlend(p: Params, s: PointState)
    ensures p.mParam == 1.0 ==> KappaHat(p, s) == s.tempNonlocal
    ensures p.mParam == 0.0 ==> KappaHat(p, s) == s.temp.kappa
    ensures 0.0 <= p.mParam <= 1.0 && s.tempNonlocal <= s.temp.kappa ==>
              s.tempNonlocal <= KappaHat(p, s) <= s.temp.kappa
    ensures 0.0 <= p.mParam <= 1.0 && s.temp.kappa <= s.tempNonlocal ==>
              s.temp.kappa <= KappaHat(p, s) <= s.tempNonlocal
  {
    var m, nl, loc := p.mParam, s.tempNonlocal, s.temp.kappa;
    assert KappaHat(p, s) == loc + m * (nl - loc);
    if 0.0 <= m <= 1.0 {
      if nl <= loc {
        MulNonNegative(m, loc - nl);
        MulNonNegative(1.0 - m, loc - nl);
        assert m * (loc - nl) + (1.0 - m) * (loc - nl) == loc - nl;
      } else {
        MulNonNegative(m, nl - loc);
        MulNonNegative(1.0 - m, nl - loc);
        assert m * (nl - loc) + (1.0 - m) * (nl - loc) == nl - loc;
      }
    }
  }

  /** computeLocalDamageDrivingVariable: the temp local cumulative plastic strain. */
  function LocalDrivingVariable(s: PointState): real {
    s.temp.kappa
  }

  function DamageIncrement(s: PointState): real {
    s.temp.damage - s.committed.damage
  }

  function KappaIncrement(s: PointState): real {
    s.temp.kappa - s.committed.kappa
  }

  /** The eikonal internal length a(D) = sqrt(1 - D) * l (b(D) is the same expression in the source). */
  function EikonalLength(p: Params, prims: Primitives, damage: real): real {
    prims.sqrt(1.0 - damage) * p.internalLength
  }

  /** Its derivative a'(D) = -0.5 / sqrt(1 - D) * l (b'(D) is the same expression in the source). */
  function EikonalLengthPrime(p: Params, prims: Primitives, damage: real): real
    requires prims.sqrt(1.0 - damage) != 0.0
  {
    -0.5 / prims.sqrt(1.0 - damage) * p.internalLength
  }

  /** `sq` is a square root on the non-negative reals. */
  ghost predicate IsSqrt(sq: real -> real) {
    forall x :: x >= 0.0 ==> sq(x) >= 0.0 && sq(x) * sq(x) == x
  }

  /** The eikonal length equals the internal length at zero damage and vanishes at full damage. */
  lemma {:induction false} EikonalLengthBounds(p: Params, prims: Primitives)
    requires IsSqrt(prims.sqrt)
    ensures EikonalLength(p, prims, 0.0) == p.internalLength
    ensures EikonalLength(p, prims, 1.0) == 0.0
  {
    var r1 := prims.sqrt(1.0);
    assert r1 >= 0.0 && r1 * r1 == 1.0;
    SquareRootUnique(r1, 1.0);
    var r0 := prims.sqrt(0.0);
    assert r0 >= 0.0 && r0 * r0 == 0.0;
    SquareRootUnique(r0, 0.0);
  }

  /**
   * a(D)^2 = (1 - D) l^2, and a' is its derivative: 2 a(D) a'(D) = -l^2,
   * the derivative of (1 - D) l^2.
   */
  lemma {:induction false} EikonalLengthDerivative(p: Params, prims: Primitives, damage: real)
    requires IsSqrt(prims.sqrt)
    requires damage < 1.0
    ensures EikonalLength(p, prims, damage) * EikonalLength(p, prims, damage) ==
            (1.0 - damage) * p.internalLength * p.internalLength
    ensures prims.sqrt(1.0 - damage) != 0.0
    ensures 2.0 * EikonalLength(p, prims, damage) * EikonalLengthPrime(p, prims, damage) ==
            -p.internalLength * p.internalLength
  {
    var r, l := prims.sqrt(1.0 - damage), p.internalLength;
    assert r >= 0.0 && r * r == 1.0 - damage;
    assert r != 0.0;
    assert (r * l) * (r * l) == (r * r) * (l * l);
    calc {
      2.0 * (r * l) * (-0.5 / r * l);
    ==
      -(r / r) * (l * l);
    ==
      -l * l;
    }
  }

  // ---------------------------------------------------------------------
  // Status: committed / temp copies
  // ---------------------------------------------------------------------

  /** initTempStatus: every temp copy restarts from the committed value and kappa_hat from 0. */
  function InitTemp(s: PointState): (r: PointState)
    ensures r.temp == s.committed && r.tempNonlocal == s.nonlocal && r.kappaHat == 0.0
    ensures r.committed == s.committed && r.nonlocal == s.nonlocal
    ensures r.dKappa1 == s.dKappa1 && r.dKappa2 == s.dKappa2 && r.tempNonlocalGrad == s.tempNonlocalGrad
  {
    s.(temp := s.committed, tempNonlocal := s.nonlocal, kappaHat := 0.0)
  }

  /** updateYourself: the temp copies become the committed ones. */
  function Commit(s: PointState): (r: PointState)
    ensures r.committed == s.temp && r.nonlocal == s.tempNonlocal
    ensures r.temp == s.temp && r.tempNonlocal == s.tempNonlocal && r.kappaHat == s.kappaHat
    ensures r.dKappa1 == s.dKappa1 && r.dKappa2 == s.dKappa2 && r.tempNonlocalGrad == s.tempNonlocalGrad
  {
    s.(committed := s.temp, nonlocal := s.tempNonlocal)
  }

  /**
   * Rollback and commit: resetting twice is resetting once, committing just
   * after a reset changes nothing, and a reset after a commit leaves the
   * committed trial values in both copies.
   */
  lemma {:induction false} InitTempCommitCycle(s: PointState)
    ensures InitTemp(InitTemp(s)) == InitTemp(s)
    ensures Commit(InitTemp(s)) == InitTemp(s)
    ensures InitTemp(Commit(s)).committed == s.temp && InitTemp(Commit(s)).temp == s.temp
    ensures InitTemp(Commit(s)).nonlocal == s.tempNonlocal && InitTemp(Commit(s)).tempNonlocal == s.tempNonlocal
    ensures Commit(Commit(s)) == Commit(s)
  {
  }

  class RankineMatGradStatus {
    var committed: BaseVars
    var temp: BaseVars
    var dKappa1: real
    var dKappa2: real
    var nonlocalCumulativePlasticStrain: real
    var tempNonlocalCumulativePlasticStrain: real
    var kappaHat: real
    var tempNonlocalCumulativePlasticStrainGrad: Vector

    function State(): PointState
      reads this
    {
      PointState(committed, temp, dKappa1, dKappa2,
                 nonlocalCumulativePlasticStrain, tempNonlocalCumulativePlasticStrain, kappaHat,
                 tempNonlocalCumulativePlasticStrainGrad)
    }

    /** The base status starts from `base`; both nonlocal copies start at 0. */
    constructor (base: BaseVars)
      ensures committed == base && temp == base
      ensures nonlocalCumulativePlasticStrain == 0.0 && tempNonlocalCumulativePlasticStrain == 0.0
    {
      committed, temp := base, base;
      dKappa1, dKappa2 := 0.0, 0.0;
      nonlocalCumulativePlasticStrain := 0.0;
      tempNonlocalCumulativePlasticStrain := 0.0;
      kappaHat := 0.0;
      tempNonlocalCumulativePlasticStrainGrad := [];
    }

    method InitTempStatus()
      modifies this
      ensures temp == old(committed) && tempNonlocalCumulativePlasticStrain == old(nonlocalCumulativePlasticStrain)
      ensures kappaHat == 0.0
      ensures State() == InitTemp(old(State()))
    {
      temp := committed;
      tempNonlocalCumulativePlasticStrain := nonlocalCumulativePlasticStrain;
      kappaHat := 0.0;
    }

    method UpdateYourself()
      modifies this
      ensures committed == old(temp) && nonlocalCumulativePlasticStrain == old(tempNonlocalCumulativePlasticStrain)
      ensures State() == Commit(old(State()))
    {
      committed := temp;
      nonlocalCumulativePlasticStrain := tempNonlocalCumulativePlasticStrain;
    }
  }

  // ---------------------------------------------------------------------
  // Stress evaluation
  // ---------------------------------------------------------------------

  datatype Evaluation = Evaluation(state: PointState, stress: Vector, local: real)

  /** Store the plasticity return and the nonlocal input in the temp status. */
  function ApplyReturn(s: PointState, ret: ReturnResult, nonlocal: real): (r: PointState)
    ensures r.committed == s.committed && r.nonlocal == s.nonlocal && r.tempNonlocalGrad == s.tempNonlocalGrad
    ensures r.temp.effStress == ret.effStress && r.temp.kappa == ret.kappa && r.tempNonlocal == nonlocal
    ensures r.dKappa1 == ret.dKappa1 && r.dKappa2 == ret.dKappa2
    ensures r.temp.strain == s.temp.strain && r.temp.stress == s.temp.stress && r.temp.damage == s.temp.damage
    ensures r.kappaHat == s.kappaHat
  {
    s.(temp := s.temp.(effStress := ret.effStress, kappa := ret.kappa),
       dKappa1 := ret.dKappa1, dKappa2 := ret.dKappa2, tempNonlocal := nonlocal)
  }

  /** Store the strain and the damage; the nominal stress is the effective stress scaled by 1 - D. */
  function ApplyDamage(s: PointState, totalStrain: Vector, damage: real): (r: PointState)
    ensures r.committed == s.committed && r.nonlocal == s.nonlocal && r.tempNonlocalGrad == s.tempNonlocalGrad
    ensures r.tempNonlocal == s.tempNonlocal && r.temp.kappa == s.temp.kappa && r.temp.effStress == s.temp.effStress
    ensures r.temp.strain == totalStrain && r.temp.damage == damage
    ensures r.temp.stress == Scale(1.0 - damage, s.temp.effStress)
  {
    s.(temp := s.temp.(strain := totalStrain, damage := damage, stress := Scale(1.0 - damage, s.temp.effStress)))
  }

  /**
   * giveRealStressVectorGradientDamage on a snapshot: reset the temp state,
   * run the plasticity return, store the nonlocal input, evaluate damage,
   * scale the effective stress and record kappa_hat.  Only temp values
   * change.
   */
  function EvaluateStress(p: Params, prims: Primitives, s: PointState, totalStrain: Vector, nonlocal: real): (r: Evaluation)
    ensures r.state.committed == s.committed && r.state.nonlocal == s.nonlocal
    ensures r.state.tempNonlocalGrad == s.tempNonlocalGrad
    ensures r.state.tempNonlocal == nonlocal && r.state.temp.strain == totalStrain
    ensures r.stress == Scale(1.0 - r.state.temp.damage, r.state.temp.effStress)
    ensures r.state.temp.stress == r.stress
    ensures r.local == r.state.temp.kappa
    ensures r.state.kappaHat == KappaHat(p, r.state)
  {
    var s1 := InitTemp(s);
    var s2 := ApplyReturn(s1, prims.plasticityReturn(s1, totalStrain), nonlocal);
    var s3 := ApplyDamage(s2, totalStrain, prims.computeDamage(s2));
    Evaluation(s3.(kappaHat := KappaHat(p, s3)), s3.temp.stress, s3.temp.kappa)
  }

  /**
   * The evaluator reads the status only through its committed values, the
   * plastic increments and the stored gradient: the previous trial values
   * (temp copies, temp nonlocal value, kappa_hat) have no influence.
   */
  lemma {:induction false} EvaluateStressIgnoresTrialValues(p: Params, prims: Primitives, s: PointState, t: PointState,
                                                           totalStrain: Vector, nonlocal: real)
    requires s.committed == t.committed && s.nonlocal == t.nonlocal
    requires s.dKappa1 == t.dKappa1 && s.dKappa2 == t.dKappa2 && s.tempNonlocalGrad == t.tempNonlocalGrad
    ensures EvaluateStress(p, prims, s, totalStrain, nonlocal) == EvaluateStress(p, prims, t, totalStrain, nonlocal)
  {
    assert InitTemp(s) == InitTemp(t);
  }

  /** The plasticity return reads neither stored plastic-multiplier increment (they are outputs only). */
  ghost predicate ReturnIgnoresIncrements(prims: Primitives) {
    forall x: PointState, e: Vector, d1: real, d2: real ::
      prims.plasticityReturn(x.(dKappa1 := d1, dKappa2 := d2), e) == prims.plasticityReturn(x, e)
  }

  /**
   * computeLocalDamageDrivingVariable after an evaluation: the value the
   * evaluator returned, which is the kappa found by the plasticity return
   * started from the committed state.
   */
  lemma {:induction false} LocalDrivingVariableAfterEvaluation(p: Params, prims: Primitives, s: PointState,
                                                               totalStrain: Vector, nonlocal: real)
    ensures var r := EvaluateStress(p, prims, s, totalStrain, nonlocal);
            LocalDrivingVariable(r.state) == r.local &&
            r.local == prims.plasticityReturn(InitTemp(s), totalStrain).kappa
  {
  }

  /**
   * The finite-difference cross-checks in the 1D uu, ud and du blocks run
   * the evaluator at a perturbed input and then again at the stored temp
   * strain and temp nonlocal value.  When the status holds the result of an
   * evaluation, that pair of calls leaves it exactly as it was.
   */
  lemma {:induction false} ReevaluationRestoresState(p: Params, prims: Primitives, s: PointState,
                                                     totalStrain: Vector, nonlocal: real,
                                                     perturbedStrain: Vector, perturbedNonlocal: real)
    requires ReturnIgnoresIncrements(prims)
    ensures var r := EvaluateStress(p, prims, s, totalStrain, nonlocal);
            var t := EvaluateStress(p, prims, r.state, perturbedStrain, perturbedNonlocal).state;
            EvaluateStress(p, prims, t, r.state.temp.strain, r.state.tempNonlocal) == r
  {
    var r := EvaluateStress(p, prims, s, totalStrain, nonlocal);
    var t := EvaluateStress(p, prims, r.state, perturbedStrain, perturbedNonlocal).state;
    var a, b := InitTemp(t), InitTemp(s);
    assert a == b.(dKappa1 := a.dKappa1, dKappa2 := a.dKappa2);
    assert prims.plasticityReturn(a, totalStrain) == prims.plasticityReturn(b, totalStrain);
    assert ApplyReturn(a, prims.plasticityReturn(a, totalStrain), nonlocal)
        == ApplyReturn(b, prims.plasticityReturn(b, totalStrain), nonlocal);
  }

  /** giveRealStressVectorGradientDamage, updating the status in place. */
  method GiveRealStressVectorGradientDamage(p: Params, prims: Primitives, status: RankineMatGradStatus,
                                            totalStrain: Vector, nonlocal: real)
    returns (stress: Vector, localCumulativePlasticStrain: real)
    modifies status
    ensures var r := EvaluateStress(p, prims, old(status.State()), totalStrain, nonlocal);
            status.State() == r.state && stress == r.stress && localCumulativePlasticStrain == r.local
  {
    status.InitTempStatus();
    ghost var s1 := status.State();
    var ret := prims.plasticityReturn(status.State(), totalStrain);
    status.temp := status.temp.(effStress := ret.effStress, kappa := ret.kappa);
    status.dKappa1, status.dKappa2 := ret.dKappa1, ret.dKappa2;
    status.tempNonlocalCumulativePlasticStrain := nonlocal;
    ghost var s2 := status.State();
    assert s2 == ApplyReturn(s1, ret, nonlocal);
    localCumulativePlasticStrain := status.temp.kappa;
    var tempDamage := prims.computeDamage(status.State());
    var tempEffStress := status.temp.effStress;
    stress := Scale(1.0 - tempDamage, tempEffStress);
    status.temp := status.temp.(strain := totalStrain, damage := tempDamage, effStress := tempEffStress, stress := stress);
    assert status.State() == ApplyDamage(s2, totalStrain, tempDamage);
    status.kappaHat := KappaHat(p, status.State());
  }

  // ---------------------------------------------------------------------
  // Plastic-flow direction in principal coordinates
  // ---------------------------------------------------------------------

  /** E* = E / (1 - nu^2), the plane-stress modulus. */
  function EStar(p: Params): real
    requires p.nu * p.nu != 1.0
  {
    p.E / (1.0 - p.nu * p.nu)
  }

  function VertexDenominator(p: Params, H: real, dk1: real, dk2: real): real {
    p.E * dk1 + H * (1.0 - p.nu) * (dk1 + dk2)
  }

  // Regular case: eta = [E* / (H + E*), nu E* / (H + E*), 0].
  function RegularEta(p: Params, H: real): (eta: Vector)
    requires p.nu * p.nu != 1.0 && H + EStar(p) != 0.0
    ensures |eta| == 3 && eta[1] == p.nu * eta[0] && eta[2] == 0.0
  {
    var aux := EStar(p) / (H + EStar(p));
    [aux, p.nu * aux, 0.0]
  }

  /** Vertex case: eta = [E dk1 / D, E dk2 / D, 0] with D = E dk1 + H (1 - nu)(dk1 + dk2). */
  function VertexEta(p: Params, H: real, dk1: real, dk2: real): (eta: Vector)
    requires VertexDenominator(p, H, dk1, dk2) != 0.0
    ensures |eta| == 3 && eta[2] == 0.0
  {
    var denom := VertexDenominator(p, H, dk1, dk2);
    [p.E * dk1 / denom, p.E * dk2 / denom, 0.0]
  }

  predicate EtaDefined(p: Params, H: real, dk1: real, dk2: real) {
    if dk1 == 0.0 then p.nu * p.nu != 1.0 && H + EStar(p) != 0.0
    else VertexDenominator(p, H, dk1, dk2) != 0.0
  }

  /** eta in principal coordinates: the regular formula when the first increment is 0, else the vertex one. */
  function Eta(p: Params, H: real, dk1: real, dk2: real): (eta: Vector)
    requires EtaDefined(p, H, dk1, dk2)
    ensures |eta| == 3
  {
    if dk1 == 0.0 then RegularEta(p, H) else VertexEta(p, H, dk1, dk2)
  }

  /**
   * The two branches agree where they meet: the vertex formula with the
   * second increment equal to nu times the first is the regular formula.
   */
  lemma {:induction false} VertexMatchesRegular(p: Params, H: real, dk1: real)
    requires dk1 != 0.0 && p.nu * p.nu != 1.0 && H + EStar(p) != 0.0
    ensures VertexDenominator(p, H, dk1, p.nu * dk1) != 0.0
    ensures VertexEta(p, H, dk1, p.nu * dk1) == RegularEta(p, H)
  {
    var q, es := 1.0 - p.nu * p.nu, EStar(p);
    var d := VertexDenominator(p, H, dk1, p.nu * dk1);
    VertexDenominatorOnRegularLine(p, H, dk1);
    ScalarBranchAgreement(p.E, p.nu, H, dk1, q, es, d);
    var v, g := VertexEta(p, H, dk1, p.nu * dk1), RegularEta(p, H);
    assert v[0] == g[0] && v[1] == g[1] && v[2] == g[2];
  }

  /** With E = E* q and d = dk1 q (H + E*): E dk1 / d = E* / (H + E*) and E nu dk1 / d = nu E* / (H + E*). */
  lemma {:induction false} ScalarBranchAgreement(E: real, nu: real, H: real, dk1: real, q: real, es: real, d: real)
    requires es * q == E && dk1 != 0.0 && q != 0.0 && H + es != 0.0
    requires d == dk1 * q * (H + es)
    ensures d != 0.0
    ensures E * dk1 / d == es / (H + es)
    ensures E * (nu * dk1) / d == nu * (es / (H + es))
  {
    var k := dk1 * q;
    NonZeroProduct(dk1, q);
    NonZeroProduct(k, H + es);
    assert E * dk1 == k * es;
    DivideCommonFactor(k, es, H + es);
    assert E * (nu * dk1) == k * (nu * es);
    DivideCommonFactor(k, nu * es, H + es);
    assert nu * es / (H + es) == nu * (es / (H + es));
  }

  lemma NonZeroProduct(a: real, b: real)
    requires a != 0.0 && b != 0.0
    ensures a * b != 0.0
  {
  }

  lemma DivideCommonFactor(k: real, a: real, b: real)
    requires k != 0.0 && b != 0.0
    ensures k * b != 0.0
    ensures (k * a) / (k * b) == a / b
  {
  }

  /** On the line dk2 = nu dk1 the vertex denominator factors as dk1 (1 - nu^2)(H + E*). */
  lemma {:induction false} VertexDenominatorOnRegularLine(p: Params, H: real, dk1: real)
    requires p.nu * p.nu != 1.0
    ensures EStar(p) * (1.0 - p.nu * p.nu) == p.E
    ensures VertexDenominator(p, H, dk1, p.nu * dk1) == dk1 * (1.0 - p.nu * p.nu) * (H + EStar(p))
  {
    var q, es := 1.0 - p.nu * p.nu, EStar(p);
    assert es * q == p.E;
    calc {
      VertexDenominator(p, H, dk1, p.nu * dk1);
    ==
      p.E * dk1 + H * (1.0 - p.nu) * (dk1 + p.nu * dk1);
    ==
      p.E * dk1 + H * dk1 * ((1.0 - p.nu) * (1.0 + p.nu));
    ==
      dk1 * (es * q) + dk1 * H * q;
    ==
      dk1 * q * (H + es);
    }
  }

  /** Everything the principal-coordinate eta needs: finite denominators and a 3x3 rotation. */
  predicate GlobalEtaDefined(p: Params, prims: Primitives, s: PointState) {
    EtaDefined(p, prims.plasticModulus(s.temp.kappa), s.dKappa1, s.dKappa2) &&
    IsMatrix(prims.principalRotation(s.temp.effStress), 3, 3)
  }

  /** eta transformed to global coordinates by the principal-stress rotation. */
  function GlobalEta(p: Params, prims: Primitives, s: PointState): (eta: Vector)
    requires GlobalEtaDefined(p, prims, s)
    ensures |eta| == 3
  {
    MatVec(prims.principalRotation(s.temp.effStress), Eta(p, prims.plasticModulus(s.temp.kappa), s.dKappa1, s.dKappa2))
  }

  // ---------------------------------------------------------------------
  // Coupled stiffness blocks
  // ---------------------------------------------------------------------

  /** The effective stress of a 1D point, 0 before any stress has been stored. */
  function OneDStress(s: PointState): real {
    if |s.temp.effStress| > 0 then s.temp.effStress[0] else 0.0
  }

  /**
   * The g' passed on to the plane-stress tangent: exactly 0 when the damage
   * increment is negligible, otherwise (1 - m) g'(kappa_hat).
   */
  function PlaneStressGPrime(p: Params, prims: Primitives, s: PointState): (gprime: real)
    ensures DamageIncrement(s) <= p.negligibleDamage ==> gprime == 0.0
    ensures DamageIncrement(s) > p.negligibleDamage ==> gprime == (1.0 - p.mParam) * prims.gPrime(KappaHat(p, s))
  {
    if s.temp.damage - s.committed.damage <= p.negligibleDamage then 0.0
    else prims.gPrime(KappaHat(p, s)) * (1.0 - p.mParam)
  }

  /** givePlaneStressStiffMtrx: the base plane-stress tangent with the guarded g'. */
  function GivePlaneStressStiffMtrx(p: Params, prims: Primitives, s: PointState, mode: ResponseMode): (k: Matrix)
    ensures DamageIncrement(s) <= p.negligibleDamage ==> k == prims.planeStressStiffness(s, mode, 0.0)
  {
    prims.planeStressStiffness(s, mode, PlaneStressGPrime(p, prims, s))
  }

  /** The secant 1D modulus (1 - D_temp) E H0 / (E + H0). */
  function OneDSecant(p: Params, s: PointState): real
    requires p.E + p.H0 != 0.0
  {
    (1.0 - s.temp.damage) * p.E * p.H0 / (p.E + p.H0)
  }

  /** The 1D uu entry: the secant modulus minus the damage-softening correction when loading in tangent mode. */
  function OneDUu(p: Params, prims: Primitives, s: PointState, mode: ResponseMode): (k: real)
    requires p.E + p.H0 != 0.0
    ensures !(s.temp.damage > s.committed.damage && mode == TangentStiffness) ==> k == OneDSecant(p, s)
    ensures s.temp.damage > s.committed.damage && mode == TangentStiffness ==>
              k == OneDSecant(p, s) - (1.0 - p.mParam) * prims.gPrime(KappaHat(p, s)) * p.E / (p.E + p.H0) * Abs(OneDStress(s))
  {
    var stress := OneDStress(s);
    if s.temp.damage > s.committed.damage && mode == TangentStiffness then
      SignumTimesSelf(stress);
      OneDSecant(p, s) - (1.0 - p.mParam) * prims.gPrime(KappaHat(p, s)) * p.E / (p.E + p.H0) * stress * Signum(stress)
    else OneDSecant(p, s)
  }

  /**
   * The softening correction never stiffens: with E > 0, E + H0 > 0,
   * m <= 1 and g' >= 0 the tangent entry is at most the secant one.
   */
  lemma {:induction false} OneDUuSoftens(p: Params, prims: Primitives, s: PointState)
    requires p.E > 0.0 && p.E + p.H0 > 0.0 && p.mParam <= 1.0
    requires prims.gPrime(KappaHat(p, s)) >= 0.0
    ensures OneDUu(p, prims, s, TangentStiffness) <= OneDSecant(p, s)
  {
    var stress := OneDStress(s);
    if s.temp.damage > s.committed.damage {
      var a := (1.0 - p.mParam) * prims.gPrime(KappaHat(p, s));
      assert a >= 0.0;
      var b := a * p.E / (p.E + p.H0);
      assert b >= 0.0 by {
        assert a * p.E >= 0.0;
      }
      SignumTimesSelf(stress);
      assert b * stress * Signum(stress) == b * (stress * Signum(stress));
      assert b * (stress * Signum(stress)) >= 0.0;
    }
  }

  /** The material declares only plane stress as a supported mode (the 1D branches exist but are not advertised). */
  predicate HasMaterialModeCapability(mMode: MaterialMode)
    ensures HasMaterialModeCapability(mMode) ==> GiveDimension(mMode) == 2
  {
    mMode == PlaneStress
  }

  /** In every mode the material declares, the displacement/damage blocks uu, ud and du are all available. */
  lemma CapableModeHasCoupledBlocks(p: Params, prims: Primitives, s: PointState, mode: ResponseMode, mMode: MaterialMode)
    requires HasMaterialModeCapability(mMode)
    requires UdDefined(p, s, mode, mMode) && DuDefined(p, prims, s, mode, mMode)
    ensures Uu(p, prims, s, mode, mMode).Ok? && Ud(p, prims, s, mode, mMode).Ok? && Du(p, prims, s, mode, mMode).Ok?
    ensures IsMatrix(Ud(p, prims, s, mode, mMode).value, 3, 1) && IsMatrix(Du(p, prims, s, mode, mMode).value, 3, 1)
    ensures IsMatrix(DdBB(p, prims, s, mMode), 2, 2)
  {
  }

  /** Block uu. */
  function Uu(p: Params, prims: Primitives, s: PointState, mode: ResponseMode, mMode: MaterialMode): (r: Result<Matrix, Error>)
    requires mMode == OneD && mode != ElasticStiffness ==> p.E + p.H0 != 0.0
    ensures r.Err? <==> mMode != PlaneStress && mMode != OneD
    ensures r.Err? ==> r.error == UnsupportedMode(mMode)
    ensures (mMode == PlaneStress || mMode == OneD) && mode == ElasticStiffness ==>
              r == Ok(prims.elasticStiffness(mMode))
    ensures mMode == PlaneStress && mode != ElasticStiffness ==> r == Ok(GivePlaneStressStiffMtrx(p, prims, s, mode))
    ensures mMode == OneD && mode != ElasticStiffness ==> r == Ok([[OneDUu(p, prims, s, mode)]])
  {
    match mMode
    case PlaneStress =>
      if mode == ElasticStiffness then Ok(prims.elasticStiffness(PlaneStress))
      else Ok(GivePlaneStressStiffMtrx(p, prims, s, mode))
    case OneD =>
      if mode == ElasticStiffness then Ok(prims.elasticStiffness(OneD))
      else Ok([[OneDUu(p, prims, s, mode)]])
    case _ => Err(UnsupportedMode(mMode))
  }

  /** What ud reads from the status: three stress components in plane stress, one in 1D. */
  predicate UdDefined(p: Params, s: PointState, mode: ResponseMode, mMode: MaterialMode) {
    (mMode == PlaneStress && mode == TangentStiffness && DamageIncrement(s) > p.negligibleDamage ==>
       |s.temp.effStress| >= 3) &&
    (mMode == OneD && mode == TangentStiffness && s.temp.damage > s.committed.damage ==>
       |s.temp.effStress| >= 1)
  }

  /** Block ud: zero unless damage grows in tangent mode, then -g'(kappa_hat) m times the effective stress. */
  function Ud(p: Params, prims: Primitives, s: PointState, mode: ResponseMode, mMode: MaterialMode): (r: Result<Matrix, Error>)
    requires UdDefined(p, s, mode, mMode)
    ensures r.Err? <==> mMode != PlaneStress && mMode != OneD
    ensures mMode == PlaneStress && (mode != TangentStiffness || DamageIncrement(s) <= p.negligibleDamage) ==>
              r == Ok(Zeros(3, 1))
    ensures mMode == PlaneStress && mode == TangentStiffness && DamageIncrement(s) > p.negligibleDamage ==>
              r.Ok? && IsMatrix(r.value, 3, 1) &&
              forall i :: 0 <= i < 3 ==> r.value[i][0] == -prims.gPrime(KappaHat(p, s)) * p.mParam * s.temp.effStress[i]
    ensures mMode == OneD && !(mode == TangentStiffness && s.temp.damage > s.committed.damage) ==>
              r == Ok(Zeros(1, 1))
    ensures mMode == OneD && mode == TangentStiffness && s.temp.damage > s.committed.damage ==>
              r.Ok? && IsMatrix(r.value, 1, 1) &&
              r.value[0][0] == -prims.gPrime(KappaHat(p, s)) * p.mParam * s.temp.effStress[0]
  {
    match mMode
    case PlaneStress =>
      if mode != TangentStiffness || s.temp.damage - s.committed.damage <= p.negligibleDamage then Ok(Zeros(3, 1))
      else Ok(Column(Scale(-prims.gPrime(KappaHat(p, s)) * p.mParam, s.temp.effStress[..3])))
    case OneD =>
      if mode == TangentStiffness && s.temp.damage > s.committed.damage then
        Ok(Column(Scale(-prims.gPrime(KappaHat(p, s)) * p.mParam, s.temp.effStress[..1])))
      else Ok(Zeros(1, 1))
    case _ => Err(UnsupportedMode(mMode))
  }

  /** The eikonal rescaling of the plane-stress du row: 1/a - (1 - m) a' g' (local - nonlocal) / a^2. */
  function DuEikonalScale(p: Params, prims: Primitives, s: PointState): real
    requires EikonalLength(p, prims, s.temp.damage) != 0.0
  {
    var iA := EikonalLength(p, prims, s.temp.damage);
    assert prims.sqrt(1.0 - s.temp.damage) != 0.0;
    var factor := (1.0 - p.mParam) * EikonalLengthPrime(p, prims, s.temp.damage) * prims.gPrime(KappaHat(p, s))
                  * (s.temp.kappa - s.tempNonlocal) / (iA * iA);
    1.0 / iA - factor
  }

  /** Plane-stress du: zero unless kappa grows in tangent mode, then -eta_glob (rescaled in the eikonal form). */
  function DuPlaneStress(p: Params, prims: Primitives, s: PointState, mode: ResponseMode): (r: Matrix)
    requires mode == TangentStiffness && KappaIncrement(s) > 0.0 ==> GlobalEtaDefined(p, prims, s)
    ensures IsMatrix(r, 3, 1)
    ensures mode != TangentStiffness || KappaIncrement(s) <= 0.0 ==> r == Zeros(3, 1)
    ensures mode == TangentStiffness && KappaIncrement(s) > 0.0 && (p.formulation == Standard || EikonalLength(p, prims, s.temp.damage) == 0.0) ==>
              forall i :: 0 <= i < 3 ==> r[i][0] == -GlobalEta(p, prims, s)[i]
    ensures mode == TangentStiffness && KappaIncrement(s) > 0.0 && p.formulation == Eikonal && EikonalLength(p, prims, s.temp.damage) != 0.0 ==>
              forall i :: 0 <= i < 3 ==> r[i][0] == DuEikonalScale(p, prims, s) * -GlobalEta(p, prims, s)[i]
  {
    if mode != TangentStiffness || s.temp.kappa - s.committed.kappa <= 0.0 then Zeros(3, 1)
    else
      var answer := Column(Scale(-1.0, GlobalEta(p, prims, s)));
      if p.formulation == Eikonal && EikonalLength(p, prims, s.temp.damage) != 0.0 then
        ScaleMatrix(DuEikonalScale(p, prims, s), answer)
      else answer
  }

  /** 1D du: zero outside tangent mode, cleared without plastic loading, else sign(sigma) E / (E + H0). */
  function DuOneD(p: Params, prims: Primitives, s: PointState, mode: ResponseMode): (r: Matrix)
    requires mode == TangentStiffness && KappaIncrement(s) > 0.0 ==> p.E + p.H0 != 0.0
    ensures mode != TangentStiffness ==> r == Zeros(1, 1)
    ensures mode == TangentStiffness && KappaIncrement(s) <= 0.0 ==> r == []
    ensures mode == TangentStiffness && KappaIncrement(s) > 0.0 ==> IsMatrix(r, 1, 1)
    ensures mode == TangentStiffness && KappaIncrement(s) > 0.0 && (p.formulation == Standard || EikonalLength(p, prims, s.temp.damage) == 0.0) ==>
              r == [[Signum(OneDStress(s)) * p.E / (p.E + p.H0)]]
  {
    if mode != TangentStiffness then Zeros(1, 1)
    else if s.temp.kappa - s.committed.kappa <= 0.0 then []
    else
      var f := Signum(OneDStress(s)) * p.E / (p.E + p.H0);
      var iA := EikonalLength(p, prims, s.temp.damage);
      if p.formulation == Eikonal && iA != 0.0 then
        assert prims.sqrt(1.0 - s.temp.damage) != 0.0;
        [[f * (-EikonalLengthPrime(p, prims, s.temp.damage) * (s.tempNonlocal - s.temp.kappa) / (iA * iA))]]
      else [[f]]
  }

  predicate DuDefined(p: Params, prims: Primitives, s: PointState, mode: ResponseMode, mMode: MaterialMode) {
    mode == TangentStiffness && KappaIncrement(s) > 0.0 ==>
      (mMode == PlaneStress ==> GlobalEtaDefined(p, prims, s)) &&
      (mMode == OneD ==> p.E + p.H0 != 0.0)
  }

  /** Block du. */
  function Du(p: Params, prims: Primitives, s: PointState, mode: ResponseMode, mMode: MaterialMode): (r: Result<Matrix, Error>)
    requires DuDefined(p, prims, s, mode, mMode)
    ensures r.Err? <==> mMode != PlaneStress && mMode != OneD
    ensures mMode == PlaneStress ==> r == Ok(DuPlaneStress(p, prims, s, mode))
    ensures mMode == OneD ==> r == Ok(DuOneD(p, prims, s, mode))
  {
    match mMode
    case PlaneStress => Ok(DuPlaneStress(p, prims, s, mode))
    case OneD => Ok(DuOneD(p, prims, s, mode))
    case _ => Err(UnsupportedMode(mMode))
  }

  predicate DuBBDefined(p: Params, prims: Primitives, s: PointState, mode: ResponseMode, mMode: MaterialMode) {
    p.formulation == Eikonal && mode == TangentStiffness ==>
      (mMode == PlaneStress && KappaIncrement(s) > 0.0 ==>
         GlobalEtaDefined(p, prims, s) && prims.sqrt(1.0 - s.temp.damage) != 0.0) &&
      (mMode == OneD ==> prims.sqrt(1.0 - s.temp.damage) != 0.0 && p.E + p.H0 != 0.0)
  }

  /**
   * Eikonal plane-stress du_BB for the global eta `eta`: the nonlocal
   * gradient times eta, scaled by b'(D) g'(kappa) (1 - m).
   */
  function DuBBPlaneStress(p: Params, prims: Primitives, s: PointState, eta: Vector): (r: Matrix)
    requires prims.sqrt(1.0 - s.temp.damage) != 0.0 && |eta| == 3
    ensures IsMatrix(r, |s.tempNonlocalGrad|, 3)
    ensures forall i, j :: 0 <= i < |s.tempNonlocalGrad| && 0 <= j < 3 ==>
              r[i][j] == EikonalLengthPrime(p, prims, s.temp.damage) * prims.gPrime(s.temp.kappa) * (1.0 - p.mParam)
                         * (s.tempNonlocalGrad[i] * eta[j])
  {
    var c := EikonalLengthPrime(p, prims, s.temp.damage) * prims.gPrime(s.temp.kappa) * (1.0 - p.mParam);
    ScaleMatrix(c, Dyadic(s.tempNonlocalGrad, eta))
  }

  /** Eikonal 1D du_BB: the gradient column scaled by b'(D) g'(kappa_hat) (1 - m) E / (E + H0). */
  function DuBBOneD(p: Params, prims: Primitives, s: PointState): (r: Matrix)
    requires prims.sqrt(1.0 - s.temp.damage) != 0.0 && p.E + p.H0 != 0.0
    ensures IsMatrix(r, |s.tempNonlocalGrad|, 1)
    ensures forall i :: 0 <= i < |s.tempNonlocalGrad| ==>
              r[i][0] == EikonalLengthPrime(p, prims, s.temp.damage) * prims.gPrime(KappaHat(p, s)) * (1.0 - p.mParam)
                         * p.E / (p.E + p.H0) * s.tempNonlocalGrad[i]
  {
    var c := EikonalLengthPrime(p, prims, s.temp.damage) * prims.gPrime(KappaHat(p, s)) * (1.0 - p.mParam)
             * p.E / (p.E + p.H0);
    ScaleMatrix(c, Column(s.tempNonlocalGrad))
  }

  /**
   * Block du_BB: cleared in the standard formulation; in the eikonal one
   * cleared outside tangent mode (and, in plane stress, without plastic
   * loading), otherwise the per-mode product.  The plane-stress branch
   * evaluates g' at the local kappa.
   */
  function DuBB(p: Params, prims: Primitives, s: PointState, mode: ResponseMode, mMode: MaterialMode): (r: Result<Matrix, Error>)
    requires DuBBDefined(p, prims, s, mode, mMode)
    ensures p.formulation == Standard ==> r == Ok([])
    ensures p.formulation == Eikonal ==> (r.Err? <==> mMode != PlaneStress && mMode != OneD)
    ensures p.formulation == Eikonal && (mMode == PlaneStress || mMode == OneD) && mode != TangentStiffness ==> r == Ok([])
    ensures p.formulation == Eikonal && mMode == PlaneStress && KappaIncrement(s) <= 0.0 ==> r == Ok([])
    ensures p.formulation == Eikonal && mMode == PlaneStress && mode == TangentStiffness && KappaIncrement(s) > 0.0 ==>
              r == Ok(DuBBPlaneStress(p, prims, s, GlobalEta(p, prims, s)))
    ensures p.formulation == Eikonal && mMode == OneD && mode == TangentStiffness ==>
              r == Ok(DuBBOneD(p, prims, s))
  {
    if p.formulation == Standard then Ok([])
    else
      match mMode
      case PlaneStress =>
        if mode != TangentStiffness || s.temp.kappa - s.committed.kappa <= 0.0 then Ok([])
        else Ok(DuBBPlaneStress(p, prims, s, GlobalEta(p, prims, s)))
      case OneD =>
        if mode == TangentStiffness then Ok(DuBBOneD(p, prims, s)) else Ok([])
      case _ => Err(UnsupportedMode(mMode))
  }

  /**
   * Block dd_NN: cleared in the standard formulation; in the eikonal one
   * 1/a (0 when a = 0), corrected by -a'/a^2 g' m (nonlocal - local) while
   * kappa grows in tangent mode.
   */
  function DdNN(p: Params, prims: Primitives, s: PointState, mode: ResponseMode): (r: Matrix)
    ensures p.formulation == Standard ==> r == []
    ensures p.formulation == Eikonal ==> IsMatrix(r, 1, 1)
    ensures p.formulation == Eikonal && EikonalLength(p, prims, s.temp.damage) == 0.0 ==> r == [[0.0]]
    ensures p.formulation == Eikonal && EikonalLength(p, prims, s.temp.damage) != 0.0 &&
            (mode != TangentStiffness || KappaIncrement(s) <= 0.0) ==>
              r == [[1.0 / EikonalLength(p, prims, s.temp.damage)]]
  {
    if p.formulation == Standard then []
    else
      var iA := EikonalLength(p, prims, s.temp.damage);
      var n := if iA != 0.0 then 0.0 + 1.0 / iA else 0.0;
      if mode == TangentStiffness && s.temp.kappa > s.committed.kappa && iA != 0.0 then
        assert prims.sqrt(1.0 - s.temp.damage) != 0.0;
        var iAPrime := EikonalLengthPrime(p, prims, s.temp.damage);
        [[n - iAPrime / iA / iA * prims.gPrime(KappaHat(p, s)) * p.mParam * (s.tempNonlocal - s.temp.kappa)]]
      else [[n]]
  }

  /** giveDimension: 1 for 1D, 2 for plane stress, 3 for plane strain and 3D, 0 otherwise. */
  function GiveDimension(mMode: MaterialMode): (n: nat)
    ensures n == 0 <==> mMode == OtherMode
    ensures mMode == OneD ==> n == 1
    ensures mMode == PlaneStress ==> n == 2
    ensures n == 3 <==> mMode == PlaneStrain || mMode == ThreeD
  {
    match mMode
    case OneD => 1
    case PlaneStress => 2
    case PlaneStrain => 3
    case ThreeD => 3
    case OtherMode => 0
  }

  /** The length that multiplies the gradient terms: l^2 (standard) or b(D) (eikonal). */
  function GradientLength(p: Params, prims: Primitives, s: PointState): real {
    if p.formulation == Standard then p.internalLength * p.internalLength
    else EikonalLength(p, prims, s.temp.damage)
  }

  /** Block dd_BB: the n-by-n identity scaled by l^2 (standard) or by b(D) (eikonal), n = giveDimension. */
  function DdBB(p: Params, prims: Primitives, s: PointState, mMode: MaterialMode): (r: Matrix)
    ensures IsMatrix(r, GiveDimension(mMode), GiveDimension(mMode))
    ensures forall i, j :: 0 <= i < GiveDimension(mMode) && 0 <= j < GiveDimension(mMode) ==>
              r[i][j] == (if i == j then GradientLength(p, prims, s) else 0.0)
  {
    ScaledIdentity(GiveDimension(mMode), GradientLength(p, prims, s))
  }

  /** Block dd_BN: cleared in the standard formulation, else the gradient column times b' g'(kappa_hat) m. */
  function DdBN(p: Params, prims: Primitives, s: PointState): (r: Matrix)
    requires p.formulation == Eikonal ==> prims.sqrt(1.0 - s.temp.damage) != 0.0
    ensures p.formulation == Standard ==> r == []
    ensures p.formulation == Eikonal ==> IsMatrix(r, |s.tempNonlocalGrad|, 1)
    ensures p.formulation == Eikonal ==>
              forall i :: 0 <= i < |s.tempNonlocalGrad| ==>
                r[i][0] == EikonalLengthPrime(p, prims, s.temp.damage) * prims.gPrime(KappaHat(p, s)) * p.mParam * s.tempNonlocalGrad[i]
  {
    if p.formulation == Standard then []
    else ScaleMatrix(EikonalLengthPrime(p, prims, s.temp.damage) * prims.gPrime(KappaHat(p, s)) * p.mParam,
                     Column(s.tempNonlocalGrad))
  }

  // ---------------------------------------------------------------------
  // Nonlocal forcing factors
  // ---------------------------------------------------------------------

  /**
   * N-factor: the temp nonlocal minus the temp local driving variable,
   * divided by a(D) only in the eikonal form with a != 0.  The argument is
   * not read: the status values are used.
   */
  function NFactor(p: Params, prims: Primitives, s: PointState, nlDamageDrivingVariable: real): (n: real)
    ensures p.formulation == Standard || EikonalLength(p, prims, s.temp.damage) == 0.0 ==>
              n == s.tempNonlocal - s.temp.kappa
    ensures p.formulation == Eikonal && EikonalLength(p, prims, s.temp.damage) != 0.0 ==>
              n * EikonalLength(p, prims, s.temp.damage) == s.tempNonlocal - s.temp.kappa
  {
    var answer := s.tempNonlocal - s.temp.kappa;
    var iA := EikonalLength(p, prims, s.temp.damage);
    if p.formulation == Eikonal && iA != 0.0 then answer / iA else answer
  }

  /** B-factor: the nonlocal gradient times l^2 (standard) or b(D) (eikonal). */
  function BFactor(p: Params, prims: Primitives, s: PointState, grad: Vector): (b: Vector)
    ensures |b| == |grad|
    ensures forall i :: 0 <= i < |grad| ==> b[i] == GradientLength(p, prims, s) * grad[i]
  {
    Scale(GradientLength(p, prims, s), grad)
  }

  /** The internal-state types this class answers itself; every other type goes to the Rankine base. */
  datatype InternalStateType = CumPlasticStrain2 | MaxEquivalentStrainLevel | OtherStateType

  /**
   * giveIPValue: the temp nonlocal cumulative plastic strain, or kappa_hat
   * for the maximum equivalent strain level; None for the types delegated
   * to the base class.
   */
  function GiveIPValue(p: Params, s: PointState, t: InternalStateType): (r: Option<Vector>)
    ensures t == OtherStateType <==> r.None?
    ensures t == CumPlasticStrain2 ==> r == Some([s.tempNonlocal])
    ensures t == MaxEquivalentStrainLevel ==> r.Some? && |r.value| == 1 && r.value[0] == KappaHat(p, s)
  {
    match t
    case CumPlasticStrain2 => Some([s.tempNonlocal])
    case MaxEquivalentStrainLevel => Some([KappaHat(p, s)])
    case OtherStateType => None
  }

  // ---------------------------------------------------------------------
  // Properties across the blocks
  // ---------------------------------------------------------------------

  /** The standard formulation has no cross terms: du_BB, dd_NN and dd_BN are cleared. */
  lemma {:induction false} StandardFormulationHasNoCrossTerms(p: Params, prims: Primitives, s: PointState,
                                                              mode: ResponseMode, mMode: MaterialMode)
    requires p.formulation == Standard
    ensures DuBB(p, prims, s, mode, mMode) == Ok([])
    ensures DdNN(p, prims, s, mode) == [] && DdBN(p, prims, s) == []
  {
  }

  /**
   * dd_BB and the B-factor use the same length: dd_BB applied to a
   * gradient is the B-factor, in both formulations.
   */
  lemma {:induction false} DdBBMatchesBFactor(p: Params, prims: Primitives, s: PointState, mMode: MaterialMode, grad: Vector)
    requires |grad| == GiveDimension(mMode)
    ensures MatVec(DdBB(p, prims, s, mMode), grad) == BFactor(p, prims, s, grad)
  {
    ScaledIdentityTimes(GiveDimension(mMode), GradientLength(p, prims, s), grad);
  }

  /**
   * Elastic unloading decouples the fields: when neither damage grows
   * beyond the negligible increment nor kappa grows, ud and du vanish in
   * plane stress and du_BB is cleared; outside tangent mode the same holds
   * in every supported mode.
   */
  lemma {:induction false} ElasticUnloadingDecouples(p: Params, prims: Primitives, s: PointState, mode: ResponseMode)
    requires DamageIncrement(s) <= p.negligibleDamage && KappaIncrement(s) <= 0.0
    ensures Ud(p, prims, s, mode, PlaneStress) == Ok(Zeros(3, 1))
    ensures Du(p, prims, s, mode, PlaneStress) == Ok(Zeros(3, 1))
    ensures DuBB(p, prims, s, mode, PlaneStress) == Ok([])
    ensures GivePlaneStressStiffMtrx(p, prims, s, mode) == prims.planeStressStiffness(s, mode, 0.0)
  {
  }

  /** Outside tangent mode no block couples the displacement and the nonlocal field. */
  lemma {:induction false} NonTangentDecouples(p: Params, prims: Primitives, s: PointState, mode: ResponseMode)
    requires mode != TangentStiffness
    ensures Ud(p, prims, s, mode, PlaneStress) == Ok(Zeros(3, 1)) && Ud(p, prims, s, mode, OneD) == Ok(Zeros(1, 1))
    ensures Du(p, prims, s, mode, PlaneStress) == Ok(Zeros(3, 1)) && Du(p, prims, s, mode, OneD) == Ok(Zeros(1, 1))
    ensures DuBB(p, prims, s, mode, PlaneStress) == Ok([]) && DuBB(p, prims, s, mode, OneD) == Ok([])
  {
  }

  /** The plane-stress uu of a non-elastic request is givePlaneStressStiffMtrx (the two copies of the guard agree). */
  lemma {:induction false} PlaneStressUuIsPlaneStressStiffMtrx(p: Params, prims: Primitives, s: PointState, mode: ResponseMode)
    requires mode != ElasticStiffness
    ensures Uu(p, prims, s, mode, PlaneStress) == Ok(GivePlaneStressStiffMtrx(p, prims, s, mode))
  {
  }
}
