# Gradient-damage and gradient-polyconvex materials of OOFEM, in Dafny

This project models three constitutive models of the OOFEM finite-element
code, as material-point computations:

- **RankineMatGrad** (`rankine_mat_grad.dfy`) is Rankine plasticity with
  isotropic damage, regularised by a nonlocal cumulative plastic strain that
  solves a gradient equation. It has a standard formulation and an
  "eikonal" one, where the internal length shrinks with damage.
  - The material status keeps committed and temp copies of strain, stress,
    effective stress, kappa and damage, and of the nonlocal variable. It is a
    class with those fields and with the `initTempStatus` and
    `updateYourself` methods.
  - The stress evaluator writes only the temp copies.
  - The coupled stiffness blocks (`uu`, `ud`, `du`, `du_BB`, `dd_NN`,
    `dd_BB`, `dd_BN`) and the N and B forcing factors are functions of a
    snapshot (`PointState`) of the status.
- **SimplePlasticGradientDamageMaterial** (`simple_plastic_gradient_damage.dfy`)
  is a plasticity model whose damage is driven by a blend
  `m kappa_nonlocal + (1 - m) kappa_local`. Its damage law, its stiffness
  blocks and its stress evaluator are modelled over a status class.
- **GradientPolyconvexMaterialOld** (`gradient_polyconvex.dfy`,
  `gradient_polyconvex_material.dfy`) is a finite-strain micromorphic
  material.
  - A double-well energy `alpha |C - tC1|^2 |C - tC2|^2` has its wells at the
    metrics of two simple shears, of amount `+-(t + 1) eps`.
  - A micromorphic variable `phi` is penalised against the cofactor
    `cof F = J F^-T`, with relative stress `s = -Hk (cof F - phi)`.
  - The higher-order stress is `M = Ak grad phi`.
  - The tangent matrices `dSigdUgrad`, `dSigdPhi` and `dSdUgrad` are 9x9
    `array2` values filled by the source's nested loops. In plane strain
    they are reduced to 5x5.

`tensor_index.dfy` models OOFEM's 3x3 Voigt-like ordering `giveVI`
(11, 22, 33, 23, 13, 12, 32, 31, 21) and the loops that fill and reduce 9x9
matrices. `algebra.dfy` holds the vector and matrix values, and
`dense_arrays.dfy` holds the in-place array helpers.

Reals are mathematical reals.

Some functions these files call are defined elsewhere in OOFEM. Each model
takes them as fields of a `Primitives` record, so every contract holds
whatever those functions compute. They are:

- the Rankine plasticity return;
- the damage law `g` and its derivative;
- the plastic modulus;
- the principal-stress rotation;
- the base stiffness matrices;
- `sqrt`;
- matrix inverse and determinant;
- the full and reduced vector-form conversions.

Several contracts say what these computations mean, beyond what the code
does step by step:

- `dC/dF` is the exact derivative of `C = F^T F`.
- `dSigdPhi` is the exact derivative of the micromorphic first Piola stress
  with respect to `phi`, summed in loop order.
- `dSigdUgrad` is symmetric at the cofactor when the targets are symmetric.
- The double-well stress vanishes at each target metric.
- Damage never decreases over committed steps.
- Rankine's vertex and regular `eta` formulas agree on the regular line.
- `dd_BB` applied to a gradient is the B forcing factor. In the simple
  plastic model this holds only when `l = internalLength^2`.
- A rollback followed by a commit behaves as expected.
- The re-evaluation after the finite-difference checks leaves the status
  unchanged, when the stored 1D strain has one component.

## Model

| member | source | states |
|---|---|---|
| RankineMatGrad.FormulationFromCode | src/sm/Materials/rankinematgrad.C:72-81 | code 0 gives the standard formulation and code 2 the eikonal one, each iff; any other code is an `UnknownFormulation` error |
| RankineMatGrad.InitializeFrom | src/sm/Materials/rankinematgrad.C:60-90 | reading succeeds iff the formulation code (default 0) is known; `m` defaults to 2, `negligibleDamage` to 0, and the formulation is the decoded one |
| RankineMatGrad.InitializeFromDefaults | src/sm/Materials/rankinematgrad.C:64-81 | an empty record gives m = 2, negligible damage 0 and the standard formulation |
| RankineMatGrad.KappaHat | src/sm/Materials/rankinematgrad.C:697-703 | kappa_hat is the temp nonlocal value when m = 1 and the temp local kappa when m = 0 |
| RankineMatGrad.LocalDrivingVariable | src/sm/Materials/rankinematgrad.C:655-659 | the local driving variable is the temp cumulative plastic strain; its contract is LocalDrivingVariableAfterEvaluation |
| RankineMatGrad.LocalDrivingVariableAfterEvaluation | src/sm/Materials/rankinematgrad.C:655-694 | after an evaluation, the local driving variable is the local value the evaluation returned, which is the kappa of the plasticity return |
| RankineMatGrad.EikonalLength | src/sm/Materials/rankinematgrad.C:726-741 | the eikonal length; its contract is EikonalLengthBounds and EikonalLengthDerivative |
| RankineMatGrad.EikonalLengthPrime | src/sm/Materials/rankinematgrad.C:744-760 | the derivative of the eikonal length; its contract is EikonalLengthDerivative |
| RankineMatGrad.InitTemp | src/sm/Materials/rankinematgrad.C:807-812 | the temp copies become the committed ones, the temp nonlocal value the committed nonlocal value, and kappa_hat 0; the committed copies are unchanged |
| RankineMatGrad.Commit | src/sm/Materials/rankinematgrad.C:816-820 | the committed copies become the temp ones, the committed nonlocal value the temp nonlocal value; the temp copies and kappa_hat are unchanged |
| RankineMatGrad.HasMaterialModeCapability | src/sm/Materials/rankinematgrad.C:94-97 | only plane stress is supported, and a supported mode has gradient dimension 2 |
| RankineMatGrad.KappaHatBlend | src/sm/Materials/rankinematgrad.C:692-703 | kappa_hat is the nonlocal value when m = 1 and the local value when m = 0; for m in [0, 1] it lies between the two |
| RankineMatGrad.EikonalLengthBounds | src/sm/Materials/rankinematgrad.C:726-741 | the eikonal length is the internal length at zero damage and 0 at full damage |
| RankineMatGrad.EikonalLengthDerivative | src/sm/Materials/rankinematgrad.C:726-760 | for D < 1, b(D)^2 = (1 - D) l^2 and 2 b b' = -l^2, so the coded derivative is the derivative of the coded length |
| RankineMatGrad.InitTempCommitCycle | src/sm/Materials/rankinematgrad.C:807-820 | a reset is idempotent; a commit right after a reset changes nothing; a reset after a commit leaves the old temp values in both copies; a commit is idempotent |
| RankineMatGrad.RankineMatGradStatus.constructor | src/sm/Materials/rankinematgrad.C:785-790 | both copies of the base variables are the initial ones, and the nonlocal plastic strains start at 0 |
| RankineMatGrad.RankineMatGradStatus.InitTempStatus | src/sm/Materials/rankinematgrad.C:807-812 | the temp copies become the committed ones and kappa_hat becomes 0 |
| RankineMatGrad.RankineMatGradStatus.UpdateYourself | src/sm/Materials/rankinematgrad.C:816-820 | the committed copies become the temp ones |
| RankineMatGrad.ApplyReturn | src/sm/Materials/rankinematgrad.C:669-671 | the plasticity return sets the temp effective stress, kappa, the nonlocal value and the increments dkappa1/dkappa2; the temp strain, stress and damage, kappa_hat and the committed state are unchanged |
| RankineMatGrad.ApplyDamage | src/sm/Materials/rankinematgrad.C:672-680 | the temp stress is (1 - D) times the effective stress; strain and damage are stored; nothing committed changes |
| RankineMatGrad.EvaluateStress | src/sm/Materials/rankinematgrad.C:662-694 | the evaluation writes only temp values; the returned stress is (1 - D) sigma_eff; the local variable returned is the temp kappa; kappa_hat is stored |
| RankineMatGrad.EvaluateStressIgnoresTrialValues | src/sm/Materials/rankinematgrad.C:662-694 | the result depends only on the committed state, the return increments and the inputs, not on earlier temp values |
| RankineMatGrad.ReevaluationRestoresState | src/sm/Materials/rankinematgrad.C:164-177 | evaluating at a perturbed input, then again at the stored temp strain and nonlocal value, restores the status exactly |
| RankineMatGrad.GiveRealStressVectorGradientDamage | src/sm/Materials/rankinematgrad.C:662-694 | the status after the call is the evaluated state, and the outputs are its stress and local variable |
| RankineMatGrad.RegularEta | src/sm/Materials/rankinematgrad.C:309-315 | the regular-branch eta has its second component nu times its first, and its third component 0 |
| RankineMatGrad.VertexEta | src/sm/Materials/rankinematgrad.C:316-323 | the vertex-branch eta has three components, the third 0 |
| RankineMatGrad.Eta | src/sm/Materials/rankinematgrad.C:303-323 | eta in principal coordinates has three components |
| RankineMatGrad.VertexMatchesRegular | src/sm/Materials/rankinematgrad.C:309-323 | on the line dkappa2 = nu dkappa1, the vertex denominator is nonzero and the vertex formula equals the regular one |
| RankineMatGrad.GlobalEta | src/sm/Materials/rankinematgrad.C:325-335 | eta rotated to global coordinates has three components |
| RankineMatGrad.PlaneStressGPrime | src/sm/Materials/rankinematgrad.C:612-620 | the g' passed to the plane-stress tangent is exactly 0 for a negligible damage increment, otherwise (1 - m) g'(kappa_hat) |
| RankineMatGrad.GivePlaneStressStiffMtrx | src/sm/Materials/rankinematgrad.C:597-623 | without damage growth the tangent is the base plane-stress matrix with g' = 0 |
| RankineMatGrad.OneDUu | src/sm/Materials/rankinematgrad.C:143-162 | without damage growth in tangent mode, the 1D uu entry is the secant modulus (1 - D) E H0 / (E + H0); with damage growth it is that modulus minus (1 - m) g'(kappa_hat) E / (E + H0) \|sigma\| |
| RankineMatGrad.OneDUuSoftens | src/sm/Materials/rankinematgrad.C:158-161 | with E > 0, E + H0 > 0, m <= 1 and g' >= 0, the 1D tangent never exceeds the secant modulus |
| RankineMatGrad.CapableModeHasCoupledBlocks | src/sm/Materials/rankinematgrad.C:94-97 | in the one mode the material declares (plane stress), uu, ud and du all succeed, and ud and du are 3x1 |
| RankineMatGrad.Uu | src/sm/Materials/rankinematgrad.C:109-186 | an error iff the mode is neither plane stress nor 1D; the elastic matrix in elastic mode; otherwise the plane-stress tangent, or the 1x1 1D modulus |
| RankineMatGrad.PlaneStressUuIsPlaneStressStiffMtrx | src/sm/Materials/rankinematgrad.C:113-142 | in plane stress, uu outside elastic mode is the plane-stress tangent of lines 597-623 |
| RankineMatGrad.Ud | src/sm/Materials/rankinematgrad.C:189-280 | an error iff the mode is unsupported; zero unless damage grows in tangent mode; then each entry is -g'(kappa_hat) m sigma_eff_i (3x1 in plane stress, 1x1 in 1D) |
| RankineMatGrad.DuPlaneStress | src/sm/Materials/rankinematgrad.C:287-374 | zero unless kappa grows in tangent mode; then -eta_global, times the eikonal correction factor in the eikonal form |
| RankineMatGrad.DuOneD | src/sm/Materials/rankinematgrad.C:376-413 | zero 1x1 outside tangent mode; an empty matrix without plastic loading; sign(sigma) E / (E + H0) in the standard form |
| RankineMatGrad.Du | src/sm/Materials/rankinematgrad.C:283-437 | an error iff the mode is unsupported; otherwise the plane-stress or the 1D block |
| RankineMatGrad.DuBBPlaneStress | src/sm/Materials/rankinematgrad.C:448-502 | each entry is b'(D) g'(kappa_local) (1 - m) times the nonlocal gradient entry times eta_global |
| RankineMatGrad.DuBBOneD | src/sm/Materials/rankinematgrad.C:505-519 | each entry is b'(D) g'(kappa_hat) (1 - m) E / (E + H0) times the nonlocal gradient entry |
| RankineMatGrad.DuBB | src/sm/Materials/rankinematgrad.C:441-528 | empty in the standard form; in the eikonal form, an error iff the mode is unsupported, empty outside tangent mode or without plastic loading, else the plane-stress or 1D block |
| RankineMatGrad.DdNN | src/sm/Materials/rankinematgrad.C:531-559 | empty in the standard form; in the eikonal form 1x1: 0 when b(D) = 0, and 1/b(D) when there is no plastic loading |
| RankineMatGrad.GiveDimension | src/sm/Materials/rankinematgrad.C:763-776 | the gradient dimension is 1 for 1D, 2 for plane stress, 3 iff the mode is plane strain or 3D, and 0 iff the mode is none of these four |
| RankineMatGrad.DdBB | src/sm/Materials/rankinematgrad.C:562-575 | an n-by-n diagonal matrix with l^2 (standard form) or b(D) (eikonal form) on the diagonal |
| RankineMatGrad.DdBN | src/sm/Materials/rankinematgrad.C:578-594 | empty in the standard form; otherwise each entry is b'(D) g'(kappa_hat) m times the nonlocal gradient entry |
| RankineMatGrad.NFactor | src/sm/Materials/rankinematgrad.C:627-640 | the N factor is kappa_nonlocal - kappa_local, and in the eikonal form b(D) times the factor is that difference |
| RankineMatGrad.BFactor | src/sm/Materials/rankinematgrad.C:643-652 | the B factor is the gradient scaled by l^2 or b(D) |
| RankineMatGrad.StandardFormulationHasNoCrossTerms | src/sm/Materials/rankinematgrad.C:441-444 | in the standard form, du_BB, dd_NN and dd_BN are all empty |
| RankineMatGrad.DdBBMatchesBFactor | src/sm/Materials/rankinematgrad.C:562-575 | dd_BB applied to a gradient of the right size is the B factor (lines 643-652) |
| RankineMatGrad.ElasticUnloadingDecouples | src/sm/Materials/rankinematgrad.C:189-206 | without damage growth or plastic loading, ud and du are zero, du_BB is empty and uu uses g' = 0 |
| RankineMatGrad.NonTangentDecouples | src/sm/Materials/rankinematgrad.C:189-528 | outside tangent mode, ud and du are zero and du_BB is empty, in plane stress and in 1D |
| RankineMatGrad.GiveIPValue | src/sm/Materials/rankinematgrad.C:708-722 | the cumulative plastic strain 2 is the temp nonlocal value; the maximum equivalent strain level is kappa_hat; other types go to the base class |
| SimplePlasticGradientDamage.InitializeFrom | src/sm/Materials/simpleplasticgradientdamagematerial.C:55-74 | kinematic hardening is switched off; m defaults to 1; the other parameters are kept |
| SimplePlasticGradientDamage.DrivingKappa | src/sm/Materials/simpleplasticgradientdamagematerial.C:101-103 | the damage-driving kappa is the nonlocal value when m = 1 and the local value when m = 0 |
| SimplePlasticGradientDamage.ComputeDamage | src/sm/Materials/simpleplasticgradientdamagematerial.C:88-110 | damage is at least the committed damage and at least g(kappa_hat), and equals one of them |
| SimplePlasticGradientDamage.DamageIsMonotone | src/sm/Materials/simpleplasticgradientdamagematerial.C:88-110 | over any sequence of committed evaluations, damage never decreases |
| SimplePlasticGradientDamage.DDamageDKappa | src/sm/Materials/simpleplasticgradientdamagematerial.C:114-134 | the damage derivative is 0 for kappa_hat <= 0, else g'(kappa_hat) |
| SimplePlasticGradientDamage.DamageAndDerivativeShareKappa | src/sm/Materials/simpleplasticgradientdamagematerial.C:88-134 | damage and its derivative are taken at the same kappa_hat, which is the nonlocal value when m = 1 |
| SimplePlasticGradientDamage.LocalDrivingVariable | src/sm/Materials/simpleplasticgradientdamagematerial.C:275-285 | the local variable is the hardening entry at the reduced size, or 0 when that size is 0 |
| SimplePlasticGradientDamage.NFactor | src/sm/Materials/simpleplasticgradientdamagematerial.C:260-263 | the N factor is the nonlocal driving variable |
| SimplePlasticGradientDamage.BFactor | src/sm/Materials/simpleplasticgradientdamagematerial.C:266-270 | the B factor is the gradient scaled by internalLength^2 |
| SimplePlasticGradientDamage.DdBB | src/sm/Materials/simpleplasticgradientdamagematerial.C:232-244 | dd_BB is the 1x1 matrix [l] |
| SimplePlasticGradientDamage.DdBBMatchesBFactorIff | src/sm/Materials/simpleplasticgradientdamagematerial.C:232-270 | dd_BB applied to a gradient equals the B factor iff l = internalLength^2 or the gradient is 0 |
| SimplePlasticGradientDamage.Ud | src/sm/Materials/simpleplasticgradientdamagematerial.C:194-228 | zero without damage growth; otherwise the stress over (1 - D) times g'(kappa_hat) m, one column |
| SimplePlasticGradientDamage.UdScalesNominalStress | src/sm/Materials/simpleplasticgradientdamagematerial.C:194-228 | (1 - D) times ud_i is g' m sigma_i, and ud vanishes when m = 0 |
| SimplePlasticGradientDamage.BaseStiffness | src/sm/Materials/simpleplasticgradientdamagematerial.C:170-174 | the consistent tangent for the closest-point return, the elasto-plastic tangent otherwise |
| SimplePlasticGradientDamage.UuValue | src/sm/Materials/simpleplasticgradientdamagematerial.C:163-185 | uu has the base tangent's shape, and is the base tangent when damage does not grow |
| SimplePlasticGradientDamage.DamagedUuEntries | src/sm/Materials/simpleplasticgradientdamagematerial.C:176-184 | with damage growth, every entry of uu is (1 - D) times the base entry minus (1 - m) times the correction entry, or without the correction when it is empty |
| SimplePlasticGradientDamage.UuValueEntries | src/sm/Materials/simpleplasticgradientdamagematerial.C:163-185 | uu is the base tangent without damage growth, otherwise (1 - D) times it minus (1 - m) times the correction (none when the correction is empty) |
| SimplePlasticGradientDamage.Uu | src/sm/Materials/simpleplasticgradientdamagematerial.C:163-185 | the array returned has the base tangent's shape and the entries of uu |
| SimplePlasticGradientDamage.DamageInPlace | src/sm/Materials/simpleplasticgradientdamagematerial.C:176-184 | each entry becomes factor times the base entry, minus the correction entry when there is one |
| SimplePlasticGradientDamage.SimplePlasticGradientDamageMaterialStatus.constructor | src/sm/Materials/simpleplasticgradientdamagematerial.C:288-291 | the nonlocal driving variable starts at 0 |
| SimplePlasticGradientDamage.EvaluateStress | src/sm/Materials/simpleplasticgradientdamagematerial.C:140-154 | stress, damage and hardening come from the plastic return, the nonlocal input is stored, and the local variable is the last hardening entry; the committed damage is untouched |
| SimplePlasticGradientDamage.GiveRealStressVectorGradientDamage | src/sm/Materials/simpleplasticgradientdamagematerial.C:140-154 | the status becomes the evaluated state, and the outputs are its stress and local variable |
| SimplePlasticGradientDamage.LocalDrivingVariableAfterEvaluation | src/sm/Materials/simpleplasticgradientdamagematerial.C:275-285 | after an evaluation, the internal-state query returns the stored local variable |
| GradientPolyconvex.TargetMetricIsSimpleShear | src/sm/Materials/Micromorphic/GradientPolyconvex/gradientpolyconvexmaterialold.C:842-870 | each target metric is G^T G for the simple shear G; it is symmetric; the two targets differ only in the (1,2)/(2,1) shear entries, which have opposite signs |
| GradientPolyconvex.TargetsDistance | src/sm/Materials/Micromorphic/GradientPolyconvex/gradientpolyconvexmaterialold.C:847-863 | the squared Frobenius distance between the two wells is 8 g^2 |
| GradientPolyconvex.DCdF | src/sm/Materials/Micromorphic/GradientPolyconvex/gradientpolyconvexmaterialold.C:822-837 | 9x9, with each entry the Kronecker-delta formula at the giveVI indices |
| GradientPolyconvex.DCdFSwapSymmetric | src/sm/Materials/Micromorphic/GradientPolyconvex/gradientpolyconvexmaterialold.C:822-837 | dC/dF is unchanged when the two indices of its row are swapped, because C is symmetric |
| GradientPolyconvex.ComputeDCdF | src/sm/Materials/Micromorphic/GradientPolyconvex/gradientpolyconvexmaterialold.C:822-837 | the four nested loops fill the array with DCdF |
| GradientPolyconvex.DCdFIsDerivativeOfC | src/sm/Materials/Micromorphic/GradientPolyconvex/gradientpolyconvexmaterialold.C:728-837 | C(F + hE) = C(F) + h (dC/dF : E) + h^2 C(E), so dC/dF is the exact derivative of C = F^T F |
| GradientPolyconvex.Cofactor | src/sm/Materials/Micromorphic/GradientPolyconvex/gradientpolyconvexmaterialold.C:703-708 | the cofactor has 9 components |
| GradientPolyconvex.CofactorIsScaledTransposedInverse | src/sm/Materials/Micromorphic/GradientPolyconvex/gradientpolyconvexmaterialold.C:704-708 | the cofactor is J F^-T |
| GradientPolyconvex.RelativeStress | src/sm/Materials/Micromorphic/GradientPolyconvex/gradientpolyconvexmaterialold.C:714-717 | s = -Hk (cof F - phi), component by component |
| GradientPolyconvex.HigherOrderStress | src/sm/Materials/Micromorphic/GradientPolyconvex/gradientpolyconvexmaterialold.C:718-720 | M = Ak grad phi, component by component |
| GradientPolyconvex.RelativeStressVanishesAtCofactor | src/sm/Materials/Micromorphic/GradientPolyconvex/gradientpolyconvexmaterialold.C:714-717 | for Hk != 0, the relative stress is zero iff phi is the cofactor |
| GradientPolyconvex.MinorSymmetries | src/sm/Materials/Micromorphic/GradientPolyconvex/gradientpolyconvexmaterialold.C:374-382 | the 2x2 minors of F^-1 used by dSigdPhi are pair-symmetric and antisymmetric in each index swap, and vanish on a repeated index |
| GradientPolyconvex.DSigDPhiMatrix | src/sm/Materials/Micromorphic/GradientPolyconvex/gradientpolyconvexmaterialold.C:359-383 | 9x9, with each entry -J Hk times the minor at the giveVI indices |
| GradientPolyconvex.MicroPartialAsStepSum | src/sm/Materials/Micromorphic/GradientPolyconvex/gradientpolyconvexmaterialold.C:761-769 | the loop's partial sum is minus the loop-ordered sum of its terms |
| GradientPolyconvex.MicroStress | src/sm/Materials/Micromorphic/GradientPolyconvex/gradientpolyconvexmaterialold.C:723-771 | the micromorphic part of P has 9 components, each the full loop sum at its giveVI index |
| GradientPolyconvex.DSigDPhiIsDerivativeOfMicroStress | src/sm/Materials/Micromorphic/GradientPolyconvex/gradientpolyconvexmaterialold.C:359-383 | the micromorphic stress at phi + delta minus that at phi is dSigdPhi times delta, so dSigdPhi is its exact derivative in phi |
| GradientPolyconvex.DSdPhi | src/sm/Materials/Micromorphic/GradientPolyconvex/gradientpolyconvexmaterialold.C:647-659 | Hk times the identity, 5x5 in plane strain and 9x9 otherwise |
| GradientPolyconvex.DMdPhiGrad | src/sm/Materials/Micromorphic/GradientPolyconvex/gradientpolyconvexmaterialold.C:663-674 | Ak times the identity, 10x10 in plane strain and 27x27 otherwise |
| GradientPolyconvex.DSdPhiIsDerivativeOfRelativeStress | src/sm/Materials/Micromorphic/GradientPolyconvex/gradientpolyconvexmaterialold.C:647-659 | s(phi + d) - s(phi) = dSdPhi d, so dSdPhi is the exact derivative of the relative stress |
| GradientPolyconvex.DMdPhiGradIsDerivativeOfHigherOrderStress | src/sm/Materials/Micromorphic/GradientPolyconvex/gradientpolyconvexmaterialold.C:663-674 | M(g + d) - M(g) = dMdPhiGrad d, so dMdPhiGrad is the exact derivative of M |
| GradientPolyconvex.RightCauchyGreen | src/sm/Materials/Micromorphic/GradientPolyconvex/gradientpolyconvexmaterialold.C:728 | C = F^T F is 3x3 |
| GradientPolyconvex.DoubleWellTermsAt | src/sm/Materials/Micromorphic/GradientPolyconvex/gradientpolyconvexmaterialold.C:728-753 | the intermediate terms of the double-well stress have the sizes the stress formula needs |
| GradientPolyconvex.DoubleWell | src/sm/Materials/Micromorphic/GradientPolyconvex/gradientpolyconvexmaterialold.C:749-758 | the combined double-well stress has 9 components |
| GradientPolyconvex.DoubleWellStress | src/sm/Materials/Micromorphic/GradientPolyconvex/gradientpolyconvexmaterialold.C:725-758 | the double-well part of P has 9 components |
| GradientPolyconvex.FirstPiolaStress | src/sm/Materials/Micromorphic/GradientPolyconvex/gradientpolyconvexmaterialold.C:756-771 | P has 9 components |
| GradientPolyconvex.DoubleWellVanishes | src/sm/Materials/Micromorphic/GradientPolyconvex/gradientpolyconvexmaterialold.C:749-758 | when the distance and derivative terms of either well are zero, the double-well stress is zero |
| GradientPolyconvex.FirstWellTerms | src/sm/Materials/Micromorphic/GradientPolyconvex/gradientpolyconvexmaterialold.C:735-753 | at C = tC1, the first well's distance and stress terms are zero |
| GradientPolyconvex.SecondWellTerms | src/sm/Materials/Micromorphic/GradientPolyconvex/gradientpolyconvexmaterialold.C:735-753 | at C = tC2, the second well's distance and stress terms are zero |
| GradientPolyconvex.DoubleWellStressVanishesAtWells | src/sm/Materials/Micromorphic/GradientPolyconvex/gradientpolyconvexmaterialold.C:725-758 | the double-well stress is zero whenever C equals either target metric |
| GradientPolyconvex.ShearIsWell | src/sm/Materials/Micromorphic/GradientPolyconvex/gradientpolyconvexmaterialold.C:847 | the right Cauchy-Green tensor of a simple shear by g is the target metric of g |
| GradientPolyconvex.ShearIsFirstWell | src/sm/Materials/Micromorphic/GradientPolyconvex/gradientpolyconvexmaterialold.C:725-758 | a simple shear by g carries no double-well stress when tC1 is the metric of g |
| GradientPolyconvex.ShearIsSecondWell | src/sm/Materials/Micromorphic/GradientPolyconvex/gradientpolyconvexmaterialold.C:725-758 | a simple shear by g carries no double-well stress when tC2 is the metric of g |
| GradientPolyconvex.DSigDUgradMatrix | src/sm/Materials/Micromorphic/GradientPolyconvex/gradientpolyconvexmaterialold.C:129-209 | 9x9, with each entry the double-well stiffness plus the micromorphic stiffness at the giveVI indices |
| GradientPolyconvex.DoubleWellStiffnessSymmetric | src/sm/Materials/Micromorphic/GradientPolyconvex/gradientpolyconvexmaterialold.C:129-135 | with symmetric B, D1 and D2, the double-well stiffness is major-symmetric |
| GradientPolyconvex.MicroStiffnessSymmetric | src/sm/Materials/Micromorphic/GradientPolyconvex/gradientpolyconvexmaterialold.C:192-209 | with zero relative stress, every partial sum of the micromorphic stiffness is major-symmetric |
| GradientPolyconvex.GramSymmetric | src/sm/Materials/Micromorphic/GradientPolyconvex/gradientpolyconvexmaterialold.C:87-91 | F F^T and F^T F are symmetric |
| GradientPolyconvex.DoubleWellTermsSymmetric | src/sm/Materials/Micromorphic/GradientPolyconvex/gradientpolyconvexmaterialold.C:87-117 | with symmetric targets, the B, D1 and D2 terms are symmetric |
| GradientPolyconvex.DSigDUgradSymmetric | src/sm/Materials/Micromorphic/GradientPolyconvex/gradientpolyconvexmaterialold.C:71-209 | with zero relative stress and symmetric B, D1 and D2, dSigdUgrad is a symmetric matrix |
| GradientPolyconvex.DSigDUgradSymmetricAtCofactor | src/sm/Materials/Micromorphic/GradientPolyconvex/gradientpolyconvexmaterialold.C:71-209 | at phi = cof F with symmetric targets, dSigdUgrad is symmetric |
| PolyconvexMaterial.GradientPolyconvexMaterialOldStatus.SetTempValues | src/sm/Materials/Micromorphic/GradientPolyconvex/gradientpolyconvexmaterialold.C:793-799 | the six temp vectors take the given values, and nothing committed changes |
| PolyconvexMaterial.GradientPolyconvexMaterialOldStatus.constructor | src/sm/Materials/Micromorphic/GradientPolyconvex/gradientpolyconvexmaterialold.C:974-987 | phi starts at the identity; s, M and grad phi start at zero; the temp copies equal the committed ones |
| PolyconvexMaterial.InitialMicromorphicVarIsUndeformedCofactor | src/sm/Materials/Micromorphic/GradientPolyconvex/gradientpolyconvexmaterialold.C:976-977 | the initial phi is the cofactor of the undeformed F = I, so the initial relative stress is zero |
| PolyconvexMaterial.ComputeDoubleWellTerms | src/sm/Materials/Micromorphic/GradientPolyconvex/gradientpolyconvexmaterialold.C:84-117 | the loops compute exactly the double-well terms of the stress formula (lines 728-753) |
| PolyconvexMaterial.FillDSigDUgrad | src/sm/Materials/Micromorphic/GradientPolyconvex/gradientpolyconvexmaterialold.C:129-209 | starting from zero, the double-well loop and the micromorphic loops fill the array with DSigDUgradMatrix |
| PolyconvexMaterial.AssembleDSigDUgrad | src/sm/Materials/Micromorphic/GradientPolyconvex/gradientpolyconvexmaterialold.C:71-209 | the assembled 9x9 array is the 3D tangent |
| PolyconvexMaterial.DSigDUgradTangent | src/sm/Materials/Micromorphic/GradientPolyconvex/gradientpolyconvexmaterialold.C:71-244 | the result is the 3D tangent, or its plane-strain 5x5 reduction |
| PolyconvexMaterial.EvaluateStresses | src/sm/Materials/Micromorphic/GradientPolyconvex/gradientpolyconvexmaterialold.C:695-771 | P, s and M are the first Piola, relative and higher-order stresses of the model |
| PolyconvexMaterial.ComputeDoubleWellStress | src/sm/Materials/Micromorphic/GradientPolyconvex/gradientpolyconvexmaterialold.C:725-758 | the method returns the double-well stress |
| PolyconvexMaterial.CombineWells | src/sm/Materials/Micromorphic/GradientPolyconvex/gradientpolyconvexmaterialold.C:749-758 | the loop combining the two wells returns the double-well stress of its terms |
| PolyconvexMaterial.AccumulateMicroComponent | src/sm/Materials/Micromorphic/GradientPolyconvex/gradientpolyconvexmaterialold.C:763-767 | one component of vPm becomes its full loop sum, and the other components are unchanged |
| PolyconvexMaterial.MicroStressLoops | src/sm/Materials/Micromorphic/GradientPolyconvex/gradientpolyconvexmaterialold.C:761-769 | the four loops compute the micromorphic stress |
| PolyconvexMaterial.MicroStressComponent | src/sm/Materials/Micromorphic/GradientPolyconvex/gradientpolyconvexmaterialold.C:761-769 | each outer step completes one more component, in loop order |
| PolyconvexMaterial.AddMicroStiffnessEntry | src/sm/Materials/Micromorphic/GradientPolyconvex/gradientpolyconvexmaterialold.C:196-206 | one entry gains its micromorphic stiffness, and the others are unchanged |
| PolyconvexMaterial.MicroStiffnessSum | src/sm/Materials/Micromorphic/GradientPolyconvex/gradientpolyconvexmaterialold.C:196-206 | the inner loops add the full micromorphic stiffness of one entry |
| PolyconvexMaterial.MicroStiffnessAsStepSum | src/sm/Materials/Micromorphic/GradientPolyconvex/gradientpolyconvexmaterialold.C:192-209 | the partial stiffness is the loop-ordered sum of its three terms |
| PolyconvexMaterial.AddMicroStiffness | src/sm/Materials/Micromorphic/GradientPolyconvex/gradientpolyconvexmaterialold.C:192-209 | every entry gains its micromorphic stiffness |
| PolyconvexMaterial.AddMicroStiffnessBlock | src/sm/Materials/Micromorphic/GradientPolyconvex/gradientpolyconvexmaterialold.C:194-209 | one (i, j) block of nine entries is added, in loop order |
| PolyconvexMaterial.AddMicroStiffnessComponent | src/sm/Materials/Micromorphic/GradientPolyconvex/gradientpolyconvexmaterialold.C:196-206 | one more entry is added, in loop order |
| PolyconvexMaterial.FillMinors | src/sm/Materials/Micromorphic/GradientPolyconvex/gradientpolyconvexmaterialold.C:374-382 | each entry becomes the F^-1 minor at its giveVI indices |
| PolyconvexMaterial.FillDSigDPhi | src/sm/Materials/Micromorphic/GradientPolyconvex/gradientpolyconvexmaterialold.C:374-383 | the array becomes DSigDPhiMatrix |
| PolyconvexMaterial.RelativeStressLayout | src/sm/Materials/Micromorphic/GradientPolyconvex/gradientpolyconvexmaterialold.C:915-921 | the relative-stress output has 9 components |
| PolyconvexMaterial.HigherOrderLayout | src/sm/Materials/Micromorphic/GradientPolyconvex/gradientpolyconvexmaterialold.C:925-936 | the higher-order output has 9 components |
| PolyconvexMaterial.LayoutsAsTensors | src/sm/Materials/Micromorphic/GradientPolyconvex/gradientpolyconvexmaterialold.C:915-936 | the relative-stress output is the antisymmetric in-plane tensor of s[0]; the higher-order output holds v[0] and v[1] at (1,2) and (2,1), and zero elsewhere |
| PolyconvexMaterial.WellDistances | src/sm/Materials/Micromorphic/GradientPolyconvex/gradientpolyconvexmaterialold.C:938-950 | both squared distances to the wells are non-negative |
| PolyconvexMaterial.EquivalentStrainLevelAsWritten | src/sm/Materials/Micromorphic/GradientPolyconvex/gradientpolyconvexmaterialold.C:937-956 | the as-written ratio n1 / (n1 + n2), or an empty array when both distances are 0 |
| PolyconvexMaterial.EquivalentStrainLevel | src/sm/Materials/Micromorphic/GradientPolyconvex/gradientpolyconvexmaterialold.C:937-956 | a single value in [0, 1] |
| PolyconvexMaterial.EquivalentStrainLevelAsWrittenIsEmptyAtIdentity | src/sm/Materials/Micromorphic/GradientPolyconvex/gradientpolyconvexmaterialold.C:952-953 | at F = I with eps = 0, the as-written result is empty and the corrected one is [0] |
| PolyconvexMaterial.EquivalentStrainLevelReadingsAgree | src/sm/Materials/Micromorphic/GradientPolyconvex/gradientpolyconvexmaterialold.C:951-956 | away from the doubly-zero case, the as-written and corrected readings agree |
| PolyconvexMaterial.EquivalentStrainLevelAtFirstWell | src/sm/Materials/Micromorphic/GradientPolyconvex/gradientpolyconvexmaterialold.C:937-956 | a simple shear onto the first well gives level 0 |
| PolyconvexMaterial.EquivalentStrainLevelAtSecondWell | src/sm/Materials/Micromorphic/GradientPolyconvex/gradientpolyconvexmaterialold.C:937-956 | for g != 0, a simple shear onto the second well gives level 1 |
| PolyconvexMaterial.GradientPolyconvexMaterialOld.constructor | src/sm/Materials/Micromorphic/GradientPolyconvex/gradientpolyconvexmaterialold.C:47-52 | Hk = Ak = 0, alpha = 1000, gamma = 1e-5, and no targets yet |
| PolyconvexMaterial.GradientPolyconvexMaterialOld.InitializeFrom | src/sm/Materials/Micromorphic/GradientPolyconvex/gradientpolyconvexmaterialold.C:873-901 | Hk, Ak and eps are required, in that order; the first missing one ends the read with its own error, after the fields before it are set; alpha keeps its value unless given; gamma becomes 1 unless given; on success the targets become the metrics of the shears by +-eps |
| PolyconvexMaterial.GradientPolyconvexMaterialOld.GiveTC1 | src/sm/Materials/Micromorphic/GradientPolyconvex/gradientpolyconvexmaterialold.C:841-855 | tC1 is stored and returned as the metric of a shear by (t + 1) eps |
| PolyconvexMaterial.GradientPolyconvexMaterialOld.GiveTC2 | src/sm/Materials/Micromorphic/GradientPolyconvex/gradientpolyconvexmaterialold.C:857-870 | tC2 is stored and returned as the metric of a shear by -(t + 1) eps |
| PolyconvexMaterial.GradientPolyconvexMaterialOld.UpdateTargets | src/sm/Materials/Micromorphic/GradientPolyconvex/gradientpolyconvexmaterialold.C:97-98 | the stored targets are those of time t |
| PolyconvexMaterial.GradientPolyconvexMaterialOld.DSigDPhi | src/sm/Materials/Micromorphic/GradientPolyconvex/gradientpolyconvexmaterialold.C:359-553 | the result is DSigDPhiMatrix at the temp F, or its plane-strain reduction |
| PolyconvexMaterial.GradientPolyconvexMaterialOld.DSdUgrad | src/sm/Materials/Micromorphic/GradientPolyconvex/gradientpolyconvexmaterialold.C:557-642 | the same matrix as dSigdPhi, because the F^-1 column is overwritten by the loops |
| PolyconvexMaterial.GradientPolyconvexMaterialOld.DSigDUgrad | src/sm/Materials/Micromorphic/GradientPolyconvex/gradientpolyconvexmaterialold.C:71-356 | stores the targets of time t and returns the 3D tangent at the temp F and phi, or its plane-strain reduction |
| PolyconvexMaterial.GradientPolyconvexMaterialOld.DSigDUgradAtTargets | src/sm/Materials/Micromorphic/GradientPolyconvex/gradientpolyconvexmaterialold.C:71-244 | the tangent for the stored targets |
| PolyconvexMaterial.GradientPolyconvexMaterialOld.GiveFiniteStrainGeneralizedStressVectors3d | src/sm/Materials/Micromorphic/GradientPolyconvex/gradientpolyconvexmaterialold.C:695-801 | stores the targets of time t; the status holds F, phi, grad phi and the three stresses of the model; the outputs are those stresses; nothing committed changes |
| PolyconvexMaterial.GradientPolyconvexMaterialOld.StressesAtTargets | src/sm/Materials/Micromorphic/GradientPolyconvex/gradientpolyconvexmaterialold.C:695-801 | the same, for the stored targets |
| PolyconvexMaterial.GradientPolyconvexMaterialOld.GiveFiniteStrainGeneralizedStressVectorsPlaneStrain | src/sm/Materials/Micromorphic/GradientPolyconvex/gradientpolyconvexmaterialold.C:807-818 | the 3D evaluation on the full forms of the inputs, with reduced outputs |
| PolyconvexMaterial.GradientPolyconvexMaterialOld.GiveFiniteStrainGeneralizedStressVectors | src/sm/Materials/Micromorphic/GradientPolyconvex/gradientpolyconvexmaterialold.C:679-690 | dispatches 3D and plane strain; any other mode is an error that changes nothing |
| PolyconvexMaterial.GradientPolyconvexMaterialOld.GiveIPValue | src/sm/Materials/Micromorphic/GradientPolyconvex/gradientpolyconvexmaterialold.C:904-971 | each micromorphic internal-state type returns its layout; the equivalent strain level stores the targets of time t and returns the corrected level; other types go to the base class |

## Left out

- External collaborators are parameters: the base Rankine plasticity return,
  RankineMat::computeDamage, the damage law and its derivative, the plastic
  modulus, the principal-stress rotation, the base stiffness matrices,
  `sqrt`, matrix inverse and determinant, and the vector-form conversions.
  The base material classes are not part of this model. The base
  RankineMatStatus temp/committed lifecycle is assumed to behave as
  InitTemp and Commit state it: a reset copies the committed strain, stress,
  effective stress, kappa and damage into the temp copies, and a commit
  copies them back.
- Division by zero produces inf/NaN in C++. The model requires the
  denominators the source divides by to be nonzero. These are `E + H0`,
  `H + E*`, `1 - nu^2`, the vertex denominator, `sqrt(1 - D)` in the eikonal
  length derivative (so D != 1; rankinematgrad.C:750 and 759), `1 - D` in the
  simple plastic ud, and an invertible F for the polyconvex material.
- RankineMatGrad.ReevaluationRestoresState: the finite-difference cross-checks
  in the 1D blocks (rankinematgrad.C:164-177, 257-269, 414-427) compute a
  difference `A` whose only use is a dead branch, so the result is discarded.
  They then re-evaluate at the stored strain resized to one component. The
  lemma re-evaluates at the stored temp strain as it is, which is the same
  input only when that strain has exactly one component, as it does in 1D.
  The discarded difference is left out.
- RankineMatGrad.DuOneD: no value is stated for the eikonal branch beyond its
  1x1 shape.
- RankineMatGrad.DdNN: no value is stated for the tangent, plastically-loading
  eikonal branch beyond its 1x1 shape.
- RankineMatGrad.GivePlaneStressStiffMtrx: the matrix with damage growth is
  stated only through the g' it passes on (PlaneStressGPrime), because the
  base plane-stress tangent is external.
- RankineMatGrad.RegularEta, RankineMatGrad.VertexEta, RankineMatGrad.Eta,
  RankineMatGrad.GlobalEta: only shapes and the zero third component are
  stated; the formulas are related by VertexMatchesRegular.
- The dissipated-energy update in the Rankine stress evaluator
  (rankinematgrad.C:681-691) is left out: it is floating-point bookkeeping
  that no block reads.
- The Rankine giveStiffnessMatrix and the polyconvex giveStiffnessMatrix only
  raise fatal errors, and are left out. The same goes for printOutputAt,
  destructors, giveInterface and CreateStatus.
- The warning for an unknown formulation in the Rankine blocks is left out.
  It cannot be reached once initializeFrom has rejected unknown codes.
- SimplePlasticGradientDamage.Uu: the base tangent must have at least one
  row (UuShapes), although the source also accepts an empty one.
- SimplePlasticGradientDamage: the du block (simpleplasticgradientdamagematerial.C:188-191)
  only forwards to the base class's dLambda/dEps matrix, which is not part of
  this model.
- The polyconvex debug matrices (answer1 to answer6, CFCF, lines 157-182), the
  commented-out gamma and J penalty terms, and the unused `vInvFt` (711-712)
  are left out.
- `gamma` is parsed but not used by any computation.
- The polyconvex double well uses Frobenius norms only squared, so the model
  keeps the squared norm and never takes a square root.
- `eps` is not set by the polyconvex constructor. The model starts it at 0.
- The polyconvex loops that accumulate `answer.at(...) += ...` keep the sum in
  a local and write it back once. The value is the same, but the model does
  not capture the intermediate array writes.
- Plane-strain reduction of the 9x9 tangents is modelled once
  (`TensorIndex.ReduceForMode`), and every tangent calls it. The source
  repeats the same index map in each function.

## Findings

| source | as written | input that shows it | evidently intended | confidence | as-written member | corrected member |
|---|---|---|---|---|---|---|
| src/sm/Materials/Micromorphic/GradientPolyconvex/gradientpolyconvexmaterialold.C:953 | when both squared distances to the wells are zero, `answer = 0` assigns to a FloatArray, which makes it an empty array | F = I with eps = 0: both targets are I, so both distances are 0 | an array of size 1 holding 0, like the other branch | medium, not executed | PolyconvexMaterial.EquivalentStrainLevelAsWritten (shown by PolyconvexMaterial.EquivalentStrainLevelAsWrittenIsEmptyAtIdentity) | PolyconvexMaterial.EquivalentStrainLevel |
