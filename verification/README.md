# VelCrys group-velocity engine in Dafny

VelCrys computes the group velocity of acoustic waves in anisotropic
crystals, optionally corrected for the magnetoelastic coupling of a
magnetised cubic or hexagonal crystal. This project models its algebraic
engine in `velcrys.py` over Dafny's `real`. The deviations are listed under
"Left out":

- `Christoffel` (`christoffel.dfy`): the Christoffel matrix g(n) built from
  the 21 density-normalised stiffness coefficients a_ij and a direction n;
  the coefficients B, C, D of its characteristic cubic; and their
  derivatives with respect to n.
- `ComplexArith` (`complex.dfy`) and `CubicSolver` (`cubic_solver.dfy`):
  `unaryCubicEquation`, the closed-form Cardano solver, as an imperative
  method. Complex numbers are pairs of reals, and the complex square and
  cube roots are parameters.
- `GroupVelocity` (`group_velocity.dfy`): `vel`. It classifies the roots by
  degeneracy (nRoot, with EPS = 1e-7) and chooses the velocity formula by
  class and mode. Each formula is proved to satisfy
  v·2pv·F^(m)(λ) = −∂F^(m−1)/∂n at the root λ it chooses. That is the
  implicit-function relation; the calculus step from it to the derivative
  of pv is not modelled.
- `Stiffness` (`stiffness.dfy`): a_ij = C_ij·10^9/ρ and the symmetric fill
  of cubic and hexagonal crystals. The magnetoelastic correction is added
  in the two unit conventions the callbacks use: GPa in the single-point
  callbacks, Pa in the grid callbacks.
- `MagneticSusceptibility` (`susceptibility.dfy`) and `Magnetoelastic`
  (`magnetoelastic.dfy`): the static susceptibility χ at the equilibrium
  magnetisation, and the corrections ΔC_ij of cubic and hexagonal crystals.
- `GridSweep` (`grid.dfy`): the nested loops of `update_tric3d`,
  `update_cf` and `update_hf`. They fill n×n arrays with the velocity
  components, the speed and the fractional change of the speed.

These are inputs (parameters). The constraints each carries are listed with it:

- the complex square root and cube root of `UnaryCubicEquation`: required
  to satisfy `u*u == x` and `u^3 == z` (`IsComplexSqrt`, `IsCubeRoot`);
- the real square root of the grid sweeps: required to give a non-negative
  root on the non-negative reals (`GridSweep.IsSqrt`);
- the spectrum solver that gives the roots λ and phase velocities pv in
  each direction. The sweeps require it to give, for every direction, the
  three roots of the characteristic cubic of that direction's Christoffel
  matrix, counted with multiplicity (Vieta's formulas), with pv_k ≥ 0 and
  pv_k² = λ_k (`GroupVelocity.IsSpectrum`). `GroupVelocity.Vel` on its own
  takes any spectrum; its contract speaks of the λ and pv it is given;
- the equilibrium angles of the magnetisation, as sines and cosines with
  sin² + cos² = 1 where a lemma needs it (`OnCircle`);
- the energy curvatures E_tt and E_pp, nonzero;
- the grid of propagation directions, unconstrained.

## Model

| member | source | states |
|---|---|---|
| ComplexArith.Div | velcrys.py:1462 | the quotient -Q/u multiplies back: q·w == z whenever w ≠ 0 |
| CubicSolver.UnaryCubicEquation | velcrys.py:1446-1472 | returns three values whose sum is -B (Vieta). The kept cube u³ is one of the two radicands P ± √(P²+Q³), and its modulus is at least that of either. Above the 1e-15 cut-off u·v == -Q, below it v == 0. Above the cut-off every returned value is a root of x³+Bx²+Cx+D, their pairwise products sum to C and their product is -D: with the sum -B, Vieta's formulas, so the three values are the cubic's three roots counted with multiplicity |
| CubicSolver.OmegaIsCubeRootOfUnity | velcrys.py:1448-1449 | w = complex(-0.5, √0.75) satisfies w³ = 1, 1 + w + w² = 0 and (w²)³ = 1 |
| CubicSolver.SqrtOfThreeQuartersIsReal | velcrys.py:1448 | every complex square root of 0.75 is real, so w really is -1/2 + i·√3/2 up to sign |
| CubicSolver.Depress | velcrys.py:1452-1453 | substituting x = -B/3 + y turns x³+Bx²+Cx+D into y³ + 3Qy - 2P, with the solver's P and Q |
| CubicSolver.CardanoIdentity | velcrys.py:1462-1466 | if u·v = -Q and u³+v³ = 2P, then u+v is a root of the depressed cubic |
| CubicSolver.RotatePair | velcrys.py:1468-1470 | rotating u by w and v by w² keeps the product u·v and both cubes |
| CubicSolver.RootsSum | velcrys.py:1465-1470 | the three returned values sum to -B for any u and v, since 1 + w + w² = 0 |
| CubicSolver.ConjugateRadicands | velcrys.py:1454-1456 | the two radicands P ± √(P²+Q³) multiply to -Q³ |
| CubicSolver.CardanoTermsAreExact | velcrys.py:1454-1462 | with u³ either radicand and v = -Q/u, v³ is the other radicand, so u³ + v³ = 2P |
| CubicSolver.RootsAreExact | velcrys.py:1465-1470 | under the Cardano conditions all three of res[0], res[1], res[2] are roots of the cubic |
| CubicSolver.CardanoRoots | velcrys.py:1461-1470 | under the Cardano conditions (u·v = -Q, u³ + v³ = 2P) res[0], res[1], res[2] are the roots with multiplicity: each is a root, their pairwise products sum to C and their product is -D |
| CubicSolver.CardanoVieta | velcrys.py:1465-1470 | with u·v = -Q and u³ + v³ = 2P, the values -B/3 + u + v, -B/3 + uw + vw², -B/3 + uw² + vw have pairwise-product sum C and product -D |
| CubicSolver.CardanoSumZero | velcrys.py:1466-1470 | before the shift by -B/3, the three combinations u + v, uw + vw², uw² + vw sum to 0 |
| CubicSolver.CardanoPairSum | velcrys.py:1466-1470 | their pairwise products sum to -3uv |
| CubicSolver.CardanoProduct | velcrys.py:1466-1470 | their product is u³ + v³ |
| CubicSolver.ShiftedPairSum | velcrys.py:1465-1470 | shifting three values that sum to 0 by c (here -B/3) adds 3c² to their pairwise-product sum |
| CubicSolver.ShiftedProduct | velcrys.py:1465-1470 | the same shift turns their product into c³ + c·(pairwise-product sum) + product |
| CubicSolver.VietaCoefficients | velcrys.py:1452-1453 | the solver's P and Q give back C = 3(B/3)² + 3Q and -D = (-B/3)³ + (-B/3)·3Q + 2P |
| Christoffel.G11 | velcrys.py:1347 | g11 as written; G11IsQuadratic gives its partner |
| Christoffel.G12 | velcrys.py:1348 | g12 as written; G12IsQuadratic |
| Christoffel.G13 | velcrys.py:1349 | g13 as written; G13IsQuadratic |
| Christoffel.G22 | velcrys.py:1350 | g22 as written; G22IsQuadratic |
| Christoffel.G23 | velcrys.py:1351 | g23 as written; G23IsQuadratic |
| Christoffel.G33 | velcrys.py:1352 | g33 as written; G33IsQuadratic |
| Christoffel.TraceCoeff | velcrys.py:1354 | bb = -(g11 + g22 + g33); CharacteristicPolynomial gives its meaning |
| Christoffel.MinorCoeff | velcrys.py:1355 | cc, the sum of the principal 2×2 minors; CharacteristicPolynomial |
| Christoffel.DetCoeff | velcrys.py:1356 | dd as written; DetCoeffIsMinusDet and CharacteristicPolynomial |
| Christoffel.G11IsQuadratic | velcrys.py:1347 | g11 is the quadratic form of n with coefficients (a11, 2a16, 2a15, a66, 2a56, a55) |
| Christoffel.G12IsQuadratic | velcrys.py:1348 | g12 is a quadratic form of n |
| Christoffel.G13IsQuadratic | velcrys.py:1349 | g13 is a quadratic form of n |
| Christoffel.G22IsQuadratic | velcrys.py:1350 | g22 is a quadratic form of n |
| Christoffel.G23IsQuadratic | velcrys.py:1351 | g23 is a quadratic form of n |
| Christoffel.G33IsQuadratic | velcrys.py:1352 | g33 is a quadratic form of n |
| Christoffel.QuadCentralDifference | velcrys.py:1347-1352 | a quadratic form changes from n-m to n+m by exactly twice its derivative at n along m |
| Christoffel.QuadLinear | velcrys.py:1347-1352 | the change of a quadratic form between two points, monomial by monomial |
| Christoffel.MatrixCentralDifference | velcrys.py:1347-1352 | g(n+m) - g(n-m) = 2·dg(n; m): the matrix derivative is exact |
| Christoffel.DetCoeffIsMinusDet | velcrys.py:1356-1361 | dd is minus the determinant detg of the commented cofactor expansion |
| Christoffel.CharacteristicPolynomial | velcrys.py:1354-1356 | for every λ, det(λI - g) = λ³ + bb·λ² + cc·λ + dd: bb is minus the trace, cc the sum of the principal minors, dd minus the determinant |
| Christoffel.TraceCoeffCentralDifference | velcrys.py:1354 | B changes along dg by exactly twice its derivative |
| Christoffel.MinorCoeffCentralDifference | velcrys.py:1355 | C(g+dg) - C(g-dg) = 2·C'(g; dg): the product-rule derivative of cc is exact |
| Christoffel.DetCoeffCentralDifference | velcrys.py:1356 | D(g+dg) - D(g-dg) = 2·D'(g; dg) + 2·D(dg): the derivative of dd up to the cubic remainder |
| Christoffel.DbDn1 | velcrys.py:1365 | dbdn1 as written; DbDnIsChainRule |
| Christoffel.DbDn2 | velcrys.py:1366 | dbdn2 as written; DbDnIsChainRule |
| Christoffel.DbDn3 | velcrys.py:1367 | dbdn3 as written; DbDnIsChainRule |
| Christoffel.DcDn | velcrys.py:1370-1374 | dcdn along m, as the product rule MinorCoeffDeriv of the Christoffel matrix and its derivative; DcDnExpansions ties it to the written-out expansions |
| Christoffel.DdDn | velcrys.py:1376-1380 | dddn along m, as the product rule DetCoeffDeriv; DdDnExpansions ties it to the written-out expansions |
| Christoffel.DcDnExpansions | velcrys.py:1370-1374 | dcdn1, dcdn2 and dcdn3, with each parenthesised factor named by the Christoffel entry (or derivative entry, with its factor 2) it equals, are each MinorCoeffDeriv(g, dg): the product rule term by term |
| Christoffel.DdDnExpansions | velcrys.py:1376-1380 | dddn1, dddn2 and dddn3, read the same way, are each DetCoeffDeriv(g, dg) |
| Christoffel.DbDnIsChainRule | velcrys.py:1365-1367 | the written-out dbdn1, dbdn2 and dbdn3 are the chain-rule derivatives of bb along the axes |
| Christoffel.DbDnCentralDifference | velcrys.py:1354-1367 | B(n+m) - B(n-m) = 2·dbdn(n; m) for every direction n and step m |
| Christoffel.QuadDerivAlongAxes | velcrys.py:1347-1352 | the derivative of a quadratic form along h·e_l is h times its derivative along e_l |
| Christoffel.DbDnAlongAxes | velcrys.py:1365-1367 | the derivative of bb along h·e_l is h times the written-out dbdn_l, for l = 1, 2, 3 |
| Christoffel.DbDnAxisCentralDifference | velcrys.py:1354-1367 | B(n + h·e_l) - B(n - h·e_l) = 2h·dbdn_l for l = 1, 2, 3, with dbdn1, dbdn2, dbdn3 as written |
| GroupVelocity.VietaRoots | velcrys.py:1383-1387 | three values whose sum, pairwise-product sum and product are -B, C and -D are each a root of F(λ) = λ³ + Bλ² + Cλ + D |
| GroupVelocity.SolverRootsAreSpectrum | velcrys.py:1383-1387 | values with the sum, pairwise-product sum and product that UnaryCubicEquation returns above its cut-off for g's bb, cc, dd, when real and paired with their non-negative square roots pv = √λ, form a spectrum of g (IsSpectrum) |
| GroupVelocity.RealRootsOf | velcrys.py:1383-1386 | real values whose complex sum, pairwise-product sum and product are -b, c and -d satisfy Vieta's formulas over the reals |
| GroupVelocity.SpectrumRootsAreEigenvalues | velcrys.py:1383-1387 | every λ of a spectrum of g (IsSpectrum: the roots of g's cubic with pv² = λ, pv ≥ 0) is an eigenvalue of g: det(λI - g) = 0 |
| GroupVelocity.Abs | velcrys.py:1390-1392 | np.abs: non-negative and equal to x or -x |
| GroupVelocity.Classify | velcrys.py:1388-1395 | nRoot as written: compare pv1 with pv2 first, and pv0 with pv2 only when those are close; ClassifyCases |
| GroupVelocity.ClassifyCases | velcrys.py:1388-1395 | nRoot = 1 iff both \|pv1-pv2\| and \|pv0-pv2\| are below EPS; nRoot = 2 iff only the first is; nRoot = 3 iff \|pv1-pv2\| ≥ EPS, whatever pv0 is |
| GroupVelocity.TripleIsClose | velcrys.py:1390-1393 | a triple root has pv0 and pv1 within 2·EPS of each other |
| GroupVelocity.BranchOf | velcrys.py:1397-1437 | the root and derivative order used per class and mode: three simple roots use F'; a triple root uses root 0 and F''' for every mode |
| GroupVelocity.Quotient | velcrys.py:1399-1437 | no value iff the denominator is zero; otherwise value·den == -num |
| GroupVelocity.CubicDerivCentralDifference | velcrys.py:1404-1423 | F(λ+h) - F(λ-h) = 2h·F'(λ) + 2h³, and F' and F'' change by exactly 2h times the next derivative: 3λ²+2Bλ+C, 6λ+2B and 6 are the derivatives of the cubic in λ |
| GroupVelocity.CoeffDerivIsChange | velcrys.py:1408-1437 | the numerators c4·dB + c2·dC + dD and 2c2·dB + dC are the change of F and F' when B, C, D move by dB, dC, dD |
| GroupVelocity.Vel | velcrys.py:1345-1444 | no value iff the chosen denominator 2·pv·F^(m)(λ) is zero; otherwise v_l·2·pv·F^(m)(λ) = -∂F^(m-1)/∂n_l at λ, for the root and order chosen by degeneracy and mode (the implicit-function relation) |
| GroupVelocity.SimpleRoot | velcrys.py:1404-1437 | the simple-root formula solves v·2pv·F'(λ) = -(λ²dB + λdC + dD), or has no value when the denominator is zero |
| GroupVelocity.DoubleRoot | velcrys.py:1405-1420 | the double-root formula solves v·2pv·F''(λ) = -(2λdB + dC), or has no value when the denominator is zero |
| GroupVelocity.TripleRootSharedVelocity | velcrys.py:1397-1401 | at a triple root every mode has the same velocity, -dbdn/(6·pv0) when pv0 ≠ 0 |
| GroupVelocity.DoubleRootSharedVelocity | velcrys.py:1387-1420 | an exact double eigenvalue λ1 = λ2 whose pv's are non-negative square roots has pv1 = pv2, so it is never classed as three distinct roots, and sol_2 and sol_3 get the same velocity |
| GroupVelocity.SquareRootUnique | velcrys.py:1387 | the non-negative square root is unique: pv = √λ is determined by λ |
| Stiffness.Normalised | velcrys.py:1173-1193 | a_ij = C_ij·10^9/ρ entry by entry; NormalisedRoundTrip and NormalisedAdd |
| Stiffness.CubicStiffness | velcrys.py:808-828 | the symmetric fill of a cubic crystal from c11, c12, c44; CubicSymmetry |
| Stiffness.HexStiffness | velcrys.py:1042-1062 | the symmetric fill of a hexagonal crystal from c11, c12, c13, c33, c44, with c66 = (c11 - c12)/2; HexSymmetry |
| Stiffness.CorrectedGPa | velcrys.py:786-806 | a_ij = C_ij·10^9/ρ + ΔC_ij·10^9/ρ with ΔC in GPa; UnitPathsAgree |
| Stiffness.CorrectedPa | velcrys.py:1563-1583 | a_ij = C_ij·10^9/ρ + ΔC_ij/ρ with ΔC in Pa; UnitPathsAgree and ZeroCorrection |
| Stiffness.NormalisedRoundTrip | velcrys.py:1173-1193 | a_ij = C_ij·10^9/ρ is undone by multiplying by ρ/10^9 |
| Stiffness.NormalisedAdd | velcrys.py:786-806 | normalising a sum of stiffnesses is the sum of the normalised ones |
| Stiffness.CubicSymmetry | velcrys.py:808-828 | zero-field cubic a0: a22 = a33 = a11, a13 = a23 = a12, a55 = a66 = a44, the other 12 entries zero |
| Stiffness.HexSymmetry | velcrys.py:1042-1062 | zero-field hexagonal a0: a22 = a11, a23 = a13, a55 = a44, a66 = (a11 - a12)/2, the other 12 entries zero |
| Stiffness.UnitPathsAgree | velcrys.py:764-806 | a correction in GPa (ΔC·10^-9) added as ΔC·10^9/ρ equals the same correction in Pa added as ΔC/ρ, as the grid callbacks add it (lines 1536 and 1563-1583) |
| Stiffness.ZeroCorrection | velcrys.py:1563-1605 | with ΔC = 0 both unit paths (also lines 786-828) give exactly the zero-field a0 |
| MagneticSusceptibility.ChiZZ | velcrys.py:752 | chizz as written; ZZIsOuter |
| MagneticSusceptibility.ChiYZ | velcrys.py:753 | chiyz as written; YZIsOuter |
| MagneticSusceptibility.ChiXZ | velcrys.py:754 | chixz as written; XZIsOuter |
| MagneticSusceptibility.ChiYY | velcrys.py:755 | chiyy as written; DiagonalIsOuter |
| MagneticSusceptibility.ChiXX | velcrys.py:756 | chixx as written; DiagonalIsOuter |
| MagneticSusceptibility.ChiXYAsWritten | velcrys.py:757 | chixy as written, with its leading minus; AsWrittenDiffersInXY |
| MagneticSusceptibility.ChiXY | velcrys.py:757 | chixy with the sign the other five entries imply; XYIsOuter |
| MagneticSusceptibility.SusceptibilityAsWritten | velcrys.py:752-757 | the tensor the callbacks use (also lines 985-990, 1524-1529, 1751-1756); AsWrittenNotTransverse |
| MagneticSusceptibility.Susceptibility | velcrys.py:752-757 | the corrected tensor; SusceptibilityIsTransverse |
| MagneticSusceptibility.AsWrittenAgreesOnAxes | velcrys.py:757 | where sin φ·cos φ = 0 the tensor as written is the corrected one |
| MagneticSusceptibility.AsWrittenDiffersInXY | velcrys.py:752-757 | the tensor as written and the corrected one agree in every entry except χxy, where their signs are opposite |
| MagneticSusceptibility.SusceptibilityIsOuterForm | velcrys.py:752-757 | the corrected χ is ms²(e_θ e_θᵀ/E_tt + e_φ e_φᵀ/E_pp) |
| MagneticSusceptibility.DiagonalIsOuter | velcrys.py:755-756 | χxx and χyy are the diagonal of that outer-product form |
| MagneticSusceptibility.XYIsOuter | velcrys.py:757 | χxy with the corrected sign is the xy entry of the outer-product form |
| MagneticSusceptibility.XZIsOuter | velcrys.py:754 | χxz is the xz entry of the outer-product form |
| MagneticSusceptibility.YZIsOuter | velcrys.py:753 | χyz is the yz entry of the outer-product form |
| MagneticSusceptibility.ZZIsOuter | velcrys.py:752 | χzz is the zz entry of the outer-product form |
| MagneticSusceptibility.OuterFormIsTransverse | velcrys.py:752-762 | every such outer-product form annihilates the magnetisation direction (ax, ay, az) |
| MagneticSusceptibility.SusceptibilityIsTransverse | velcrys.py:752-762 | the corrected χ maps the magnetisation direction to zero: the susceptibility is transverse |
| MagneticSusceptibility.AsWrittenDeviation | velcrys.py:757 | applied to any vector, χ as written differs from the transverse χ by 2χxy times the swapped component |
| MagneticSusceptibility.AsWrittenNotTransverse | velcrys.py:752-762 | at θ = 90°, (sin φ, cos φ) = (3/5, 4/5), ms = E_tt = E_pp = 1, χ as written maps the magnetisation to a vector with x component 72/125 |
| Magnetoelastic.CubicCorrection | velcrys.py:764-784 | dc11 ... dc66 of a cubic crystal in Pa (the 10^-9 of the single-point callback is applied by CubicPointCoefficients); CubicCorrectionUncoupled and the Cubic*Entries lemmas |
| Magnetoelastic.CubicCorrectionUncoupled | velcrys.py:764-784 | every cubic ΔC_ij is 0 when b1 = b2 = 0 |
| Magnetoelastic.CubicLongitudinalEntries | velcrys.py:764-772 | ΔC11, ΔC12, ΔC13, ΔC22, ΔC23, ΔC33 depend on b only through b1²: they do not change with b2 or with the sign of b1 |
| Magnetoelastic.CubicShearEntries | velcrys.py:768-784 | ΔC44, ΔC55, ΔC66, ΔC45, ΔC46, ΔC56 depend on b only through b2² |
| Magnetoelastic.CubicMixedEntries | velcrys.py:773-781 | the other nine entries depend on b only through the product b1·b2 |
| Magnetoelastic.HexCorrection | velcrys.py:997-1017 | dc11 ... dc66 of a hexagonal crystal in Pa; HexCorrectionUncoupled and the HexC* lemmas |
| Magnetoelastic.HexCorrectionUncoupled | velcrys.py:997-1017 | all 21 hexagonal ΔC_ij are 0 when b21 = b22 = b3 = b4 = 0 |
| Magnetoelastic.HexC33OnlyB22 | velcrys.py:999 | ΔC33 depends only on b22², not on b21, b3 or b4 |
| Magnetoelastic.HexC66OnlyB3 | velcrys.py:1002 | ΔC66 depends only on b3², not on b21, b22 or b4 |
| Magnetoelastic.HexC11MirrorsC22 | velcrys.py:997-998 | ΔC11 and ΔC22 differ only in the sign of the 2·b21·b3 cross term: reversing b21 turns one into the other |
| Magnetoelastic.CubicDelta | velcrys.py:752-784 | the cubic correction as the callbacks compute it, with the susceptibility as written (also lines 1524-1556) |
| Magnetoelastic.HexDelta | velcrys.py:985-1017 | the hexagonal correction with the susceptibility as written (also lines 1751-1783) |
| Magnetoelastic.IntendedCubicDelta | velcrys.py:752-784 | the cubic correction with the corrected, transverse susceptibility |
| Magnetoelastic.IntendedHexDelta | velcrys.py:985-1017 | the hexagonal correction with the corrected susceptibility |
| Magnetoelastic.CubicDeltaOnAxes | velcrys.py:757 | where sin φ·cos φ = 0 the callbacks' cubic correction is the intended one |
| Magnetoelastic.HexDeltaOnAxes | velcrys.py:990 | where sin φ·cos φ = 0 the callbacks' hexagonal correction is the intended one |
| Magnetoelastic.CubicPointCoefficients | velcrys.py:786-806 | a_ij of the single-point cubic callback: ΔC·10^-9 added in GPa; CubicCallbacksAgree |
| Magnetoelastic.CubicGridCoefficients | velcrys.py:1563-1583 | a_ij of the cubic grid callback: ΔC added in Pa; CubicCallbacksAgree and CubicUncoupledIsZeroField |
| Magnetoelastic.CubicZeroField | velcrys.py:808-828 | a0_ij of a cubic crystal (also lines 1585-1605); CubicUncoupledIsZeroField |
| Magnetoelastic.HexPointCoefficients | velcrys.py:1020-1040 | a_ij of the single-point hexagonal callback; HexCallbacksAgree |
| Magnetoelastic.HexGridCoefficients | velcrys.py:1790-1810 | a_ij of the hexagonal grid callback; HexCallbacksAgree and HexUncoupledIsZeroField |
| Magnetoelastic.HexZeroField | velcrys.py:1042-1062 | a0_ij of a hexagonal crystal (also lines 1812-1832); HexUncoupledIsZeroField |
| Magnetoelastic.CubicCallbacksAgree | velcrys.py:764-806 | the single-point callback (GPa) and the grid callback (Pa, lines 1536-1583) compute the same corrected cubic a_ij |
| Magnetoelastic.HexCallbacksAgree | velcrys.py:997-1040 | the single-point callback and the grid callback (lines 1763-1810) compute the same corrected hexagonal a_ij |
| Magnetoelastic.CubicUncoupledIsZeroField | velcrys.py:1536-1605 | without coupling, the corrected cubic a_ij equal the zero-field a0_ij |
| Magnetoelastic.HexUncoupledIsZeroField | velcrys.py:1763-1832 | without coupling, the corrected hexagonal a_ij equal the zero-field a0_ij |
| GridSweep.CellVelocity | velcrys.py:1292-1296 | `vel` of the coefficients in one direction, with the spectrum the solver gives there |
| GridSweep.Stored | velcrys.py:1298-1300 | what a cell holds for a velocity: its components, or 0 where the arithmetic gives no number |
| GridSweep.SquaredNorm | velcrys.py:1301 | vx² + vy² + vz²; SpeedIsLength |
| GridSweep.SpeedIsLength | velcrys.py:1301 | for a square root satisfying IsSqrt, the speed is the non-negative number whose square is vx² + vy² + vz² |
| GridSweep.SpeedGrid | velcrys.py:1301 | every speed cell so filled is non-negative and squares to its cell's squared length |
| GridSweep.Sweep | velcrys.py:1282-1301 | returns four fresh n×n arrays. Each cell (i, j) holds the velocity components for its own direction, and the speed cell holds the square root of their squared length. No cell depends on any other |
| GridSweep.SurfaceSweep | velcrys.py:1288-1301 | the sweep of `update_tric3d`: every cell holds `vel` of the crystal's coefficients and chosen mode in that cell's direction, and its speed cell is non-negative and squares to vx² + vy² + vz². It requires the solver to give a spectrum (IsSpectrum) in every direction and the square root to satisfy IsSqrt |
| GridSweep.FractionalChange | velcrys.py:1649 | (x - y)/y has a value iff y ≠ 0, and then r·y == x - y |
| GridSweep.StoredChange | velcrys.py:1649 | what a change cell holds: the fractional change, or 0 where it has no value |
| GridSweep.FractionalChangeZero | velcrys.py:1649 | for y ≠ 0 the fractional change is 0 iff x == y |
| GridSweep.FractionalChangeInverse | velcrys.py:1649 | the change is undone: for y ≠ 0, y·(1 + r) gives x back, so v00·(1 + v000) = v0 |
| GridSweep.ChangeGrid | velcrys.py:1623-1649 | a fresh n×n array whose every cell is the fractional change of p relative to q at that cell |
| GridSweep.CompareSweep | velcrys.py:1613-1649 | the arrays of `update_cf` (and of `update_hf`, lines 1840-1876): the corrected sweep, the zero-field sweep and their fractional change. Both speed grids are non-negative. Where the two coefficient sets coincide, every defined change cell is 0 |

## Left out

- The Dash layout, callback wiring and Plotly figures (velcrys.py:22-663, 1304-1343, 1654-1693, 1881-1920) are user interface with no behaviour to state. That includes the deformed surface x = (1 + s·v000)·kkx.
- The Nelder-Mead minimisation (velcrys.py:744, 977, 1516, 1743) is a foreign iterative optimiser. Its result enters the model as the sines and cosines of the equilibrium angles.
- The free-energy functions `enecub`, `ett`, `epp`, `enehex`, `etth`, `epph` (velcrys.py:855-892, 1090-1127) are trigonometric. E_tt and E_pp are nonzero inputs.
- The input conversions ms/μ0 and K, B·10^6 (velcrys.py:729-734) are left out: ms and the b's are taken in SI units.
- `np.sqrt`, `cmath.sqrt`, the complex power `** (1/3)` and `np.mgrid` with sin/cos are transcendental, and are parameters with algebraic constraints. The same holds for the solver that gives the roots λ and pv = √λ used by `vel`. `vel` takes that spectrum as an input rather than calling `UnaryCubicEquation`; `SolverRootsAreSpectrum` shows that what `UnaryCubicEquation` returns above its cut-off is such a spectrum when its values are real. That they are real for a Christoffel matrix, and `np.sqrt` of complex values, are not modelled. The direction grid is an unconstrained input.
- Floating-point rounding, NaN and infinity are not modelled. Python's division by zero or by NaN becomes a `None` result, and the grids store 0 in such a cell (`Stored`, `StoredChange`).
- The normalisation of the wave vector with `kz*2` in place of `kz**2` (velcrys.py:830, 1064) is left out. Directions are inputs, and a unit direction is assumed where it matters.
- The single-point comparisons (velcrys.py:836-850, 1070-1084) and `update_numerical_tric` (velcrys.py:1170-1207) are not modelled separately. They are one cell of `CompareSweep` and `SurfaceSweep`, applied to a caller-supplied direction.
- The fused loop body of `update_cf`/`update_hf` is modelled as two sweeps followed by a change pass. Cells are independent, so the arrays are the same.
- The flag `sig` (velcrys.py:1451, 1459) and the field shift `delta = 0` (velcrys.py:728, 738-740) have no observable effect.
- Christoffel.DcDn and Christoffel.DdDn are defined by the product rule through the Christoffel matrix, not as the polynomials in a_ij and n written out at velcrys.py:1370-1380. `DcDnExpansions` and `DdDnExpansions` prove the written-out expansions equal to the product rule, with each parenthesised factor taken as the Christoffel entry or derivative entry it equals. That each factor, rearranged as printed, equals that entry is not itself proved. dbdn1-3 are modelled literally and proved equal (`DbDnIsChainRule`).
- GroupVelocity.Vel: the spectrum is real, and `Vel` itself places no constraint on it; the sweeps require `IsSpectrum`. So the roots are the real roots of the cubic, and pv_k = √λ_k ≥ 0 excludes a negative λ, a crystal that is not positive definite. The complex values that `np.real` (velcrys.py:1440-1442) discards are not modelled. The acoustic-axis case of a zero denominator gives `None`.
- CubicSolver.UnaryCubicEquation: below the 1e-15 cut-off it states only v = 0, not that the values are roots. The cut-off |u| > 1e-15 is stated as |u|² > 1e-30, which is the same condition over the reals.
- MagneticSusceptibility.Susceptibility, the corrected χ (see Findings), is used only by the intended corrections `IntendedCubicDelta` and `IntendedHexDelta`. The callbacks' corrections and coefficients (`CubicDelta`, `HexDelta` and the *Coefficients functions) use `SusceptibilityAsWritten`, as the program does.

## Findings

| source | as written | input that shows it | evidently intended | confidence | as-written member | corrected member |
|---|---|---|---|---|---|---|
| velcrys.py:757 | the same at lines 990, 1529 and 1756: χxy = -ms²(cos²θ cosφ sinφ / E_tt - sin²θ cosφ sinφ / E_pp): a leading minus sign, which makes χ not the outer-product form of its other five entries | θ = 90°, sin φ = 3/5, cos φ = 4/5, ms = E_tt = E_pp = 1: χ·m has x component 72/125 instead of 0 | χxy = ms²(cos²θ cosφ sinφ / E_tt - sin²θ cosφ sinφ / E_pp), so that χ = ms²(e_θ e_θᵀ/E_tt + e_φ e_φᵀ/E_pp) is transverse to the magnetisation. The callbacks' corrections are modelled as written (CubicDelta, HexDelta); the corrections with this χ are IntendedCubicDelta and IntendedHexDelta | medium, not executed | MagneticSusceptibility.AsWrittenNotTransverse | MagneticSusceptibility.SusceptibilityIsTransverse |
