/** The magnetoelastic correction to the stiffness: the static transverse
    susceptibility chi of the magnetisation at its equilibrium direction,
    the correction dC_ij it induces in a cubic or hexagonal crystal, and
    the corrected and zero-field coefficient sets the callbacks assemble
    from them. The equilibrium angles and the energy curvatures E_tt and
    E_pp come from a numerical minimisation and are inputs here. */
module Magnetoelastic {
  import opened Christoffel
  import opened Stiffness
  import opened MagneticSusceptibility

  /** The correction dC_ij, in Pa, of a cubic crystal with magnetoelastic
      constants b1 and b2, for saturation magnetisation ms, susceptibility
      chi and magnetisation direction d. */
  function CubicCorrection(b1: real, b2: real, ms: real, chi: Chi, d: Vec3): Voigt
    requires ms != 0.0
  {
    CubicShape(Sq(b1 / ms), Sq(b2 / ms), (2.0 * b1 * b2) / (ms * ms), chi, d)
  }

  /** The 21 entries of the cubic correction, given the three coupling
      factors (b1/ms)^2, (b2/ms)^2 and 2 b1 b2 / ms^2. */
  function CubicShape(k1: real, k2: real, k12: real, chi: Chi, d: Vec3): Voigt
  {
    var xx, xy, xz, yy, yz, zz := chi.xx, chi.xy, chi.xz, chi.yy, chi.yz, chi.zz;
    var ax, ay, az := d.x, d.y, d.z;
    Voigt(
      -k1 * (4.0 * xx * Sq(ax)),
      -k1 * (4.0 * xy * ax * ay),
      -k1 * (4.0 * xz * ax * az),
      -k12 * (xy * ax * az + xz * ax * ay),
      -k12 * (xx * ax * az + xz * ax * ax),
      -k12 * (xx * ax * ay + xy * ax * ax),
      -k1 * (4.0 * yy * Sq(ay)),
      -k1 * (4.0 * yz * ay * az),
      -k12 * (yy * ay * az + yz * ay * ay),
      -k12 * (xy * ay * az + yz * ax * ay),
      -k12 * (xy * ay * ay + yy * ax * ay),
      -k1 * (4.0 * zz * Sq(az)),
      -k12 * (yz * az * az + zz * az * ay),
      -k12 * (xz * az * az + zz * ax * az),
      -k12 * (xz * ay * az + yz * ax * az),
      -k2 * (zz * Sq(ay) + 2.0 * yz * ay * az + yy * Sq(az)),
      -k2 * (xy * Sq(az) + xz * ay * az + yz * ax * az + zz * ax * ay),
      -k2 * (xy * ay * az + xz * ay * ay + yy * ax * az + yz * ax * ay),
      -k2 * (xx * Sq(az) + zz * Sq(ax) + 2.0 * xz * ax * az),
      -k2 * (xx * ay * az + xy * ax * az + xz * ax * ay + yz * ax * ax),
      -k2 * (xx * Sq(ay) + yy * Sq(ax) + 2.0 * xy * ax * ay))
  }

  /** Without magnetoelastic coupling there is no correction. */
  lemma {:induction false} CubicCorrectionUncoupled(ms: real, chi: Chi, d: Vec3)
    requires ms != 0.0
    ensures CubicCorrection(0.0, 0.0, ms, chi, d) == VoigtZero
  {
    ZeroRatio(ms);
    CubicShapeZero(chi, d);
  }

  lemma {:induction false} CubicShapeZero(chi: Chi, d: Vec3)
    ensures CubicShape(0.0, 0.0, 0.0, chi, d) == VoigtZero
  {
  }

  lemma {:induction false} ZeroRatio(ms: real)
    requires ms != 0.0
    ensures Sq(0.0 / ms) == 0.0 && (2.0 * 0.0 * 0.0) / (ms * ms) == 0.0
  {
  }

  lemma {:induction false} SqRatio(b: real, b': real, ms: real)
    requires ms != 0.0
    requires b' == b || b' == -b
    ensures Sq(b / ms) == Sq(b' / ms)
  {
    if b' == -b {
      assert b' / ms == -(b / ms);
      SqNeg(b / ms);
    }
  }

  lemma {:induction false} MixedRatio(b1: real, b2: real, b1': real, b2': real, ms: real)
    requires ms != 0.0
    requires b1 * b2 == b1' * b2'
    ensures (2.0 * b1 * b2) / (ms * ms) == (2.0 * b1' * b2') / (ms * ms)
  {
    assert 2.0 * b1 * b2 == 2.0 * b1' * b2';
  }

  lemma {:induction false} CubicShapeLongitudinal(k1: real, k2: real, k12: real, k2': real, k12': real, chi: Chi, d: Vec3)
    ensures
      var c, c' := CubicShape(k1, k2, k12, chi, d), CubicShape(k1, k2', k12', chi, d);
      c.a11 == c'.a11 && c.a12 == c'.a12 && c.a13 == c'.a13 && c.a22 == c'.a22 && c.a23 == c'.a23 && c.a33 == c'.a33
  {
  }

  lemma {:induction false} CubicShapeShear(k1: real, k2: real, k12: real, k1': real, k12': real, chi: Chi, d: Vec3)
    ensures
      var c, c' := CubicShape(k1, k2, k12, chi, d), CubicShape(k1', k2, k12', chi, d);
      c.a44 == c'.a44 && c.a55 == c'.a55 && c.a66 == c'.a66 && c.a45 == c'.a45 && c.a46 == c'.a46 && c.a56 == c'.a56
  {
  }

  lemma {:induction false} CubicShapeMixed(k1: real, k2: real, k12: real, k1': real, k2': real, chi: Chi, d: Vec3)
    ensures
      var c, c' := CubicShape(k1, k2, k12, chi, d), CubicShape(k1', k2', k12, chi, d);
      && c.a14 == c'.a14 && c.a15 == c'.a15 && c.a16 == c'.a16
      && c.a24 == c'.a24 && c.a25 == c'.a25 && c.a26 == c'.a26
      && c.a34 == c'.a34 && c.a35 == c'.a35 && c.a36 == c'.a36
  {
  }

  /** dC11, dC12, dC13, dC22, dC23 and dC33 depend on the magnetoelastic
      constants only through b1^2: they do not change with b2, nor when b1
      changes sign. */
  lemma {:induction false} CubicLongitudinalEntries(b1: real, b2: real, b1': real, b2': real, ms: real, chi: Chi, d: Vec3)
    requires ms != 0.0
    requires b1' == b1 || b1' == -b1
    ensures
      var c, c' := CubicCorrection(b1, b2, ms, chi, d), CubicCorrection(b1', b2', ms, chi, d);
      c.a11 == c'.a11 && c.a12 == c'.a12 && c.a13 == c'.a13 && c.a22 == c'.a22 && c.a23 == c'.a23 && c.a33 == c'.a33
  {
    SqRatio(b1, b1', ms);
    CubicShapeLongitudinal(Sq(b1' / ms), Sq(b2 / ms), (2.0 * b1 * b2) / (ms * ms), Sq(b2' / ms), (2.0 * b1' * b2') / (ms * ms), chi, d);
  }

  /** dC44, dC55, dC66, dC45, dC46 and dC56 depend on the magnetoelastic
      constants only through b2^2: they do not change with b1, nor when b2
      changes sign. */
  lemma {:induction false} CubicShearEntries(b1: real, b2: real, b1': real, b2': real, ms: real, chi: Chi, d: Vec3)
    requires ms != 0.0
    requires b2' == b2 || b2' == -b2
    ensures
      var c, c' := CubicCorrection(b1, b2, ms, chi, d), CubicCorrection(b1', b2', ms, chi, d);
      c.a44 == c'.a44 && c.a55 == c'.a55 && c.a66 == c'.a66 && c.a45 == c'.a45 && c.a46 == c'.a46 && c.a56 == c'.a56
  {
    SqRatio(b2, b2', ms);
    CubicShapeShear(Sq(b1 / ms), Sq(b2' / ms), (2.0 * b1 * b2) / (ms * ms), Sq(b1' / ms), (2.0 * b1' * b2') / (ms * ms), chi, d);
  }

  /** The nine mixed entries depend on the magnetoelastic constants only
      through the product b1 b2, so they vanish when either is zero. */
  lemma {:induction false} CubicMixedEntries(b1: real, b2: real, b1': real, b2': real, ms: real, chi: Chi, d: Vec3)
    requires ms != 0.0
    requires b1 * b2 == b1' * b2'
    ensures
      var c, c' := CubicCorrection(b1, b2, ms, chi, d), CubicCorrection(b1', b2', ms, chi, d);
      && c.a14 == c'.a14 && c.a15 == c'.a15 && c.a16 == c'.a16
      && c.a24 == c'.a24 && c.a25 == c'.a25 && c.a26 == c'.a26
      && c.a34 == c'.a34 && c.a35 == c'.a35 && c.a36 == c'.a36
  {
    MixedRatio(b1, b2, b1', b2', ms);
    CubicShapeMixed(Sq(b1 / ms), Sq(b2 / ms), (2.0 * b1' * b2') / (ms * ms), Sq(b1' / ms), Sq(b2' / ms), chi, d);
  }

  /** The in-plane combination chi_xx ax^2 + chi_yy ay^2 - chi_xy ax ay
      shared by dC11, dC12 and dC22 of a hexagonal crystal. */
  function HexInPlane(chi: Chi, d: Vec3): real
  {
    chi.xx * Sq(d.x) + chi.yy * Sq(d.y) - chi.xy * d.x * d.y
  }

  /** The cross term 2 b21 b3 az (chi_yz ay - chi_xz ax) of dC11; dC22 carries
      it with the opposite sign. */
  function HexCross(b21: real, b3: real, chi: Chi, d: Vec3): real
  {
    2.0 * b21 * b3 * d.z * (chi.yz * d.y - chi.xz * d.x)
  }

  /** The axial term chi_zz 4 b21^2 az^2 of dC11 and dC22. */
  function HexAxial(b21: real, chi: Chi, d: Vec3): real
  {
    chi.zz * 4.0 * Sq(b21) * Sq(d.z)
  }

  /** dC11 and dC22: (1/ms)^2 (-b3^2 inPlane +/- cross - axial). */
  function HexDiagonal(q: real, b3Squared: real, inPlane: real, cross: real, axial: real): real
  {
    q * (-b3Squared * inPlane + cross - axial)
  }

  /** The correction dC_ij, in Pa, of a hexagonal crystal with
      magnetoelastic constants b21, b22, b3 and b4. */
  function HexCorrection(b21: real, b22: real, b3: real, b4: real, ms: real, chi: Chi, d: Vec3): Voigt
    requires ms != 0.0
  {
    HexShape(ms, Sq(b22 / ms), Sq(b3 / ms), Sq(b4 / ms), b21, b22, b3, b4, chi, d)
  }

  /** The 21 entries of the hexagonal correction, given ms, the squared
      coupling factors k22 = (b22/ms)^2, k3 = (b3/ms)^2, k4 = (b4/ms)^2 and
      the constants themselves. */
  function HexShape(ms: real, k22: real, k3: real, k4: real, b21: real, b22: real, b3: real, b4: real,
                    chi: Chi, d: Vec3): Voigt
    requires ms != 0.0
  {
    var xx, xy, xz, yy, yz, zz := chi.xx, chi.xy, chi.xz, chi.yy, chi.yz, chi.zz;
    var ax, ay, az := d.x, d.y, d.z;
    var q := Sq(1.0 / ms);
    Voigt(
      HexDiagonal(q, Sq(b3), HexInPlane(chi, d), HexCross(b21, b3, chi, d), HexAxial(b21, chi, d)),
      q * (Sq(b3) * HexInPlane(chi, d) - 4.0 * Sq(b21) * Sq(az) * zz),
      q * (-b22 * b3 * (xz * ax * az - yz * ay * az) - 4.0 * zz * b21 * b22 * Sq(az)),
      -q * (0.5 * b4) * (b3 * (-2.0 * yy * ay * az + xy * ax * az + xz * ax * ay - yz * Sq(ay)) + b21 * (4.0 * zz * ay * az + 2.0 * yz * Sq(az))),
      -q * (0.5 * b4) * (b3 * (2.0 * xx * ax * az - xy * ay * az - yz * ax * ay + xz * Sq(ax)) + b21 * (4.0 * zz * ax * az + 2.0 * xz * Sq(az))),
      -q * (0.5 * b3) * (2.0 * b3 * ax * ay * (xx - yy) + b3 * xy * (Sq(ax) - Sq(ay)) + 2.0 * b21 * az * (ay * xz + ax * yz)),
      HexDiagonal(q, Sq(b3), HexInPlane(chi, d), -HexCross(b21, b3, chi, d), HexAxial(b21, chi, d)),
      q * (b3 * b22 * az * (ax * xz - ay * yz) - 4.0 * b21 * b22 * Sq(az) * zz),
      -q * (0.5 * b4) * (b3 * (2.0 * yy * ay * az - xy * ax * az - xz * ax * ay + yz * Sq(ay)) + b21 * (4.0 * zz * ay * az + 2.0 * yz * Sq(az))),
      -q * (0.5 * b4) * (b3 * (-2.0 * xx * ax * az + xy * ay * az - xz * Sq(ax) + yz * ax * ay) + b21 * (4.0 * zz * ax * az + 2.0 * xz * Sq(az))),
      -q * (0.5 * b4) * (b3 * (-2.0 * xx * ay * ax + 2.0 * yy * ax * ay + xy * ay * ay - xy * Sq(ax)) + b21 * (2.0 * xz * ay * az + 2.0 * yz * az * ax)),
      -k22 * (4.0 * zz * Sq(az)),
      -((b22 * b4) / (ms * ms)) * az * (2.0 * zz * ay + az * yz),
      -((b22 * b4) / (ms * ms)) * az * (2.0 * zz * ax + az * xz),
      -((b22 * b3) / (ms * ms)) * az * (xz * ay + ax * yz),
      -k4 * (zz * Sq(ay) + yz * ay * az + yy * Sq(az)),
      -0.5 * k4 * (xy * Sq(az) + xz * ay * az + yz * ax * az + 2.0 * zz * ax * ay),
      -0.5 * q * b3 * b4 * (xy * ay * az + xz * ay * ay + 2.0 * yy * ax * az + yz * ax * ay),
      -k4 * (xx * Sq(az) + zz * Sq(ax) + xz * ax * az),
      -0.5 * q * b3 * b4 * (2.0 * xx * ay * az + xy * ax * az + xz * ax * ay + yz * ax * ax),
      -k3 * (xx * Sq(ay) + yy * Sq(ax) + xy * ax * ay))
  }

  /** Without magnetoelastic coupling there is no correction. */
  lemma {:induction false} HexCorrectionUncoupled(ms: real, chi: Chi, d: Vec3)
    requires ms != 0.0
    ensures HexCorrection(0.0, 0.0, 0.0, 0.0, ms, chi, d) == VoigtZero
  {
    ZeroRatio(ms);
    assert (0.0 * 0.0) / (ms * ms) == 0.0;
  }

  /** dC33 depends on the magnetoelastic constants only through b22^2: it
      does not change with b21, b3 or b4, nor when b22 changes sign. */
  lemma {:induction false} HexC33OnlyB22(b21: real, b22: real, b3: real, b4: real, b21': real, b22': real, b3': real, b4': real, ms: real, chi: Chi, d: Vec3)
    requires ms != 0.0
    requires b22' == b22 || b22' == -b22
    ensures HexCorrection(b21, b22, b3, b4, ms, chi, d).a33 == HexCorrection(b21', b22', b3', b4', ms, chi, d).a33
  {
    SqRatio(b22, b22', ms);
    HexShapeC33(ms, Sq(b22 / ms), Sq(b3 / ms), Sq(b4 / ms), b21, b22, b3, b4,
                Sq(b3' / ms), Sq(b4' / ms), b21', b22', b3', b4', chi, d);
  }

  lemma {:induction false} HexShapeC33(ms: real, k22: real, k3: real, k4: real, b21: real, b22: real, b3: real, b4: real,
                                       k3': real, k4': real, b21': real, b22': real, b3': real, b4': real, chi: Chi, d: Vec3)
    requires ms != 0.0
    ensures HexShape(ms, k22, k3, k4, b21, b22, b3, b4, chi, d).a33
         == HexShape(ms, k22, k3', k4', b21', b22', b3', b4', chi, d).a33
  {
  }

  /** dC66 depends on the magnetoelastic constants only through b3^2: it
      does not change with b21, b22 or b4, nor when b3 changes sign. */
  lemma {:induction false} HexC66OnlyB3(b21: real, b22: real, b3: real, b4: real, b21': real, b22': real, b3': real, b4': real, ms: real, chi: Chi, d: Vec3)
    requires ms != 0.0
    requires b3' == b3 || b3' == -b3
    ensures HexCorrection(b21, b22, b3, b4, ms, chi, d).a66 == HexCorrection(b21', b22', b3', b4', ms, chi, d).a66
  {
    SqRatio(b3, b3', ms);
    HexShapeC66(ms, Sq(b22 / ms), Sq(b3 / ms), Sq(b4 / ms), b21, b22, b3, b4,
                Sq(b22' / ms), Sq(b4' / ms), b21', b22', b3', b4', chi, d);
  }

  lemma {:induction false} HexShapeC66(ms: real, k22: real, k3: real, k4: real, b21: real, b22: real, b3: real, b4: real,
                                       k22': real, k4': real, b21': real, b22': real, b3': real, b4': real, chi: Chi, d: Vec3)
    requires ms != 0.0
    ensures HexShape(ms, k22, k3, k4, b21, b22, b3, b4, chi, d).a66
         == HexShape(ms, k22', k3, k4', b21', b22', b3', b4', chi, d).a66
  {
  }

  /** dC11 and dC22 differ only in the sign of the b21 b3 cross term, so
      reversing b21 turns one into the other. */
  lemma {:induction false} HexC11MirrorsC22(b21: real, b22: real, b3: real, b4: real, ms: real, chi: Chi, d: Vec3)
    requires ms != 0.0
    ensures HexCorrection(b21, b22, b3, b4, ms, chi, d).a11 == HexCorrection(-b21, b22, b3, b4, ms, chi, d).a22
  {
    HexCrossOdd(b21, b3, chi, d);
    HexAxialEven(b21, chi, d);
  }

  lemma {:induction false} HexCrossOdd(b21: real, b3: real, chi: Chi, d: Vec3)
    ensures HexCross(-b21, b3, chi, d) == -HexCross(b21, b3, chi, d)
  {
  }

  lemma {:induction false} HexAxialEven(b21: real, chi: Chi, d: Vec3)
    ensures HexAxial(-b21, chi, d) == HexAxial(b21, chi, d)
  {
    SqNeg(b21);
  }

  /** The material constants of a cubic crystal: stiffness in GPa, density,
      saturation magnetisation and magnetoelastic constants in Pa. */
  datatype CubicMaterial = CubicMaterial(c11: real, c12: real, c44: real, rho: real, ms: real, b1: real, b2: real)

  /** The material constants of a hexagonal crystal. */
  datatype HexMaterial = HexMaterial(c11: real, c12: real, c13: real, c33: real, c44: real, rho: real, ms: real,
                                     b21: real, b22: real, b3: real, b4: real)

  /** The equilibrium state the minimisation finds: the magnetisation angles
      and the energy curvatures there. */
  datatype Equilibrium = Equilibrium(ang: Angles, ett: real, epp: real)

  predicate CubicWellFormed(m: CubicMaterial, eq: Equilibrium)
  {
    m.rho != 0.0 && m.ms != 0.0 && eq.ett != 0.0 && eq.epp != 0.0
  }

  predicate HexWellFormed(m: HexMaterial, eq: Equilibrium)
  {
    m.rho != 0.0 && m.ms != 0.0 && eq.ett != 0.0 && eq.epp != 0.0
  }

  /** The correction dc of a cubic crystal as the callbacks compute it,
      with the susceptibility as written (chi_xy of the flipped sign). */
  function CubicDelta(m: CubicMaterial, eq: Equilibrium): Voigt
    requires CubicWellFormed(m, eq)
  {
    CubicCorrection(m.b1, m.b2, m.ms, SusceptibilityAsWritten(m.ms, eq.ett, eq.epp, eq.ang), Direction(eq.ang))
  }

  /** The correction dc of a hexagonal crystal as the callbacks compute it. */
  function HexDelta(m: HexMaterial, eq: Equilibrium): Voigt
    requires HexWellFormed(m, eq)
  {
    HexCorrection(m.b21, m.b22, m.b3, m.b4, m.ms, SusceptibilityAsWritten(m.ms, eq.ett, eq.epp, eq.ang),
                  Direction(eq.ang))
  }

  /** The correction dc of a cubic crystal with the transverse
      susceptibility the other five entries imply. */
  function IntendedCubicDelta(m: CubicMaterial, eq: Equilibrium): Voigt
    requires CubicWellFormed(m, eq)
  {
    CubicCorrection(m.b1, m.b2, m.ms, Susceptibility(m.ms, eq.ett, eq.epp, eq.ang), Direction(eq.ang))
  }

  /** The correction dc of a hexagonal crystal with the transverse
      susceptibility. */
  function IntendedHexDelta(m: HexMaterial, eq: Equilibrium): Voigt
    requires HexWellFormed(m, eq)
  {
    HexCorrection(m.b21, m.b22, m.b3, m.b4, m.ms, Susceptibility(m.ms, eq.ett, eq.epp, eq.ang), Direction(eq.ang))
  }

  /** With the magnetisation's azimuth on an axis the callbacks' correction
      of a cubic crystal is the intended one. */
  lemma {:induction false} CubicDeltaOnAxes(m: CubicMaterial, eq: Equilibrium)
    requires CubicWellFormed(m, eq)
    requires eq.ang.sinPhi * eq.ang.cosPhi == 0.0
    ensures CubicDelta(m, eq) == IntendedCubicDelta(m, eq)
  {
    AsWrittenAgreesOnAxes(m.ms, eq.ett, eq.epp, eq.ang);
  }

  /** With the magnetisation's azimuth on an axis the callbacks' correction
      of a hexagonal crystal is the intended one. */
  lemma {:induction false} HexDeltaOnAxes(m: HexMaterial, eq: Equilibrium)
    requires HexWellFormed(m, eq)
    requires eq.ang.sinPhi * eq.ang.cosPhi == 0.0
    ensures HexDelta(m, eq) == IntendedHexDelta(m, eq)
  {
    AsWrittenAgreesOnAxes(m.ms, eq.ett, eq.epp, eq.ang);
  }

  /** The corrected coefficients a of a cubic crystal as the single-point
      callback assembles them: the correction is converted to GPa first. */
  function CubicPointCoefficients(m: CubicMaterial, eq: Equilibrium): Voigt
    requires CubicWellFormed(m, eq)
  {
    CorrectedGPa(CubicStiffness(m.c11, m.c12, m.c44), VoigtScale(Nano, CubicDelta(m, eq)), m.rho)
  }

  /** The corrected coefficients a of a cubic crystal as the grid callback
      assembles them: the correction stays in Pa. */
  function CubicGridCoefficients(m: CubicMaterial, eq: Equilibrium): Voigt
    requires CubicWellFormed(m, eq)
  {
    CorrectedPa(CubicStiffness(m.c11, m.c12, m.c44), CubicDelta(m, eq), m.rho)
  }

  /** The zero-field coefficients a0 of a cubic crystal. */
  function CubicZeroField(m: CubicMaterial): Voigt
    requires m.rho != 0.0
  {
    Normalised(CubicStiffness(m.c11, m.c12, m.c44), m.rho)
  }

  function HexPointCoefficients(m: HexMaterial, eq: Equilibrium): Voigt
    requires HexWellFormed(m, eq)
  {
    CorrectedGPa(HexStiffness(m.c11, m.c12, m.c13, m.c33, m.c44), VoigtScale(Nano, HexDelta(m, eq)), m.rho)
  }

  function HexGridCoefficients(m: HexMaterial, eq: Equilibrium): Voigt
    requires HexWellFormed(m, eq)
  {
    CorrectedPa(HexStiffness(m.c11, m.c12, m.c13, m.c33, m.c44), HexDelta(m, eq), m.rho)
  }

  function HexZeroField(m: HexMaterial): Voigt
    requires m.rho != 0.0
  {
    Normalised(HexStiffness(m.c11, m.c12, m.c13, m.c33, m.c44), m.rho)
  }

  /** The single-point and grid callbacks compute the same corrected
      coefficients for a cubic crystal. */
  lemma {:induction false} CubicCallbacksAgree(m: CubicMaterial, eq: Equilibrium)
    requires CubicWellFormed(m, eq)
    ensures CubicPointCoefficients(m, eq) == CubicGridCoefficients(m, eq)
  {
    UnitPathsAgree(CubicStiffness(m.c11, m.c12, m.c44), CubicDelta(m, eq), m.rho);
  }

  /** The single-point and grid callbacks compute the same corrected
      coefficients for a hexagonal crystal. */
  lemma {:induction false} HexCallbacksAgree(m: HexMaterial, eq: Equilibrium)
    requires HexWellFormed(m, eq)
    ensures HexPointCoefficients(m, eq) == HexGridCoefficients(m, eq)
  {
    UnitPathsAgree(HexStiffness(m.c11, m.c12, m.c13, m.c33, m.c44), HexDelta(m, eq), m.rho);
  }

  /** Without magnetoelastic coupling the corrected coefficients of a cubic
      crystal are its zero-field ones. */
  lemma {:induction false} CubicUncoupledIsZeroField(m: CubicMaterial, eq: Equilibrium)
    requires CubicWellFormed(m, eq)
    requires m.b1 == 0.0 && m.b2 == 0.0
    ensures CubicGridCoefficients(m, eq) == CubicZeroField(m)
  {
    CubicCorrectionUncoupled(m.ms, SusceptibilityAsWritten(m.ms, eq.ett, eq.epp, eq.ang), Direction(eq.ang));
    ZeroCorrection(CubicStiffness(m.c11, m.c12, m.c44), m.rho);
  }

  /** Without magnetoelastic coupling the corrected coefficients of a
      hexagonal crystal are its zero-field ones. */
  lemma {:induction false} HexUncoupledIsZeroField(m: HexMaterial, eq: Equilibrium)
    requires HexWellFormed(m, eq)
    requires m.b21 == 0.0 && m.b22 == 0.0 && m.b3 == 0.0 && m.b4 == 0.0
    ensures HexGridCoefficients(m, eq) == HexZeroField(m)
  {
    HexCorrectionUncoupled(m.ms, SusceptibilityAsWritten(m.ms, eq.ett, eq.epp, eq.ang), Direction(eq.ang));
    ZeroCorrection(HexStiffness(m.c11, m.c12, m.c13, m.c33, m.c44), m.rho);
  }
}
