/** The density-normalised stiffness coefficients a_ij that `vel` takes:
    the unit conversion from stiffness constants in GPa, the fill of a
    cubic or hexagonal crystal's 21 coefficients by symmetry, and the
    addition of a magnetoelastic correction in the two unit conventions
    the callbacks use. */
module Stiffness {
  import opened Christoffel

  /** Pascals per gigapascal, the 10**9 of the conversions. */
  const Giga: real := 1000000000.0

  /** The 10**(-9) with which the single-point callbacks turn a
      correction in Pa into GPa. */
  const Nano: real := 0.000000001

  const VoigtZero: Voigt :=
    Voigt(
      0.0, 0.0, 0.0, 0.0, 0.0, 0.0,
      0.0, 0.0, 0.0, 0.0, 0.0,
      0.0, 0.0, 0.0, 0.0,
      0.0, 0.0, 0.0,
      0.0, 0.0,
      0.0)

  function VoigtAdd(c: Voigt, d: Voigt): Voigt
  {
    Voigt(
      c.a11 + d.a11, c.a12 + d.a12, c.a13 + d.a13, c.a14 + d.a14, c.a15 + d.a15, c.a16 + d.a16,
      c.a22 + d.a22, c.a23 + d.a23, c.a24 + d.a24, c.a25 + d.a25, c.a26 + d.a26,
      c.a33 + d.a33, c.a34 + d.a34, c.a35 + d.a35, c.a36 + d.a36,
      c.a44 + d.a44, c.a45 + d.a45, c.a46 + d.a46,
      c.a55 + d.a55, c.a56 + d.a56,
      c.a66 + d.a66)
  }

  function VoigtScale(t: real, c: Voigt): Voigt
  {
    Voigt(
      t * c.a11, t * c.a12, t * c.a13, t * c.a14, t * c.a15, t * c.a16,
      t * c.a22, t * c.a23, t * c.a24, t * c.a25, t * c.a26,
      t * c.a33, t * c.a34, t * c.a35, t * c.a36,
      t * c.a44, t * c.a45, t * c.a46,
      t * c.a55, t * c.a56,
      t * c.a66)
  }

  /** One coefficient in GPa, converted to Pa and divided by the density. */
  function PerRho(x: real, rho: real): real
    requires rho != 0.0
  {
    x * Giga / rho
  }

  /** a_ij = C_ij 10^9 / rho, each of the 21 coefficients. */
  function Normalised(c: Voigt, rho: real): Voigt
    requires rho != 0.0
  {
    Voigt(
      PerRho(c.a11, rho), PerRho(c.a12, rho), PerRho(c.a13, rho), PerRho(c.a14, rho), PerRho(c.a15, rho), PerRho(c.a16, rho),
      PerRho(c.a22, rho), PerRho(c.a23, rho), PerRho(c.a24, rho), PerRho(c.a25, rho), PerRho(c.a26, rho),
      PerRho(c.a33, rho), PerRho(c.a34, rho), PerRho(c.a35, rho), PerRho(c.a36, rho),
      PerRho(c.a44, rho), PerRho(c.a45, rho), PerRho(c.a46, rho),
      PerRho(c.a55, rho), PerRho(c.a56, rho),
      PerRho(c.a66, rho))
  }

  /** The inverse conversion, C_ij = a_ij rho / 10^9. */
  function Denormalised(a: Voigt, rho: real): Voigt
  {
    Voigt(
      FromPerRho(a.a11, rho), FromPerRho(a.a12, rho), FromPerRho(a.a13, rho), FromPerRho(a.a14, rho), FromPerRho(a.a15, rho), FromPerRho(a.a16, rho),
      FromPerRho(a.a22, rho), FromPerRho(a.a23, rho), FromPerRho(a.a24, rho), FromPerRho(a.a25, rho), FromPerRho(a.a26, rho),
      FromPerRho(a.a33, rho), FromPerRho(a.a34, rho), FromPerRho(a.a35, rho), FromPerRho(a.a36, rho),
      FromPerRho(a.a44, rho), FromPerRho(a.a45, rho), FromPerRho(a.a46, rho),
      FromPerRho(a.a55, rho), FromPerRho(a.a56, rho),
      FromPerRho(a.a66, rho))
  }

  function FromPerRho(x: real, rho: real): real
  {
    x * rho / Giga
  }

  /** Converting back with the density recovers the stiffness constants. */
  lemma {:induction false} NormalisedRoundTrip(c: Voigt, rho: real)
    requires rho != 0.0
    ensures Denormalised(Normalised(c, rho), rho) == c
  {
    ScaleBack(c.a11, rho);
    ScaleBack(c.a12, rho);
    ScaleBack(c.a13, rho);
    ScaleBack(c.a14, rho);
    ScaleBack(c.a15, rho);
    ScaleBack(c.a16, rho);
    ScaleBack(c.a22, rho);
    ScaleBack(c.a23, rho);
    ScaleBack(c.a24, rho);
    ScaleBack(c.a25, rho);
    ScaleBack(c.a26, rho);
    ScaleBack(c.a33, rho);
    ScaleBack(c.a34, rho);
    ScaleBack(c.a35, rho);
    ScaleBack(c.a36, rho);
    ScaleBack(c.a44, rho);
    ScaleBack(c.a45, rho);
    ScaleBack(c.a46, rho);
    ScaleBack(c.a55, rho);
    ScaleBack(c.a56, rho);
    ScaleBack(c.a66, rho);
  }

  lemma {:induction false} ScaleBack(x: real, rho: real)
    requires rho != 0.0
    ensures FromPerRho(PerRho(x, rho), rho) == x
  {
  }

  /** Normalisation is linear: it commutes with adding stiffness tensors. */
  lemma {:induction false} NormalisedAdd(c: Voigt, d: Voigt, rho: real)
    requires rho != 0.0
    ensures Normalised(VoigtAdd(c, d), rho) == VoigtAdd(Normalised(c, rho), Normalised(d, rho))
  {
    DivideSum(c.a11, d.a11, rho);
    DivideSum(c.a12, d.a12, rho);
    DivideSum(c.a13, d.a13, rho);
    DivideSum(c.a14, d.a14, rho);
    DivideSum(c.a15, d.a15, rho);
    DivideSum(c.a16, d.a16, rho);
    DivideSum(c.a22, d.a22, rho);
    DivideSum(c.a23, d.a23, rho);
    DivideSum(c.a24, d.a24, rho);
    DivideSum(c.a25, d.a25, rho);
    DivideSum(c.a26, d.a26, rho);
    DivideSum(c.a33, d.a33, rho);
    DivideSum(c.a34, d.a34, rho);
    DivideSum(c.a35, d.a35, rho);
    DivideSum(c.a36, d.a36, rho);
    DivideSum(c.a44, d.a44, rho);
    DivideSum(c.a45, d.a45, rho);
    DivideSum(c.a46, d.a46, rho);
    DivideSum(c.a55, d.a55, rho);
    DivideSum(c.a56, d.a56, rho);
    DivideSum(c.a66, d.a66, rho);
  }

  lemma {:induction false} DivideSum(x: real, y: real, rho: real)
    requires rho != 0.0
    ensures PerRho(x + y, rho) == PerRho(x, rho) + PerRho(y, rho)
  {
  }

  /** The stiffness constants of a cubic crystal from C11, C12 and C44:
      C22 = C33 = C11, C13 = C23 = C12, C55 = C66 = C44, the rest zero. */
  function CubicStiffness(c11: real, c12: real, c44: real): Voigt
  {
    Voigt(
      c11, c12, c12, 0.0, 0.0, 0.0,
      c11, c12, 0.0, 0.0, 0.0,
      c11, 0.0, 0.0, 0.0,
      c44, 0.0, 0.0,
      c44, 0.0,
      c44)
  }

  /** The stiffness constants of a hexagonal crystal from C11, C12, C13,
      C33 and C44, with C66 = (C11 - C12) / 2. */
  function HexStiffness(c11: real, c12: real, c13: real, c33: real, c44: real): Voigt
  {
    Voigt(
      c11, c12, c13, 0.0, 0.0, 0.0,
      c11, c13, 0.0, 0.0, 0.0,
      c33, 0.0, 0.0, 0.0,
      c44, 0.0, 0.0,
      c44, 0.0,
      0.5 * (c11 - c12))
  }

  /** The zero-field coefficients a0 of a cubic crystal have cubic symmetry. */
  lemma {:induction false} CubicSymmetry(c11: real, c12: real, c44: real, rho: real)
    requires rho != 0.0
    ensures
      var a := Normalised(CubicStiffness(c11, c12, c44), rho);
      && a.a11 == PerRho(c11, rho) && a.a12 == PerRho(c12, rho) && a.a44 == PerRho(c44, rho)
      && a.a22 == a.a11 && a.a33 == a.a11
      && a.a13 == a.a12 && a.a23 == a.a12
      && a.a55 == a.a44 && a.a66 == a.a44
      && a.a14 == 0.0 && a.a15 == 0.0 && a.a16 == 0.0 && a.a24 == 0.0 && a.a25 == 0.0 && a.a26 == 0.0
      && a.a34 == 0.0 && a.a35 == 0.0 && a.a36 == 0.0 && a.a45 == 0.0 && a.a46 == 0.0 && a.a56 == 0.0
  {
  }

  /** The zero-field coefficients a0 of a hexagonal crystal are transversely
      isotropic: a66 = (a11 - a12) / 2. */
  lemma {:induction false} HexSymmetry(c11: real, c12: real, c13: real, c33: real, c44: real, rho: real)
    requires rho != 0.0
    ensures
      var a := Normalised(HexStiffness(c11, c12, c13, c33, c44), rho);
      && a.a22 == a.a11 && a.a23 == a.a13 && a.a55 == a.a44
      && a.a66 == (a.a11 - a.a12) / 2.0
      && a.a14 == 0.0 && a.a15 == 0.0 && a.a16 == 0.0 && a.a24 == 0.0 && a.a25 == 0.0 && a.a26 == 0.0
      && a.a34 == 0.0 && a.a35 == 0.0 && a.a36 == 0.0 && a.a45 == 0.0 && a.a46 == 0.0 && a.a56 == 0.0
  {
    var a := Normalised(HexStiffness(c11, c12, c13, c33, c44), rho);
    DivideSum(0.5 * c11, -0.5 * c12, rho);
  }

  /** The corrected coefficients of the single-point callbacks: C in GPa
      plus a correction dC in GPa, both times 10^9 / rho. */
  function CorrectedGPa(c: Voigt, dc: Voigt, rho: real): Voigt
    requires rho != 0.0
  {
    Voigt(
      PerRho(c.a11, rho) + PerRho(dc.a11, rho), PerRho(c.a12, rho) + PerRho(dc.a12, rho), PerRho(c.a13, rho) + PerRho(dc.a13, rho), PerRho(c.a14, rho) + PerRho(dc.a14, rho), PerRho(c.a15, rho) + PerRho(dc.a15, rho), PerRho(c.a16, rho) + PerRho(dc.a16, rho),
      PerRho(c.a22, rho) + PerRho(dc.a22, rho), PerRho(c.a23, rho) + PerRho(dc.a23, rho), PerRho(c.a24, rho) + PerRho(dc.a24, rho), PerRho(c.a25, rho) + PerRho(dc.a25, rho), PerRho(c.a26, rho) + PerRho(dc.a26, rho),
      PerRho(c.a33, rho) + PerRho(dc.a33, rho), PerRho(c.a34, rho) + PerRho(dc.a34, rho), PerRho(c.a35, rho) + PerRho(dc.a35, rho), PerRho(c.a36, rho) + PerRho(dc.a36, rho),
      PerRho(c.a44, rho) + PerRho(dc.a44, rho), PerRho(c.a45, rho) + PerRho(dc.a45, rho), PerRho(c.a46, rho) + PerRho(dc.a46, rho),
      PerRho(c.a55, rho) + PerRho(dc.a55, rho), PerRho(c.a56, rho) + PerRho(dc.a56, rho),
      PerRho(c.a66, rho) + PerRho(dc.a66, rho))
  }

  /** The corrected coefficients of the grid callbacks: C in GPa times
      10^9 / rho plus a correction dC in Pa divided by rho. */
  function CorrectedPa(c: Voigt, dc: Voigt, rho: real): Voigt
    requires rho != 0.0
  {
    Voigt(
      PerRho(c.a11, rho) + dc.a11 / rho, PerRho(c.a12, rho) + dc.a12 / rho, PerRho(c.a13, rho) + dc.a13 / rho, PerRho(c.a14, rho) + dc.a14 / rho, PerRho(c.a15, rho) + dc.a15 / rho, PerRho(c.a16, rho) + dc.a16 / rho,
      PerRho(c.a22, rho) + dc.a22 / rho, PerRho(c.a23, rho) + dc.a23 / rho, PerRho(c.a24, rho) + dc.a24 / rho, PerRho(c.a25, rho) + dc.a25 / rho, PerRho(c.a26, rho) + dc.a26 / rho,
      PerRho(c.a33, rho) + dc.a33 / rho, PerRho(c.a34, rho) + dc.a34 / rho, PerRho(c.a35, rho) + dc.a35 / rho, PerRho(c.a36, rho) + dc.a36 / rho,
      PerRho(c.a44, rho) + dc.a44 / rho, PerRho(c.a45, rho) + dc.a45 / rho, PerRho(c.a46, rho) + dc.a46 / rho,
      PerRho(c.a55, rho) + dc.a55 / rho, PerRho(c.a56, rho) + dc.a56 / rho,
      PerRho(c.a66, rho) + dc.a66 / rho)
  }

  /** Both unit paths give the same coefficients for the same correction:
      a correction expressed in GPa (times 10^-9) and added through
      10^9 / rho equals the one in Pa added through 1 / rho. */
  lemma {:induction false} UnitPathsAgree(c: Voigt, dc: Voigt, rho: real)
    requires rho != 0.0
    ensures CorrectedGPa(c, VoigtScale(Nano, dc), rho) == CorrectedPa(c, dc, rho)
  {
    NanoGiga(dc.a11, rho);
    NanoGiga(dc.a12, rho);
    NanoGiga(dc.a13, rho);
    NanoGiga(dc.a14, rho);
    NanoGiga(dc.a15, rho);
    NanoGiga(dc.a16, rho);
    NanoGiga(dc.a22, rho);
    NanoGiga(dc.a23, rho);
    NanoGiga(dc.a24, rho);
    NanoGiga(dc.a25, rho);
    NanoGiga(dc.a26, rho);
    NanoGiga(dc.a33, rho);
    NanoGiga(dc.a34, rho);
    NanoGiga(dc.a35, rho);
    NanoGiga(dc.a36, rho);
    NanoGiga(dc.a44, rho);
    NanoGiga(dc.a45, rho);
    NanoGiga(dc.a46, rho);
    NanoGiga(dc.a55, rho);
    NanoGiga(dc.a56, rho);
    NanoGiga(dc.a66, rho);
  }

  lemma {:induction false} NanoGiga(x: real, rho: real)
    requires rho != 0.0
    ensures PerRho(Nano * x, rho) == x / rho
  {
  }

  /** Without a correction, both paths give the zero-field coefficients a0. */
  lemma {:induction false} ZeroCorrection(c: Voigt, rho: real)
    requires rho != 0.0
    ensures CorrectedPa(c, VoigtZero, rho) == Normalised(c, rho)
    ensures CorrectedGPa(c, VoigtZero, rho) == Normalised(c, rho)
  {
  }
}
