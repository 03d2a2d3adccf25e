/** The Christoffel matrix of a crystal, the coefficients of its
    characteristic cubic and their derivatives with respect to the
    propagation direction, as `vel` computes them. */
module Christoffel {

  /** The 21 independent density-normalised stiffness coefficients
      a_ij = C_ij / rho in Voigt notation (i <= j). */
  datatype Voigt = Voigt(
    a11: real, a12: real, a13: real, a14: real, a15: real, a16: real,
    a22: real, a23: real, a24: real, a25: real, a26: real,
    a33: real, a34: real, a35: real, a36: real,
    a44: real, a45: real, a46: real,
    a55: real, a56: real,
    a66: real)

  datatype Vec3 = Vec3(x: real, y: real, z: real)

  /** A symmetric 3x3 matrix by its upper triangle. */
  datatype Sym3 = Sym3(g11: real, g12: real, g13: real, g22: real, g23: real, g33: real)

  /** The coordinate axes: dbdn1, dbdn2 and dbdn3 are derivatives along these. */
  const E1 := Vec3(1.0, 0.0, 0.0)
  const E2 := Vec3(0.0, 1.0, 0.0)
  const E3 := Vec3(0.0, 0.0, 1.0)

  function VAdd(n: Vec3, m: Vec3): Vec3
  {
    Vec3(n.x + m.x, n.y + m.y, n.z + m.z)
  }

  function VSub(n: Vec3, m: Vec3): Vec3
  {
    Vec3(n.x - m.x, n.y - m.y, n.z - m.z)
  }

  function SAdd(g: Sym3, d: Sym3): Sym3
  {
    Sym3(g.g11 + d.g11, g.g12 + d.g12, g.g13 + d.g13, g.g22 + d.g22, g.g23 + d.g23, g.g33 + d.g33)
  }

  function SSub(g: Sym3, d: Sym3): Sym3
  {
    Sym3(g.g11 - d.g11, g.g12 - d.g12, g.g13 - d.g13, g.g22 - d.g22, g.g23 - d.g23, g.g33 - d.g33)
  }

  function SScale(t: real, g: Sym3): Sym3
  {
    Sym3(t * g.g11, t * g.g12, t * g.g13, t * g.g22, t * g.g23, t * g.g33)
  }

  /** t times the identity matrix. */
  function SDiag(t: real): Sym3
  {
    Sym3(t, 0.0, 0.0, t, 0.0, t)
  }

  // The entries of the Christoffel matrix g_ik = a_ijkl n_j n_l for the
  // direction n.

  function G11(a: Voigt, n: Vec3): real
  {
    a.a11 * n.x * n.x + 2.0 * a.a16 * n.x * n.y + 2.0 * a.a15 * n.x * n.z + a.a66 * n.y * n.y + 2.0 * a.a56 * n.y * n.z + a.a55 * n.z * n.z
  }

  function G12(a: Voigt, n: Vec3): real
  {
    a.a16 * n.x * n.x + (a.a12 + a.a66) * n.x * n.y + (a.a14 + a.a56) * n.x * n.z + a.a26 * n.y * n.y + (a.a25 + a.a46) * n.y * n.z + a.a45 * n.z * n.z
  }

  function G13(a: Voigt, n: Vec3): real
  {
    a.a15 * n.x * n.x + (a.a14 + a.a56) * n.x * n.y + (a.a13 + a.a55) * n.x * n.z + a.a46 * n.y * n.y + (a.a36 + a.a45) * n.y * n.z + a.a35 * n.z * n.z
  }

  function G22(a: Voigt, n: Vec3): real
  {
    a.a66 * n.x * n.x + 2.0 * a.a26 * n.x * n.y + 2.0 * a.a46 * n.x * n.z + a.a22 * n.y * n.y + 2.0 * a.a24 * n.y * n.z + a.a44 * n.z * n.z
  }

  function G23(a: Voigt, n: Vec3): real
  {
    a.a56 * n.x * n.x + (a.a25 + a.a46) * n.x * n.y + (a.a36 + a.a45) * n.x * n.z + a.a24 * n.y * n.y + (a.a23 + a.a44) * n.y * n.z + a.a34 * n.z * n.z
  }

  function G33(a: Voigt, n: Vec3): real
  {
    a.a55 * n.x * n.x + 2.0 * a.a45 * n.x * n.y + 2.0 * a.a35 * n.x * n.z + a.a44 * n.y * n.y + 2.0 * a.a34 * n.y * n.z + a.a33 * n.z * n.z
  }

  function Matrix(a: Voigt, n: Vec3): Sym3
  {
    Sym3(G11(a, n), G12(a, n), G13(a, n), G22(a, n), G23(a, n), G33(a, n))
  }

  /** A quadratic form in the direction, by the coefficients of its six
      monomials n_x^2, n_x n_y, n_x n_z, n_y^2, n_y n_z, n_z^2. */
  datatype Quadratic = Quadratic(xx: real, xy: real, xz: real, yy: real, yz: real, zz: real)

  function QuadAt(q: Quadratic, n: Vec3): real
  {
    q.xx * n.x * n.x + q.xy * n.x * n.y + q.xz * n.x * n.z + q.yy * n.y * n.y + q.yz * n.y * n.z + q.zz * n.z * n.z
  }

  /** The derivative of the form at n along m. */
  function QuadDeriv(q: Quadratic, n: Vec3, m: Vec3): real
  {
    2.0 * q.xx * n.x * m.x + q.xy * (n.x * m.y + n.y * m.x) + q.xz * (n.x * m.z + n.z * m.x)
      + 2.0 * q.yy * n.y * m.y + q.yz * (n.y * m.z + n.z * m.y) + 2.0 * q.zz * n.z * m.z
  }

  /** A quadratic form has an exact central difference: its change from
      n - m to n + m is twice its derivative at n along m. */
  lemma {:induction false} QuadCentralDifference(q: Quadratic, n: Vec3, m: Vec3)
    ensures QuadAt(q, VAdd(n, m)) - QuadAt(q, VSub(n, m)) == 2.0 * QuadDeriv(q, n, m)
  {
    var p, r := VAdd(n, m), VSub(n, m);
    assert p.x * p.x - r.x * r.x == 4.0 * n.x * m.x;
    assert p.y * p.y - r.y * r.y == 4.0 * n.y * m.y;
    assert p.z * p.z - r.z * r.z == 4.0 * n.z * m.z;
    assert p.x * p.y - r.x * r.y == 2.0 * (n.x * m.y + n.y * m.x);
    assert p.x * p.z - r.x * r.z == 2.0 * (n.x * m.z + n.z * m.x);
    assert p.y * p.z - r.y * r.z == 2.0 * (n.y * m.z + n.z * m.y);
    QuadLinear(q, p, r);
  }

  lemma {:induction false} QuadLinear(q: Quadratic, p: Vec3, r: Vec3)
    ensures QuadAt(q, p) - QuadAt(q, r)
      == q.xx * (p.x * p.x - r.x * r.x) + q.xy * (p.x * p.y - r.x * r.y) + q.xz * (p.x * p.z - r.x * r.z)
       + q.yy * (p.y * p.y - r.y * r.y) + q.yz * (p.y * p.z - r.y * r.z) + q.zz * (p.z * p.z - r.z * r.z)
  {
  }

  // The six entries of the Christoffel matrix as quadratic forms.

  function Form11(a: Voigt): Quadratic { Quadratic(a.a11, 2.0 * a.a16, 2.0 * a.a15, a.a66, 2.0 * a.a56, a.a55) }
  function Form12(a: Voigt): Quadratic { Quadratic(a.a16, a.a12 + a.a66, a.a14 + a.a56, a.a26, a.a25 + a.a46, a.a45) }
  function Form13(a: Voigt): Quadratic { Quadratic(a.a15, a.a14 + a.a56, a.a13 + a.a55, a.a46, a.a36 + a.a45, a.a35) }
  function Form22(a: Voigt): Quadratic { Quadratic(a.a66, 2.0 * a.a26, 2.0 * a.a46, a.a22, 2.0 * a.a24, a.a44) }
  function Form23(a: Voigt): Quadratic { Quadratic(a.a56, a.a25 + a.a46, a.a36 + a.a45, a.a24, a.a23 + a.a44, a.a34) }
  function Form33(a: Voigt): Quadratic { Quadratic(a.a55, 2.0 * a.a45, 2.0 * a.a35, a.a44, 2.0 * a.a34, a.a33) }

  // Every entry of the Christoffel matrix is a quadratic form in n.

  lemma {:induction false} G11IsQuadratic(a: Voigt, n: Vec3)
    ensures G11(a, n) == QuadAt(Form11(a), n)
  {
  }

  lemma {:induction false} G12IsQuadratic(a: Voigt, n: Vec3)
    ensures G12(a, n) == QuadAt(Form12(a), n)
  {
  }

  lemma {:induction false} G13IsQuadratic(a: Voigt, n: Vec3)
    ensures G13(a, n) == QuadAt(Form13(a), n)
  {
  }

  lemma {:induction false} G22IsQuadratic(a: Voigt, n: Vec3)
    ensures G22(a, n) == QuadAt(Form22(a), n)
  {
  }

  lemma {:induction false} G23IsQuadratic(a: Voigt, n: Vec3)
    ensures G23(a, n) == QuadAt(Form23(a), n)
  {
  }

  lemma {:induction false} G33IsQuadratic(a: Voigt, n: Vec3)
    ensures G33(a, n) == QuadAt(Form33(a), n)
  {
  }

  /** The derivative of the Christoffel matrix at n along m. */
  function MatrixDeriv(a: Voigt, n: Vec3, m: Vec3): Sym3
  {
    Sym3(QuadDeriv(Form11(a), n, m), QuadDeriv(Form12(a), n, m), QuadDeriv(Form13(a), n, m),
         QuadDeriv(Form22(a), n, m), QuadDeriv(Form23(a), n, m), QuadDeriv(Form33(a), n, m))
  }

  /** The Christoffel matrix changes from n - m to n + m by exactly twice
      its derivative at n along m. */
  lemma {:induction false} MatrixCentralDifference(a: Voigt, n: Vec3, m: Vec3)
    ensures SSub(Matrix(a, VAdd(n, m)), Matrix(a, VSub(n, m))) == SScale(2.0, MatrixDeriv(a, n, m))
  {
    G11IsQuadratic(a, VAdd(n, m));
    G11IsQuadratic(a, VSub(n, m));
    G12IsQuadratic(a, VAdd(n, m));
    G12IsQuadratic(a, VSub(n, m));
    G13IsQuadratic(a, VAdd(n, m));
    G13IsQuadratic(a, VSub(n, m));
    G22IsQuadratic(a, VAdd(n, m));
    G22IsQuadratic(a, VSub(n, m));
    G23IsQuadratic(a, VAdd(n, m));
    G23IsQuadratic(a, VSub(n, m));
    G33IsQuadratic(a, VAdd(n, m));
    G33IsQuadratic(a, VSub(n, m));
    QuadCentralDifference(Form11(a), n, m);
    QuadCentralDifference(Form12(a), n, m);
    QuadCentralDifference(Form13(a), n, m);
    QuadCentralDifference(Form22(a), n, m);
    QuadCentralDifference(Form23(a), n, m);
    QuadCentralDifference(Form33(a), n, m);
  }

  // The characteristic cubic lambda^3 + B lambda^2 + C lambda + D of g:
  // bb, cc and dd in `vel`.

  function TraceCoeff(g: Sym3): real
  {
    -(g.g11 + g.g22 + g.g33)
  }

  function MinorCoeff(g: Sym3): real
  {
    g.g11 * g.g33 + g.g22 * g.g33 + g.g11 * g.g22 - g.g12 * g.g12 - g.g13 * g.g13 - g.g23 * g.g23
  }

  function DetCoeff(g: Sym3): real
  {
    g.g23 * g.g23 * g.g11 + g.g13 * g.g13 * g.g22 + g.g12 * g.g12 * g.g33 - g.g11 * g.g22 * g.g33
      - 2.0 * (g.g12 * g.g13 * g.g23)
  }

  /** The determinant by cofactor expansion along the first row. */
  function Det3(g: Sym3): real
  {
    g.g11 * (g.g22 * g.g33 - g.g23 * g.g23) - g.g12 * (g.g12 * g.g33 - g.g23 * g.g13)
      + g.g13 * (g.g12 * g.g23 - g.g22 * g.g13)
  }

  /** The constant coefficient is minus the determinant. */
  lemma {:induction false} DetCoeffIsMinusDet(g: Sym3)
    ensures DetCoeff(g) == -Det3(g)
  {
  }

  /** B, C and D are the coefficients of det(lambda I - g): the cubic's
      roots are the eigenvalues of the Christoffel matrix. */
  lemma {:induction false} CharacteristicPolynomial(g: Sym3, lam: real)
    ensures Det3(SSub(SDiag(lam), g))
         == lam * lam * lam + TraceCoeff(g) * lam * lam + MinorCoeff(g) * lam + DetCoeff(g)
  {
    ShiftedCofactors(g, lam);
    CofactorsInLambda(g, lam);
  }

  /** det(lam I - g) by the first row, each cofactor written in lam. */
  lemma {:induction false} ShiftedCofactors(g: Sym3, lam: real)
    ensures Det3(SSub(SDiag(lam), g))
         == (lam - g.g11) * (lam * lam - (g.g22 + g.g33) * lam + g.g22 * g.g33 - g.g23 * g.g23)
            + g.g12 * (-g.g12 * lam + g.g12 * g.g33 - g.g23 * g.g13)
            - g.g13 * (g.g12 * g.g23 + g.g13 * lam - g.g22 * g.g13)
  {
    var s := SSub(SDiag(lam), g);
    assert s.g22 * s.g33 - s.g23 * s.g23
        == lam * lam - (g.g22 + g.g33) * lam + g.g22 * g.g33 - g.g23 * g.g23;
    assert s.g12 * s.g33 - s.g23 * s.g13 == -g.g12 * lam + g.g12 * g.g33 - g.g23 * g.g13;
    assert s.g12 * s.g23 - s.g22 * s.g13 == g.g12 * g.g23 + g.g13 * lam - g.g22 * g.g13;
  }

  /** The first-row expansion, collected by powers of lam. */
  lemma {:induction false} CofactorsInLambda(g: Sym3, lam: real)
    ensures (lam - g.g11) * (lam * lam - (g.g22 + g.g33) * lam + g.g22 * g.g33 - g.g23 * g.g23)
            + g.g12 * (-g.g12 * lam + g.g12 * g.g33 - g.g23 * g.g13)
            - g.g13 * (g.g12 * g.g23 + g.g13 * lam - g.g22 * g.g13)
         == lam * lam * lam + TraceCoeff(g) * lam * lam + MinorCoeff(g) * lam + DetCoeff(g)
  {
  }

  // The derivatives of the coefficients along a change dg of the matrix:
  // the product rule applied to each term.

  function TraceCoeffDeriv(dg: Sym3): real
  {
    -(dg.g11 + dg.g22 + dg.g33)
  }

  function MinorCoeffDeriv(g: Sym3, dg: Sym3): real
  {
    dg.g11 * g.g33 + g.g11 * dg.g33 + dg.g22 * g.g33 + g.g22 * dg.g33 + dg.g11 * g.g22 + g.g11 * dg.g22
      - 2.0 * g.g12 * dg.g12 - 2.0 * g.g13 * dg.g13 - 2.0 * g.g23 * dg.g23
  }

  function DetCoeffDeriv(g: Sym3, dg: Sym3): real
  {
    ProductDeriv(g.g23, g.g23, g.g11, dg.g23, dg.g23, dg.g11)
      + ProductDeriv(g.g13, g.g13, g.g22, dg.g13, dg.g13, dg.g22)
      + ProductDeriv(g.g12, g.g12, g.g33, dg.g12, dg.g12, dg.g33)
      - ProductDeriv(g.g11, g.g22, g.g33, dg.g11, dg.g22, dg.g33)
      - 2.0 * ProductDeriv(g.g12, g.g13, g.g23, dg.g12, dg.g13, dg.g23)
  }

  /** The product rule for x y z. */
  function ProductDeriv(x: real, y: real, z: real, dx: real, dy: real, dz: real): real
  {
    dx * y * z + x * dy * z + x * y * dz
  }

  /** The central difference of a product of three factors. */
  lemma {:induction false} ProductCentralDifference(x: real, y: real, z: real, dx: real, dy: real, dz: real)
    ensures (x + dx) * (y + dy) * (z + dz) - (x - dx) * (y - dy) * (z - dz)
         == 2.0 * ProductDeriv(x, y, z, dx, dy, dz) + 2.0 * (dx * dy * dz)
  {
  }

  /** B is linear in g: its central difference is exact. */
  lemma {:induction false} TraceCoeffCentralDifference(g: Sym3, dg: Sym3)
    ensures TraceCoeff(SAdd(g, dg)) - TraceCoeff(SSub(g, dg)) == 2.0 * TraceCoeffDeriv(dg)
  {
  }

  /** C is quadratic in g: MinorCoeffDeriv is its exact central difference. */
  lemma {:induction false} MinorCoeffCentralDifference(g: Sym3, dg: Sym3)
    ensures MinorCoeff(SAdd(g, dg)) - MinorCoeff(SSub(g, dg)) == 2.0 * MinorCoeffDeriv(g, dg)
  {
    var p, r := SAdd(g, dg), SSub(g, dg);
    assert p.g11 * p.g33 - r.g11 * r.g33 == 2.0 * (dg.g11 * g.g33 + g.g11 * dg.g33);
    assert p.g22 * p.g33 - r.g22 * r.g33 == 2.0 * (dg.g22 * g.g33 + g.g22 * dg.g33);
    assert p.g11 * p.g22 - r.g11 * r.g22 == 2.0 * (dg.g11 * g.g22 + g.g11 * dg.g22);
    assert p.g12 * p.g12 - r.g12 * r.g12 == 4.0 * (g.g12 * dg.g12);
    assert p.g13 * p.g13 - r.g13 * r.g13 == 4.0 * (g.g13 * dg.g13);
    assert p.g23 * p.g23 - r.g23 * r.g23 == 4.0 * (g.g23 * dg.g23);
  }

  /** D is cubic in g: its central difference is twice DetCoeffDeriv plus
      the third-order remainder 2 D(dg). */
  lemma {:induction false} DetCoeffCentralDifference(g: Sym3, dg: Sym3)
    ensures DetCoeff(SAdd(g, dg)) - DetCoeff(SSub(g, dg)) == 2.0 * DetCoeffDeriv(g, dg) + 2.0 * DetCoeff(dg)
  {
    ProductCentralDifference(g.g23, g.g23, g.g11, dg.g23, dg.g23, dg.g11);
    ProductCentralDifference(g.g13, g.g13, g.g22, dg.g13, dg.g13, dg.g22);
    ProductCentralDifference(g.g12, g.g12, g.g33, dg.g12, dg.g12, dg.g33);
    ProductCentralDifference(g.g11, g.g22, g.g33, dg.g11, dg.g22, dg.g33);
    ProductCentralDifference(g.g12, g.g13, g.g23, dg.g12, dg.g13, dg.g23);
  }

  // The derivatives of B, C and D with respect to n_1, n_2, n_3.

  /** dbdn1, dbdn2, dbdn3 as `vel` writes them out. */
  function DbDn1(a: Voigt, n: Vec3): real
  {
    -2.0 * a.a11 * n.x - 2.0 * a.a15 * n.z - 2.0 * a.a16 * n.y - 2.0 * a.a26 * n.y - 2.0 * a.a35 * n.z
      - 2.0 * a.a45 * n.y - 2.0 * a.a46 * n.z - 2.0 * a.a55 * n.x - 2.0 * a.a66 * n.x
  }

  function DbDn2(a: Voigt, n: Vec3): real
  {
    -2.0 * a.a16 * n.x - 2.0 * a.a22 * n.y - 2.0 * a.a24 * n.z - 2.0 * a.a26 * n.x - 2.0 * a.a34 * n.z
      - 2.0 * a.a44 * n.y - 2.0 * a.a45 * n.x - 2.0 * a.a56 * n.z - 2.0 * a.a66 * n.y
  }

  function DbDn3(a: Voigt, n: Vec3): real
  {
    -2.0 * a.a15 * n.x - 2.0 * a.a24 * n.y - 2.0 * a.a33 * n.z - 2.0 * a.a34 * n.y - 2.0 * a.a35 * n.x
      - 2.0 * a.a44 * n.z - 2.0 * a.a46 * n.x - 2.0 * a.a55 * n.z - 2.0 * a.a56 * n.y
  }

  /** The written-out dbdn's are the chain rule through the Christoffel matrix. */
  lemma {:induction false} DbDnIsChainRule(a: Voigt, n: Vec3)
    ensures DbDn1(a, n) == TraceCoeffDeriv(MatrixDeriv(a, n, E1))
    ensures DbDn2(a, n) == TraceCoeffDeriv(MatrixDeriv(a, n, E2))
    ensures DbDn3(a, n) == TraceCoeffDeriv(MatrixDeriv(a, n, E3))
  {
  }

  /** The derivatives of B, C and D at n along m (m = E1, E2, E3 gives
      dbdn1 ... dddn3). */
  function DbDn(a: Voigt, n: Vec3, m: Vec3): real
  {
    TraceCoeffDeriv(MatrixDeriv(a, n, m))
  }

  function DcDn(a: Voigt, n: Vec3, m: Vec3): real
  {
    MinorCoeffDeriv(Matrix(a, n), MatrixDeriv(a, n, m))
  }

  function DdDn(a: Voigt, n: Vec3, m: Vec3): real
  {
    DetCoeffDeriv(Matrix(a, n), MatrixDeriv(a, n, m))
  }

  /** The source's dcdn1, dcdn2 and dcdn3, with each parenthesised factor
      named by the Christoffel entry or derivative entry it equals, are the
      product rule for C term by term: each is MinorCoeffDeriv(g, dg). */
  lemma {:induction false} DcDnExpansions(g: Sym3, dg: Sym3)
    ensures dg.g11 * g.g22
         + dg.g11 * g.g33
         - (2.0 * dg.g13) * g.g13
         - (2.0 * dg.g12) * g.g12
         + dg.g22 * g.g11
         + dg.g22 * g.g33
         + dg.g33 * g.g11
         + dg.g33 * g.g22
         - (2.0 * dg.g23) * g.g23
         == MinorCoeffDeriv(g, dg)
    ensures dg.g11 * g.g22
         + dg.g11 * g.g33
         + dg.g22 * g.g11
         + dg.g22 * g.g33
         - (2.0 * dg.g23) * g.g23
         - (2.0 * dg.g12) * g.g12
         + dg.g33 * g.g11
         + dg.g33 * g.g22
         - (2.0 * dg.g13) * g.g13
         == MinorCoeffDeriv(g, dg)
    ensures dg.g11 * g.g22
         + dg.g11 * g.g33
         + dg.g22 * g.g11
         + dg.g22 * g.g33
         + dg.g33 * g.g11
         + dg.g33 * g.g22
         - (2.0 * dg.g23) * g.g23
         - (2.0 * dg.g13) * g.g13
         - (2.0 * dg.g12) * g.g12
         == MinorCoeffDeriv(g, dg)
  {
  }

  /** The source's dddn1, dddn2 and dddn3, read the same way, are the
      product rule for D term by term: each is DetCoeffDeriv(g, dg). */
  lemma {:induction false} DdDnExpansions(g: Sym3, dg: Sym3)
    ensures (-dg.g11) * g.g22 * g.g33
         + dg.g11 * g.g23 * g.g23
         + (-dg.g13) * (2.0 * g.g12) * g.g23
         + (2.0 * dg.g13) * g.g13 * g.g22
         + (2.0 * dg.g12) * g.g12 * g.g33
         + (2.0 * dg.g12) * (-g.g13) * g.g23
         + dg.g22 * (-g.g11) * g.g33
         + dg.g22 * g.g13 * g.g13
         + dg.g33 * (-g.g11) * g.g22
         + dg.g33 * g.g12 * g.g12
         + dg.g23 * (-g.g13) * (2.0 * g.g12)
         + (2.0 * dg.g23) * g.g11 * g.g23
         == DetCoeffDeriv(g, dg)
    ensures (-dg.g11) * g.g22 * g.g33
         + dg.g11 * g.g23 * g.g23
         + dg.g22 * (-g.g11) * g.g33
         + dg.g22 * g.g13 * g.g13
         + dg.g23 * (-g.g13) * (2.0 * g.g12)
         + (2.0 * dg.g23) * g.g11 * g.g23
         + (2.0 * dg.g12) * (-g.g13) * g.g23
         + (2.0 * dg.g12) * g.g12 * g.g33
         + dg.g33 * (-g.g11) * g.g22
         + dg.g33 * g.g12 * g.g12
         + (-dg.g13) * (2.0 * g.g12) * g.g23
         + (2.0 * dg.g13) * g.g13 * g.g22
         == DetCoeffDeriv(g, dg)
    ensures (-dg.g11) * g.g22 * g.g33
         + dg.g11 * g.g23 * g.g23
         + dg.g22 * (-g.g11) * g.g33
         + dg.g22 * g.g13 * g.g13
         + dg.g33 * (-g.g11) * g.g22
         + dg.g33 * g.g12 * g.g12
         + dg.g23 * (-g.g13) * (2.0 * g.g12)
         + (2.0 * dg.g23) * g.g11 * g.g23
         + (-dg.g13) * (2.0 * g.g12) * g.g23
         + (2.0 * dg.g13) * g.g13 * g.g22
         + (2.0 * dg.g12) * g.g12 * g.g33
         + (2.0 * dg.g12) * (-g.g13) * g.g23
         == DetCoeffDeriv(g, dg)
  {
  }

  /** B as a function of the direction has an exact central difference,
      so dbdn along m is its derivative. */
  lemma {:induction false} DbDnCentralDifference(a: Voigt, n: Vec3, m: Vec3)
    ensures TraceCoeff(Matrix(a, VAdd(n, m))) - TraceCoeff(Matrix(a, VSub(n, m))) == 2.0 * DbDn(a, n, m)
  {
    MatrixCentralDifference(a, n, m);
  }

  /** A form's derivative along an axis scales with the step. */
  lemma {:induction false} QuadDerivAlongAxes(q: Quadratic, n: Vec3, h: real)
    ensures QuadDeriv(q, n, Vec3(h, 0.0, 0.0)) == h * QuadDeriv(q, n, E1)
    ensures QuadDeriv(q, n, Vec3(0.0, h, 0.0)) == h * QuadDeriv(q, n, E2)
    ensures QuadDeriv(q, n, Vec3(0.0, 0.0, h)) == h * QuadDeriv(q, n, E3)
  {
  }

  /** B's derivative along h e_l is h times dbdn_l. */
  lemma {:induction false} DbDnAlongAxes(a: Voigt, n: Vec3, h: real)
    ensures DbDn(a, n, Vec3(h, 0.0, 0.0)) == h * DbDn1(a, n)
    ensures DbDn(a, n, Vec3(0.0, h, 0.0)) == h * DbDn2(a, n)
    ensures DbDn(a, n, Vec3(0.0, 0.0, h)) == h * DbDn3(a, n)
  {
    QuadDerivAlongAxes(Form11(a), n, h);
    QuadDerivAlongAxes(Form22(a), n, h);
    QuadDerivAlongAxes(Form33(a), n, h);
    DbDnIsChainRule(a, n);
  }

  /** Along each axis, with step h, the central difference of B is 2 h
      times dbdn1, dbdn2 or dbdn3: the literal derivatives are the axis
      derivatives of B. */
  lemma {:induction false} DbDnAxisCentralDifference(a: Voigt, n: Vec3, h: real)
    ensures TraceCoeff(Matrix(a, VAdd(n, Vec3(h, 0.0, 0.0)))) - TraceCoeff(Matrix(a, VSub(n, Vec3(h, 0.0, 0.0))))
         == 2.0 * h * DbDn1(a, n)
    ensures TraceCoeff(Matrix(a, VAdd(n, Vec3(0.0, h, 0.0)))) - TraceCoeff(Matrix(a, VSub(n, Vec3(0.0, h, 0.0))))
         == 2.0 * h * DbDn2(a, n)
    ensures TraceCoeff(Matrix(a, VAdd(n, Vec3(0.0, 0.0, h)))) - TraceCoeff(Matrix(a, VSub(n, Vec3(0.0, 0.0, h))))
         == 2.0 * h * DbDn3(a, n)
  {
    DbDnCentralDifference(a, n, Vec3(h, 0.0, 0.0));
    DbDnCentralDifference(a, n, Vec3(0.0, h, 0.0));
    DbDnCentralDifference(a, n, Vec3(0.0, 0.0, h));
    DbDnAlongAxes(a, n, h);
  }
}
