/** The group velocity of one acoustic mode along a propagation direction:
    `vel`. The phase velocity squared of each mode is a root lambda of the
    characteristic cubic F(lambda) = lambda^3 + B lambda^2 + C lambda + D
    of the Christoffel matrix, and the group velocity is the gradient of
    the phase velocity sqrt(lambda) with respect to the direction, found by
    differentiating F(lambda(n)) = 0 implicitly. */
module GroupVelocity {
  import opened Christoffel
  import ComplexArith
  import CubicSolver

  datatype Option<T> = None | Some(value: T)

  /** The mode asked for: 'sol_1', 'sol_2' or 'sol_3'. */
  datatype Sol = Sol1 | Sol2 | Sol3

  /** How many distinct phase velocities `vel` sees (its nRoot): one
      triple root, a simple root and a double root, or three simple roots. */
  datatype Degeneracy = Triple | Double | Distinct

  /** The three roots c2 of the characteristic cubic (squared phase
      velocities, in the solver's order) and their square roots pv. */
  datatype Spectrum = Spectrum(lam0: real, lam1: real, lam2: real, pv0: real, pv1: real, pv2: real)

  function Lam(sp: Spectrum, k: nat): real
    requires k < 3
  {
    if k == 0 then sp.lam0 else if k == 1 then sp.lam1 else sp.lam2
  }

  function Pv(sp: Spectrum, k: nat): real
    requires k < 3
  {
    if k == 0 then sp.pv0 else if k == 1 then sp.pv1 else sp.pv2
  }

  /** lam0, lam1 and lam2 are the three roots of F(lam) = lam^3 + b lam^2
      + c lam + d, counted with multiplicity: their sum, the sum of their
      pairwise products and their product are -b, c and -d. */
  predicate RootsOf(b: real, c: real, d: real, sp: Spectrum)
  {
    && sp.lam0 + sp.lam1 + sp.lam2 == -b
    && sp.lam0 * sp.lam1 + sp.lam0 * sp.lam2 + sp.lam1 * sp.lam2 == c
    && sp.lam0 * sp.lam1 * sp.lam2 == -d
  }

  /** r is the non-negative square root of x. */
  predicate IsSquareRoot(r: real, x: real)
  {
    0.0 <= r && r * r == x
  }

  /** sp is a spectrum of the symmetric matrix g: its lams are the roots of
      g's characteristic cubic and each pv is the non-negative square root
      of its lam. */
  predicate SpectrumOf(g: Sym3, sp: Spectrum)
  {
    && RootsOf(TraceCoeff(g), MinorCoeff(g), DetCoeff(g), sp)
    && IsSquareRoot(sp.pv0, sp.lam0) && IsSquareRoot(sp.pv1, sp.lam1) && IsSquareRoot(sp.pv2, sp.lam2)
  }

  /** What the solver gives in the direction n for the coefficients a: the
      spectrum of the Christoffel matrix. */
  predicate IsSpectrum(a: Voigt, n: Vec3, sp: Spectrum)
  {
    SpectrumOf(Matrix(a, n), sp)
  }

  /** F vanishes at each of the roots named by Vieta's formulas. */
  lemma {:induction false} VietaRoots(b: real, c: real, d: real, sp: Spectrum, k: nat)
    requires RootsOf(b, c, d, sp) && k < 3
    ensures CubicDeriv(0, b, c, d, Lam(sp, k)) == 0.0
  {
    var t, x, y, z := Lam(sp, k), sp.lam0, sp.lam1, sp.lam2;
    assert (t - x) * (t - y) == t * t - (x + y) * t + x * y;
    assert (t * t - (x + y) * t + x * y) * (t - z)
        == t * t * t - (x + y + z) * t * t + (x * y + x * z + y * z) * t - x * y * z;
    assert (t - x) * (t - y) * (t - z) == 0.0;
  }

  /** Every root of a spectrum of g is an eigenvalue of g:
      det(lam I - g) = 0. */
  lemma {:induction false} SpectrumRootsAreEigenvalues(g: Sym3, sp: Spectrum, k: nat)
    requires SpectrumOf(g, sp) && k < 3
    ensures Det3(SSub(SDiag(Lam(sp, k)), g)) == 0.0
  {
    CharacteristicPolynomial(g, Lam(sp, k));
    RootOfCubicValue(Det3(SSub(SDiag(Lam(sp, k)), g)), TraceCoeff(g), MinorCoeff(g), DetCoeff(g), sp, k);
  }

  /** A value equal to F(t), with t one of the roots Vieta's formulas
      name, is zero. */
  lemma {:induction false} RootOfCubicValue(v: real, b: real, c: real, d: real, sp: Spectrum, k: nat)
    requires RootsOf(b, c, d, sp) && k < 3
    requires v == Lam(sp, k) * Lam(sp, k) * Lam(sp, k) + b * Lam(sp, k) * Lam(sp, k) + c * Lam(sp, k) + d
    ensures v == 0.0
  {
    VietaRoots(b, c, d, sp, k);
  }

  /** Three real values whose sum, pairwise-product sum and product, as
      complex numbers, are -b, c and -d are the roots of F named by
      Vieta's formulas. */
  lemma {:induction false} RealRootsOf(b: real, c: real, d: real, x0: ComplexArith.Complex,
      x1: ComplexArith.Complex, x2: ComplexArith.Complex, sp: Spectrum)
    requires ComplexArith.Add(ComplexArith.Add(x0, x1), x2) == ComplexArith.FromReal(-b)
    requires CubicSolver.PairSum(x0, x1, x2) == ComplexArith.FromReal(c)
    requires CubicSolver.Product(x0, x1, x2) == ComplexArith.FromReal(-d)
    requires x0.im == 0.0 && x1.im == 0.0 && x2.im == 0.0
    requires sp.lam0 == x0.re && sp.lam1 == x1.re && sp.lam2 == x2.re
    ensures RootsOf(b, c, d, sp)
  {
    var p01 := ComplexArith.Mul(x0, x1);
    assert p01 == ComplexArith.FromReal(sp.lam0 * sp.lam1);
    assert ComplexArith.Mul(x0, x2) == ComplexArith.FromReal(sp.lam0 * sp.lam2);
    assert ComplexArith.Mul(x1, x2) == ComplexArith.FromReal(sp.lam1 * sp.lam2);
    assert ComplexArith.Mul(p01, x2) == ComplexArith.FromReal(sp.lam0 * sp.lam1 * sp.lam2);
  }

  /** What the program's solver returns above its cut-off (three values
      with sum -B, pairwise-product sum C and product -D, see
      CubicSolver.UnaryCubicEquation) is, when the values are real and
      each pv is the non-negative square root of its value, a spectrum of
      g: the link between that solver and the spectrum the sweeps take. */
  lemma {:induction false} SolverRootsAreSpectrum(g: Sym3, x0: ComplexArith.Complex, x1: ComplexArith.Complex,
      x2: ComplexArith.Complex, sp: Spectrum)
    requires ComplexArith.Add(ComplexArith.Add(x0, x1), x2) == ComplexArith.FromReal(-TraceCoeff(g))
    requires CubicSolver.PairSum(x0, x1, x2) == ComplexArith.FromReal(MinorCoeff(g))
    requires CubicSolver.Product(x0, x1, x2) == ComplexArith.FromReal(-DetCoeff(g))
    requires x0.im == 0.0 && x1.im == 0.0 && x2.im == 0.0
    requires sp.lam0 == x0.re && sp.lam1 == x1.re && sp.lam2 == x2.re
    requires IsSquareRoot(sp.pv0, sp.lam0) && IsSquareRoot(sp.pv1, sp.lam1) && IsSquareRoot(sp.pv2, sp.lam2)
    ensures SpectrumOf(g, sp)
  {
    RealRootsOf(TraceCoeff(g), MinorCoeff(g), DetCoeff(g), x0, x1, x2, sp);
  }

  /** Two phase velocities closer than this are taken as equal. */
  const Eps: real := 0.0000001

  function Abs(x: real): (r: real)
    ensures r >= 0.0 && (r == x || r == -x)
  {
    if x < 0.0 then -x else x
  }

  /** The degeneracy of the roots by their square roots pv: only the second
      and third are compared first, and the first only against the third. */
  function Classify(sp: Spectrum): (d: Degeneracy)
  {
    if Abs(sp.pv1 - sp.pv2) < Eps then
      if Abs(sp.pv0 - sp.pv2) < Eps then Triple else Double
    else
      Distinct
  }

  /** Each degeneracy says which phase velocities are within Eps of each other. */
  lemma {:induction false} ClassifyCases(sp: Spectrum)
    ensures Classify(sp) == Triple <==> Abs(sp.pv1 - sp.pv2) < Eps && Abs(sp.pv0 - sp.pv2) < Eps
    ensures Classify(sp) == Double <==> Abs(sp.pv1 - sp.pv2) < Eps && Abs(sp.pv0 - sp.pv2) >= Eps
    ensures Classify(sp) == Distinct <==> Abs(sp.pv1 - sp.pv2) >= Eps
  {
  }

  /** A triple root puts all three phase velocities within 2 Eps of each other. */
  lemma {:induction false} TripleIsClose(sp: Spectrum)
    requires Classify(sp) == Triple
    ensures Abs(sp.pv0 - sp.pv1) < 2.0 * Eps
  {
  }

  // The cubic F and its derivatives in lambda, and the derivatives of
  // those along a change (dB, dC, dD) of the coefficients.

  /** The order-th derivative of F in lambda. */
  function CubicDeriv(order: nat, b: real, c: real, d: real, lam: real): real
    requires order <= 3
  {
    match order
    case 0 => lam * lam * lam + b * lam * lam + c * lam + d
    case 1 => 3.0 * lam * lam + 2.0 * b * lam + c
    case 2 => 6.0 * lam + 2.0 * b
    case 3 => 6.0
  }

  /** The change of the order-th derivative of F when the coefficients
      change by (db, dc, dd). */
  function CoeffDeriv(order: nat, db: real, dc: real, dd: real, lam: real): real
    requires order <= 2
  {
    match order
    case 0 => lam * lam * db + lam * dc + dd
    case 1 => 2.0 * lam * db + dc
    case 2 => 2.0 * db
  }

  /** Each CubicDeriv is the exact central difference of the one before,
      up to the third-order remainder of a cubic. */
  lemma {:induction false} CubicDerivCentralDifference(b: real, c: real, d: real, lam: real, h: real)
    ensures CubicDeriv(0, b, c, d, lam + h) - CubicDeriv(0, b, c, d, lam - h)
         == 2.0 * h * CubicDeriv(1, b, c, d, lam) + 2.0 * h * h * h
    ensures CubicDeriv(1, b, c, d, lam + h) - CubicDeriv(1, b, c, d, lam - h) == 2.0 * h * CubicDeriv(2, b, c, d, lam)
    ensures CubicDeriv(2, b, c, d, lam + h) - CubicDeriv(2, b, c, d, lam - h) == 2.0 * h * CubicDeriv(3, b, c, d, lam)
  {
    assert (lam + h) * (lam + h) * (lam + h) - (lam - h) * (lam - h) * (lam - h) == 6.0 * lam * lam * h + 2.0 * h * h * h;
    assert (lam + h) * (lam + h) - (lam - h) * (lam - h) == 4.0 * lam * h;
  }

  /** Each CoeffDeriv is the change of CubicDeriv under a change of the
      coefficients (F is linear in them). */
  lemma {:induction false} CoeffDerivIsChange(order: nat, b: real, c: real, d: real, db: real, dc: real, dd: real, lam: real)
    requires order <= 2
    ensures CubicDeriv(order, b + db, c + dc, d + dd, lam) - CubicDeriv(order, b, c, d, lam)
         == CoeffDeriv(order, db, dc, dd, lam)
  {
  }

  /** Which root and which derivative order the velocity of a mode comes
      from: a simple root uses F', the double root F'' and the triple root
      F''' (l'Hopital's rule applied to the implicit derivative). */
  datatype Branch = Branch(root: nat, order: nat)

  function BranchOf(deg: Degeneracy, sol: Sol): (br: Branch)
    ensures br.root < 3 && 1 <= br.order <= 3
    ensures deg == Distinct ==> br.order == 1
    ensures deg == Triple ==> br == Branch(0, 3)
  {
    match deg
    case Triple => Branch(0, 3)
    case Double =>
      (match sol
       case Sol1 => Branch(0, 1)
       case Sol2 => Branch(1, 2)
       case Sol3 => Branch(2, 2))
    case Distinct =>
      (match sol
       case Sol1 => Branch(0, 1)
       case Sol2 => Branch(1, 1)
       case Sol3 => Branch(2, 1))
  }

  /** The velocity component -num / den, or nothing when den is zero. */
  function Quotient(num: real, den: real): (q: Option<real>)
    ensures q.None? <==> den == 0.0
    ensures q.Some? ==> q.value * den == -num
  {
    if den == 0.0 then None else Some(-num / den)
  }

  /** d(lambda)/d(pv) times the derivative f of F: the factor 2 pv f that
      turns a derivative of lambda into one of pv = sqrt(lambda). */
  function ChainFactor(pv: real, f: real): real
  {
    2.0 * pv * f
  }

  /** v times den is -num, component by component: the implicit
      derivative relation a velocity must satisfy. */
  predicate Solves(v: Vec3, den: real, num: Vec3)
  {
    v.x * den == -num.x && v.y * den == -num.y && v.z * den == -num.z
  }

  function Components(x: Option<real>, y: Option<real>, z: Option<real>): Option<Vec3>
  {
    if x.Some? && y.Some? && z.Some? then Some(Vec3(x.value, y.value, z.value)) else None
  }

  /** `vel`: the group velocity of mode sol in direction n for the
      normalised stiffness a, given the roots of its characteristic cubic
      and their square roots. The result is None when the denominator
      of the source's quotient is zero. */
  function Vel(a: Voigt, n: Vec3, sp: Spectrum, sol: Sol): (r: Option<Vec3>)
    ensures
      var br := BranchOf(Classify(sp), sol);
      var g := Matrix(a, n);
      var den := ChainFactor(Pv(sp, br.root), CubicDeriv(br.order, TraceCoeff(g), MinorCoeff(g), DetCoeff(g), Lam(sp, br.root)));
      && (r.None? <==> den == 0.0)
      && (r.Some? ==> Solves(r.value, den, Vec3(
            CoeffDeriv(br.order - 1, DbDn1(a, n), DcDn(a, n, E1), DdDn(a, n, E1), Lam(sp, br.root)),
            CoeffDeriv(br.order - 1, DbDn2(a, n), DcDn(a, n, E2), DdDn(a, n, E2), Lam(sp, br.root)),
            CoeffDeriv(br.order - 1, DbDn3(a, n), DcDn(a, n, E3), DdDn(a, n, E3), Lam(sp, br.root)))))
  {
    var g := Matrix(a, n);
    var bb, cc := TraceCoeff(g), MinorCoeff(g);
    var dB := Vec3(DbDn1(a, n), DbDn2(a, n), DbDn3(a, n));
    var dC := Vec3(DcDn(a, n, E1), DcDn(a, n, E2), DcDn(a, n, E3));
    var dD := Vec3(DdDn(a, n, E1), DdDn(a, n, E2), DdDn(a, n, E3));
    DerivIgnoresConstant(bb, cc, DetCoeff(g), sp.lam0);
    DerivIgnoresConstant(bb, cc, DetCoeff(g), sp.lam1);
    DerivIgnoresConstant(bb, cc, DetCoeff(g), sp.lam2);
    match Classify(sp)
    case Triple =>
      var den := 6.0 * sp.pv0;
      Components(Quotient(dB.x, den), Quotient(dB.y, den), Quotient(dB.z, den))
    case Double =>
      (match sol
       case Sol1 => SimpleRoot(sp.lam0, sp.pv0, bb, cc, dB, dC, dD)
       case Sol2 => DoubleRoot(sp.lam1, sp.pv1, bb, dB, dC)
       case Sol3 => DoubleRoot(sp.lam2, sp.pv2, bb, dB, dC))
    case Distinct =>
      (match sol
       case Sol1 => SimpleRoot(sp.lam0, sp.pv0, bb, cc, dB, dC, dD)
       case Sol2 => SimpleRoot(sp.lam1, sp.pv1, bb, cc, dB, dC, dD)
       case Sol3 => SimpleRoot(sp.lam2, sp.pv2, bb, cc, dB, dC, dD))
  }

  lemma {:induction false} DerivIgnoresConstant(b: real, c: real, d: real, lam: real)
    ensures CubicDeriv(1, b, c, d, lam) == CubicDeriv(1, b, c, 0.0, lam)
    ensures CubicDeriv(2, b, c, d, lam) == CubicDeriv(2, b, 0.0, 0.0, lam)
  {
  }

  /** The velocity from a simple root c2 with square root pv:
      -(c2^2 dB + c2 dC + dD) / (2 pv (3 c2^2 + 2 B c2 + C)). */
  function SimpleRoot(c2: real, pv: real, bb: real, cc: real, dB: Vec3, dC: Vec3, dD: Vec3): (r: Option<Vec3>)
    ensures
      var den := ChainFactor(pv, CubicDeriv(1, bb, cc, 0.0, c2));
      && (r.None? <==> den == 0.0)
      && (r.Some? ==> Solves(r.value, den, Vec3(
            CoeffDeriv(0, dB.x, dC.x, dD.x, c2), CoeffDeriv(0, dB.y, dC.y, dD.y, c2), CoeffDeriv(0, dB.z, dC.z, dD.z, c2))))
  {
    var c4 := c2 * c2;
    var den := 2.0 * pv * (3.0 * c4 + 2.0 * bb * c2 + cc);
    Components(Quotient(c4 * dB.x + c2 * dC.x + dD.x, den),
               Quotient(c4 * dB.y + c2 * dC.y + dD.y, den),
               Quotient(c4 * dB.z + c2 * dC.z + dD.z, den))
  }

  /** The velocity from the double root c2 with square root pv:
      -(2 c2 dB + dC) / (4 pv (3 c2 + B)). */
  function DoubleRoot(c2: real, pv: real, bb: real, dB: Vec3, dC: Vec3): (r: Option<Vec3>)
    ensures
      var den := ChainFactor(pv, CubicDeriv(2, bb, 0.0, 0.0, c2));
      && (r.None? <==> den == 0.0)
      && (r.Some? ==> Solves(r.value, den, Vec3(
            CoeffDeriv(1, dB.x, dC.x, 0.0, c2), CoeffDeriv(1, dB.y, dC.y, 0.0, c2), CoeffDeriv(1, dB.z, dC.z, 0.0, c2))))
  {
    var den := 4.0 * pv * (3.0 * c2 + bb);
    Components(Quotient(2.0 * c2 * dB.x + dC.x, den),
               Quotient(2.0 * c2 * dB.y + dC.y, den),
               Quotient(2.0 * c2 * dB.z + dC.z, den))
  }

  /** At a triple root every mode has the same velocity -dB / (6 pv). */
  lemma {:induction false} TripleRootSharedVelocity(a: Voigt, n: Vec3, sp: Spectrum, sol: Sol)
    requires Classify(sp) == Triple
    ensures Vel(a, n, sp, sol) == Vel(a, n, sp, Sol1)
    ensures sp.pv0 != 0.0 ==>
      Vel(a, n, sp, sol) == Some(Vec3(-DbDn1(a, n) / (6.0 * sp.pv0), -DbDn2(a, n) / (6.0 * sp.pv0), -DbDn3(a, n) / (6.0 * sp.pv0)))
  {
  }

  /** An exact double eigenvalue lam1 = lam2 has a single non-negative
      square root, so the tolerance test never calls it Distinct, and
      sol_2 and sol_3 get the same velocity whether it is classed as a
      double or a triple root. */
  lemma {:induction false} DoubleRootSharedVelocity(a: Voigt, n: Vec3, sp: Spectrum)
    requires sp.lam1 == sp.lam2
    requires IsSquareRoot(sp.pv1, sp.lam1) && IsSquareRoot(sp.pv2, sp.lam2)
    ensures sp.pv1 == sp.pv2 && Classify(sp) != Distinct
    ensures Vel(a, n, sp, Sol2) == Vel(a, n, sp, Sol3)
  {
    SquareRootUnique(sp.pv1, sp.pv2, sp.lam1);
    if Classify(sp) == Triple {
      TripleRootSharedVelocity(a, n, sp, Sol2);
      TripleRootSharedVelocity(a, n, sp, Sol3);
    }
  }

  /** A non-negative real has one non-negative square root. */
  lemma {:induction false} SquareRootUnique(r: real, s: real, x: real)
    requires IsSquareRoot(r, x) && IsSquareRoot(s, x)
    ensures r == s
  {
    assert (r - s) * (r + s) == 0.0;
    if r + s == 0.0 {
      assert r == 0.0 && s == 0.0;
    }
  }
}
