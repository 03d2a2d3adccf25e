/** The closed-form (Cardano) solver for the monic cubic
    x^3 + B x^2 + C x + D = 0 used by the group-velocity engine.

    Python's `cmath.sqrt` and the complex power `** (1.0 / 3.0)` are
    transcendental; they are parameters here, constrained only by what
    they compute: a square root squares back, a cube root cubes back.
    Nothing below depends on which branch of either root is returned. */
module CubicSolver {
  import opened ComplexArith

  /** `csqrt(x)` is a complex square root of the real `x`. */
  ghost predicate IsComplexSqrt(csqrt: real -> Complex)
  {
    forall x: real {:trigger csqrt(x)} :: Mul(csqrt(x), csqrt(x)) == FromReal(x)
  }

  /** `cbrt(z)` is a complex cube root of `z`. */
  ghost predicate IsCubeRoot(cbrt: Complex -> Complex)
  {
    forall z: Complex {:trigger cbrt(z)} :: Cube(cbrt(z)) == z
  }

  /** P and Q of the depressed form: x = y - B/3 turns the cubic into
      y^3 + 3 Q y - 2 P. */
  function PTerm(B: real, C: real, D: real): real
  {
    B * C / 6.0 - B * B * B / 27.0 - 0.5 * D
  }

  function QTerm(B: real, C: real): real
  {
    (3.0 * C - B * B) / 9.0
  }

  /** The two candidates P + sqrt(P^2 + Q^3) and P - sqrt(P^2 + Q^3)
      for the cube of the first Cardano term. */
  function Radicand(B: real, C: real, D: real, sq: Complex, plus: bool): Complex
  {
    if plus then Add(FromReal(PTerm(B, C, D)), sq) else Sub(FromReal(PTerm(B, C, D)), sq)
  }

  /** The square root taken in the solver, of P^2 + Q^3. */
  function Discriminant(B: real, C: real, D: real): real
  {
    PTerm(B, C, D) * PTerm(B, C, D) + QTerm(B, C) * QTerm(B, C) * QTerm(B, C)
  }

  /** The value of x^3 + B x^2 + C x + D at a complex point. */
  function CubicAt(B: real, C: real, D: real, x: Complex): Complex
  {
    Add(Add(Add(Cube(x), Mul(FromReal(B), Mul(x, x))), Mul(FromReal(C), x)), FromReal(D))
  }

  /** `complex(-0.5, c)` with a complex `c`: Python adds i*c, so the
      imaginary part of `c` moves into the real part. */
  function Omega(c: Complex): Complex
  {
    Complex(-0.5 - c.im, c.re)
  }

  /** The root of unity built from a square root of 0.75 is a primitive
      cube root of unity: its cube is 1 and 1 + w + w^2 = 0. */
  lemma {:induction false} OmegaIsCubeRootOfUnity(c: Complex)
    requires Mul(c, c) == FromReal(0.75)
    ensures Cube(Omega(c)) == FromReal(1.0)
    ensures Add(Add(FromReal(1.0), Omega(c)), Mul(Omega(c), Omega(c))) == Zero
    ensures Cube(Mul(Omega(c), Omega(c))) == FromReal(1.0)
  {
    SqrtOfThreeQuartersIsReal(c);
    var w := Omega(c);
    assert w == Complex(-0.5, c.re);
    assert c.re * c.re == 0.75;
    assert Mul(w, w) == Complex(-0.5, -c.re);
    CubeMul(w, w);
    assert Mul(FromReal(1.0), FromReal(1.0)) == FromReal(1.0);
  }

  lemma {:induction false} SqrtOfThreeQuartersIsReal(c: Complex)
    requires Mul(c, c) == FromReal(0.75)
    ensures c.im == 0.0
  {
    var r, i := c.re, c.im;
    assert r * r - i * i == 0.75;
    assert r * i + i * r == 0.0;
    if i != 0.0 {
      assert false;
    }
  }

  /** Substituting x = y - B/3 removes the quadratic term. */
  lemma {:induction false} Depress(B: real, C: real, D: real, y: Complex)
    ensures CubicAt(B, C, D, Add(FromReal(-B / 3.0), y))
         == Sub(Add(Cube(y), Mul(FromReal(3.0 * QTerm(B, C)), y)), FromReal(2.0 * PTerm(B, C, D)))
  {
    DepressComponents(B, C, D, y);
    var q := Mul(FromReal(3.0 * QTerm(B, C)), y);
    assert q.re == 3.0 * QTerm(B, C) * y.re && q.im == 3.0 * QTerm(B, C) * y.im;
  }

  lemma {:induction false} DepressComponents(B: real, C: real, D: real, y: Complex)
    ensures CubicAt(B, C, D, Add(FromReal(-B / 3.0), y)).re
         == Cube(y).re + 3.0 * QTerm(B, C) * y.re - 2.0 * PTerm(B, C, D)
    ensures CubicAt(B, C, D, Add(FromReal(-B / 3.0), y)).im
         == Cube(y).im + 3.0 * QTerm(B, C) * y.im
  {
    var x := Add(FromReal(-B / 3.0), y);
    var lhs := CubicAt(B, C, D, x);
    assert lhs.re == Cube(x).re + B * Mul(x, x).re + C * x.re + D;
    assert lhs.im == Cube(x).im + B * Mul(x, x).im + C * x.im;
    DepressParts(B, C, D, y.re, y.im, x.re, Mul(x, x).re, Mul(x, x).im, Cube(x).re, Cube(x).im,
                 Mul(y, y).re, Mul(y, y).im, Cube(y).re, Cube(y).im);
  }

  /** The depressed-cubic identity on real and imaginary parts. */
  lemma {:induction false} DepressParts(B: real, C: real, D: real, a: real, b: real,
      xr: real, x2r: real, x2i: real, x3r: real, x3i: real, y2r: real, y2i: real, y3r: real, y3i: real)
    requires xr == -B / 3.0 + a
    requires x2r == xr * xr - b * b && x2i == xr * b + b * xr
    requires x3r == x2r * xr - x2i * b && x3i == x2r * b + x2i * xr
    requires y2r == a * a - b * b && y2i == a * b + b * a
    requires y3r == y2r * a - y2i * b && y3i == y2r * b + y2i * a
    ensures x3r + B * x2r + C * xr + D == y3r + 3.0 * QTerm(B, C) * a - 2.0 * PTerm(B, C, D)
    ensures x3i + B * x2i + C * b == y3i + 3.0 * QTerm(B, C) * b
  {
  }

  /** Cardano's identity: if a b = -Q and a^3 + b^3 = 2 P then a + b is a
      root of y^3 + 3 Q y - 2 P. */
  lemma {:induction false} CardanoIdentity(a: Complex, b: Complex, P: real, Q: real)
    requires Mul(a, b) == FromReal(-Q)
    requires Add(Cube(a), Cube(b)) == FromReal(2.0 * P)
    ensures Sub(Add(Cube(Add(a, b)), Mul(FromReal(3.0 * Q), Add(a, b))), FromReal(2.0 * P)) == Zero
  {
    var s := Add(a, b);
    CubeOfSum(a, b);
    var t := Mul(Mul(a, b), s);
    assert t == Mul(FromReal(-Q), s);
    assert Cube(s) == Add(FromReal(2.0 * P), Mul(FromReal(3.0), t));
  }

  /** The binomial cube (a + b)^3 = a^3 + b^3 + 3 a b (a + b). */
  lemma {:induction false} CubeOfSum(a: Complex, b: Complex)
    ensures Cube(Add(a, b)) == Add(Add(Cube(a), Cube(b)), Mul(FromReal(3.0), Mul(Mul(a, b), Add(a, b))))
  {
    var s, p := Add(a, b), Mul(a, b);
    var aa, bb := Mul(a, a), Mul(b, b);
    // (a + b)^2 = a^2 + b^2 + 2 a b
    MulAddRight(a, b, s);
    MulAddDistr(a, a, b);
    MulAddDistr(b, a, b);
    MulComm(b, a);
    assert Mul(s, s) == Add(Add(aa, bb), Add(p, p));
    // times (a + b), term by term
    MulAddRight(Add(aa, bb), Add(p, p), s);
    MulAddRight(aa, bb, s);
    MulAddRight(p, p, s);
    MulAddDistr(aa, a, b);
    MulAddDistr(bb, a, b);
    MulAddDistr(p, a, b);
    // a^2 b = (a b) a and b^2 a = (a b) b
    MulAssoc(a, a, b);
    MulComm(a, p);
    MulAssoc(b, b, a);
    MulComm(b, p);
    var t := Mul(p, s);
    assert Cube(s) == Add(Add(Cube(a), Cube(b)), Add(Add(t, t), t));
  }

  /** Rotating both halves by conjugate roots of unity keeps the
      Cardano conditions. */
  lemma {:induction false} RotatePair(u: Complex, v: Complex, w: Complex, w2: Complex)
    requires Cube(w) == FromReal(1.0) && Cube(w2) == FromReal(1.0)
    requires Mul(w, w2) == FromReal(1.0)
    ensures Mul(Mul(u, w), Mul(v, w2)) == Mul(u, v)
    ensures Cube(Mul(u, w)) == Cube(u) && Cube(Mul(v, w2)) == Cube(v)
  {
    MulSquareTimes(u, w, v, w2);
    CubeMul(u, w);
    CubeMul(v, w2);
  }

  /** The sum of the pairwise products of three values: the coefficient
      of x in (x - x0)(x - x1)(x - x2). */
  function PairSum(x0: Complex, x1: Complex, x2: Complex): Complex
  {
    Add(Add(Mul(x0, x1), Mul(x0, x2)), Mul(x1, x2))
  }

  function Product(x0: Complex, x1: Complex, x2: Complex): Complex
  {
    Mul(Mul(x0, x1), x2)
  }

  /** Shifting three values that sum to zero by c: the pairwise sum gains
      3 c^2 ... */
  lemma {:induction false} ShiftedPairSum(c: Complex, y0: Complex, y1: Complex, y2: Complex)
    requires Add(Add(y0, y1), y2) == Zero
    ensures PairSum(Add(c, y0), Add(c, y1), Add(c, y2))
         == Add(Add(Add(Mul(c, c), Mul(c, c)), Mul(c, c)), PairSum(y0, y1, y2))
  {
    var p01, p02, p12 := Add(y0, y1), Add(y0, y2), Add(y1, y2);
    ShiftMul(c, y0, y1);
    ShiftMul(c, y0, y2);
    ShiftMul(c, y1, y2);
    MulAddDistr(c, p01, p02);
    MulAddDistr(c, Add(p01, p02), p12);
    assert Add(Add(p01, p02), p12) == Zero;
    MulZero(c);
  }

  /** ... and the product gains c^3 + c times the pairwise sum. */
  lemma {:induction false} ShiftedProduct(c: Complex, y0: Complex, y1: Complex, y2: Complex)
    requires Add(Add(y0, y1), y2) == Zero
    ensures Product(Add(c, y0), Add(c, y1), Add(c, y2))
         == Add(Add(Mul(Mul(c, c), c), Mul(c, PairSum(y0, y1, y2))), Product(y0, y1, y2))
  {
    var cc, p, q := Mul(c, c), Add(y0, y1), Mul(y0, y1);
    var x := Add(Add(cc, Mul(c, p)), q);
    ShiftMul(c, y0, y1);
    MulAddDistr(x, c, y2);
    MulAddRight(Add(cc, Mul(c, p)), q, c);
    MulAddRight(cc, Mul(c, p), c);
    MulAddRight(Add(cc, Mul(c, p)), q, y2);
    MulAddRight(cc, Mul(c, p), y2);
    // c^2 (y0 + y1) + c^2 y2 = 0
    assert Mul(Mul(c, p), c) == Mul(cc, p) by {
      MulComm(Mul(c, p), c);
      MulAssoc(c, c, p);
    }
    MulAddDistr(cc, p, y2);
    MulZero(cc);
    // y0 y1 c + c (y0 + y1) y2 = c (y0 y1 + y0 y2 + y1 y2)
    MulComm(q, c);
    MulAssoc(c, p, y2);
    MulAddRight(y0, y1, y2);
    MulAddDistr(c, Mul(y0, y2), Mul(y1, y2));
    MulAddDistr(c, q, Add(Mul(y0, y2), Mul(y1, y2)));
  }

  /** The values m, -m/2 + t and -m/2 - t sum to zero; their pairwise sum
      is -3/4 m^2 - t^2 and the product of the last two is m^2/4 - t^2. */
  lemma {:induction false} SplitSymmetric(m: Complex, t: Complex)
    ensures Add(Add(m, Add(Mul(FromReal(-0.5), m), t)), Sub(Mul(FromReal(-0.5), m), t)) == Zero
    ensures PairSum(m, Add(Mul(FromReal(-0.5), m), t), Sub(Mul(FromReal(-0.5), m), t))
         == Sub(Mul(FromReal(-0.75), Mul(m, m)), Mul(t, t))
    ensures Mul(Add(Mul(FromReal(-0.5), m), t), Sub(Mul(FromReal(-0.5), m), t))
         == Sub(Mul(FromReal(0.25), Mul(m, m)), Mul(t, t))
  {
    var h := Mul(FromReal(-0.5), m);
    var y1, y2 := Add(h, t), Sub(h, t);
    // (h + t)(h - t) = h^2 - t^2 and h^2 = m^2 / 4
    MulAddRight(h, t, y2);
    MulSubDistr(h, h, t);
    MulSubDistr(t, h, t);
    MulComm(h, t);
    MulSquare(FromReal(-0.5), m);
    // m y1 + m y2 = m (y1 + y2) = -m^2
    MulAddDistr(m, y1, y2);
    assert Add(y1, y2) == Neg(m);
    MulNeg(m, m);
  }

  /** With w = -1/2 + i r, u w + v w^2 and u w^2 + v w are -(u + v)/2
      plus and minus i r (u - v). */
  lemma {:induction false} RotatedHalves(u: Complex, v: Complex, r: real)
    ensures Add(Mul(u, Complex(-0.5, r)), Mul(v, Complex(-0.5, -r)))
         == Add(Mul(FromReal(-0.5), Add(u, v)), Mul(Complex(0.0, r), Sub(u, v)))
    ensures Add(Mul(u, Complex(-0.5, -r)), Mul(v, Complex(-0.5, r)))
         == Sub(Mul(FromReal(-0.5), Add(u, v)), Mul(Complex(0.0, r), Sub(u, v)))
  {
  }

  /** (i r d)^2 = -3/4 d^2 when r^2 = 3/4. */
  lemma {:induction false} ImaginarySquare(r: real, d: Complex)
    requires r * r == 0.75
    ensures Mul(Mul(Complex(0.0, r), d), Mul(Complex(0.0, r), d)) == Mul(FromReal(-0.75), Mul(d, d))
  {
    MulSquare(Complex(0.0, r), d);
    assert Mul(Complex(0.0, r), Complex(0.0, r)) == FromReal(-0.75);
  }

  /** (u + v)^2 - (u - v)^2 = 4 u v and (u + v)^2/4 + 3 (u - v)^2/4 = u^2 - u v + v^2. */
  lemma {:induction false} SumAndDifference(u: Complex, v: Complex)
    ensures Sub(Mul(Add(u, v), Add(u, v)), Mul(Sub(u, v), Sub(u, v))) == Mul(FromReal(4.0), Mul(u, v))
    ensures Add(Mul(FromReal(0.25), Mul(Add(u, v), Add(u, v))), Mul(FromReal(0.75), Mul(Sub(u, v), Sub(u, v))))
         == Add(Sub(Mul(u, u), Mul(u, v)), Mul(v, v))
  {
    var m, d := Add(u, v), Sub(u, v);
    MulAddRight(u, v, m);
    MulAddDistr(u, u, v);
    MulAddDistr(v, u, v);
    MulSubRight(u, v, d);
    MulSubDistr(u, u, v);
    MulSubDistr(v, u, v);
    MulComm(u, v);
  }

  /** The sum of two cubes: (u + v)(u^2 - u v + v^2) = u^3 + v^3. */
  lemma {:induction false} SumOfCubes(u: Complex, v: Complex)
    ensures Mul(Add(u, v), Add(Sub(Mul(u, u), Mul(u, v)), Mul(v, v))) == Add(Cube(u), Cube(v))
  {
    var uu, uv, vv := Mul(u, u), Mul(u, v), Mul(v, v);
    var q := Add(Sub(uu, uv), vv);
    MulAddRight(u, v, q);
    MulSpread(u, uu, uv, vv);
    MulSpread(v, uu, uv, vv);
    MulComm(u, uu);
    MulComm(v, vv);
    assert Mul(u, uv) == Mul(v, uu) by {
      MulAssoc(u, u, v);
      MulComm(uu, v);
    }
    assert Mul(u, vv) == Mul(v, uv) by {
      MulAssoc(u, v, v);
      MulComm(uv, v);
    }
  }

  lemma {:induction false} MulSpread(z: Complex, a: Complex, b: Complex, c: Complex)
    ensures Mul(z, Add(Sub(a, b), c)) == Add(Sub(Mul(z, a), Mul(z, b)), Mul(z, c))
  {
    MulAddDistr(z, Sub(a, b), c);
    MulSubDistr(z, a, b);
  }

  /** u + v, u w + v w^2 and u w^2 + v w, with w = -1/2 + i r and
      r^2 = 3/4, sum to zero. */
  lemma {:induction false} CardanoSumZero(u: Complex, v: Complex, r: real)
    ensures Add(Add(Add(u, v), Add(Mul(u, Complex(-0.5, r)), Mul(v, Complex(-0.5, -r)))),
                Add(Mul(u, Complex(-0.5, -r)), Mul(v, Complex(-0.5, r))))
         == Zero
  {
    RotatedHalves(u, v, r);
    SplitSymmetric(Add(u, v), Mul(Complex(0.0, r), Sub(u, v)));
  }

  /** ... their pairwise sum is -3 u v ... */
  lemma {:induction false} CardanoPairSum(u: Complex, v: Complex, r: real)
    requires r * r == 0.75
    ensures PairSum(Add(u, v), Add(Mul(u, Complex(-0.5, r)), Mul(v, Complex(-0.5, -r))),
                    Add(Mul(u, Complex(-0.5, -r)), Mul(v, Complex(-0.5, r))))
         == Mul(FromReal(-3.0), Mul(u, v))
  {
    var m, d := Add(u, v), Sub(u, v);
    RotatedHalves(u, v, r);
    SplitSymmetric(m, Mul(Complex(0.0, r), d));
    ImaginarySquare(r, d);
    SumAndDifference(u, v);
    var mm, dd := Mul(m, m), Mul(d, d);
    assert Sub(Mul(FromReal(-0.75), mm), Mul(FromReal(-0.75), dd)) == Mul(FromReal(-3.0), Mul(u, v));
  }

  /** ... and their product is u^3 + v^3. */
  lemma {:induction false} CardanoProduct(u: Complex, v: Complex, r: real)
    requires r * r == 0.75
    ensures Product(Add(u, v), Add(Mul(u, Complex(-0.5, r)), Mul(v, Complex(-0.5, -r))),
                    Add(Mul(u, Complex(-0.5, -r)), Mul(v, Complex(-0.5, r))))
         == Add(Cube(u), Cube(v))
  {
    var m, d := Add(u, v), Sub(u, v);
    var t := Mul(Complex(0.0, r), d);
    var y1, y2 := Add(Mul(FromReal(-0.5), m), t), Sub(Mul(FromReal(-0.5), m), t);
    RotatedHalves(u, v, r);
    SplitSymmetric(m, t);
    ImaginarySquare(r, d);
    SumAndDifference(u, v);
    MulAssoc(m, y1, y2);
    var mm, dd := Mul(m, m), Mul(d, d);
    assert Mul(y1, y2) == Add(Mul(FromReal(0.25), mm), Mul(FromReal(0.75), dd));
    SumOfCubes(u, v);
  }

  /** The Cardano values -B/3 + u + v, -B/3 + u w + v w^2 and
      -B/3 + u w^2 + v w, under u v = -Q and u^3 + v^3 = 2 P, have
      pairwise sum C and product -D: with their sum -B these are Vieta's
      formulas, so they are the three roots counted with multiplicity. */
  lemma {:induction false} CardanoVieta(B: real, C: real, D: real, u: Complex, v: Complex, r: real)
    requires r * r == 0.75
    requires Mul(u, v) == FromReal(-QTerm(B, C))
    requires Add(Cube(u), Cube(v)) == FromReal(2.0 * PTerm(B, C, D))
    ensures var s, w, w2 := FromReal(-B / 3.0), Complex(-0.5, r), Complex(-0.5, -r);
              PairSum(Add(s, Add(u, v)), Add(s, Add(Mul(u, w), Mul(v, w2))), Add(s, Add(Mul(u, w2), Mul(v, w))))
              == FromReal(C)
    ensures var s, w, w2 := FromReal(-B / 3.0), Complex(-0.5, r), Complex(-0.5, -r);
              Product(Add(s, Add(u, v)), Add(s, Add(Mul(u, w), Mul(v, w2))), Add(s, Add(Mul(u, w2), Mul(v, w))))
              == FromReal(-D)
  {
    var b, Q, P := -B / 3.0, QTerm(B, C), PTerm(B, C, D);
    var y0, y1, y2 := Add(u, v), Add(Mul(u, Complex(-0.5, r)), Mul(v, Complex(-0.5, -r))),
                      Add(Mul(u, Complex(-0.5, -r)), Mul(v, Complex(-0.5, r)));
    CardanoSumZero(u, v, r);
    CardanoPairSum(u, v, r);
    CardanoProduct(u, v, r);
    assert PairSum(y0, y1, y2) == FromReal(3.0 * Q);
    assert Product(y0, y1, y2) == FromReal(2.0 * P);
    ShiftedPairSum(FromReal(b), y0, y1, y2);
    ShiftedProduct(FromReal(b), y0, y1, y2);
    VietaCoefficients(B, C, D);
  }

  /** 3 (B/3)^2 + 3 Q = C and -(B/3)^3 - (B/3) 3 Q + 2 P = -D. */
  lemma {:induction false} VietaCoefficients(B: real, C: real, D: real)
    ensures 3.0 * (-B / 3.0) * (-B / 3.0) + 3.0 * QTerm(B, C) == C
    ensures (-B / 3.0) * (-B / 3.0) * (-B / 3.0) + (-B / 3.0) * (3.0 * QTerm(B, C)) + 2.0 * PTerm(B, C, D) == -D
  {
  }

  /** Solves x^3 + B x^2 + C x + D = 0 as Python's `unaryCubicEquation`
      does. The ghost outputs `u` and `v` are the two Cardano terms. */
  method UnaryCubicEquation(B: real, C: real, D: real, csqrt: real -> Complex, cbrt: Complex -> Complex)
    returns (res: seq<Complex>, ghost u: Complex, ghost v: Complex)
    requires IsComplexSqrt(csqrt) && IsCubeRoot(cbrt)
    ensures |res| == 3
    // Vieta: the three roots always sum to -B
    ensures Add(Add(res[0], res[1]), res[2]) == FromReal(-B)
    // the radicand kept is the one of larger modulus
    ensures var sq := csqrt(Discriminant(B, C, D));
            Cube(u) == Radicand(B, C, D, sq, true) || Cube(u) == Radicand(B, C, D, sq, false)
    ensures Abs2(Cube(u)) >= Abs2(Radicand(B, C, D, csqrt(Discriminant(B, C, D)), true))
    ensures Abs2(Cube(u)) >= Abs2(Radicand(B, C, D, csqrt(Discriminant(B, C, D)), false))
    // the second Cardano term: -Q / u above the cut-off 1e-15, else 0
    ensures Abs2(u) > 1.0e-30 ==> Mul(u, v) == FromReal(-QTerm(B, C))
    ensures Abs2(u) <= 1.0e-30 ==> v == Zero
    // above the cut-off every returned value is a root of the cubic ...
    ensures Abs2(u) > 1.0e-30 ==> forall k :: 0 <= k < 3 ==> CubicAt(B, C, D, res[k]) == Zero
    // ... and, with the sum above, Vieta's formulas hold: the values are
    // the three roots counted with multiplicity
    ensures Abs2(u) > 1.0e-30 ==> PairSum(res[0], res[1], res[2]) == FromReal(C)
    ensures Abs2(u) > 1.0e-30 ==> Product(res[0], res[1], res[2]) == FromReal(-D)
  {
    var c := csqrt(0.75);
    var w := Omega(c);
    var w2 := Mul(w, w);
    res := [Zero, Zero, Zero];
    var P := PTerm(B, C, D);
    var Q := QTerm(B, C);
    var sq := csqrt(P * P + Q * Q * Q);
    assert P * P + Q * Q * Q == Discriminant(B, C, D);
    var uu := Add(FromReal(P), sq);
    var vv := Sub(FromReal(P), sq);
    assert uu == Radicand(B, C, D, sq, true) && vv == Radicand(B, C, D, sq, false);
    if Abs2(vv) > Abs2(uu) {
      uu := vv;
    }
    ghost var radicand := uu;
    uu := cbrt(uu);
    assert Cube(uu) == radicand;
    // abs(u) > 1e-15 compares moduli; squaring both sides is exact
    if Abs2(uu) > 1.0e-30 {
      vv := Div(FromReal(-Q), uu);
    } else {
      vv := Zero;
    }
    res := res[0 := FromReal(-B / 3.0)];
    res := res[0 := Add(res[0], Add(uu, vv))];
    res := res[1 := FromReal(-B / 3.0)];
    res := res[1 := Add(res[1], Add(Mul(uu, w), Mul(vv, w2)))];
    res := res[2 := FromReal(-B / 3.0)];
    res := res[2 := Add(res[2], Add(Mul(uu, w2), Mul(vv, w)))];
    u, v := uu, vv;

    OmegaIsCubeRootOfUnity(c);
    RootsSum(B, uu, vv, w, w2);
    if Abs2(uu) > 1.0e-30 {
      MulComm(vv, uu);
      CardanoTermsAreExact(P, Q, sq, uu, vv);
      CardanoRoots(B, C, D, c, uu, vv);
    }
  }

  /** x0, x1 and x2 are roots of x^3 + B x^2 + C x + D whose pairwise
      products sum to C and whose product is -D. */
  predicate RootsWithMultiplicity(B: real, C: real, D: real, x0: Complex, x1: Complex, x2: Complex)
  {
    && CubicAt(B, C, D, x0) == Zero && CubicAt(B, C, D, x1) == Zero && CubicAt(B, C, D, x2) == Zero
    && PairSum(x0, x1, x2) == FromReal(C) && Product(x0, x1, x2) == FromReal(-D)
  }

  /** Under the Cardano conditions the three combinations the solver
      returns are roots, and they satisfy Vieta's formulas. */
  lemma {:induction false} CardanoRoots(B: real, C: real, D: real, c: Complex, u: Complex, v: Complex)
    requires Mul(c, c) == FromReal(0.75)
    requires Mul(u, v) == FromReal(-QTerm(B, C))
    requires Add(Cube(u), Cube(v)) == FromReal(2.0 * PTerm(B, C, D))
    ensures RootsWithMultiplicity(B, C, D, Add(FromReal(-B / 3.0), Add(u, v)),
                       Add(FromReal(-B / 3.0), Add(Mul(u, Omega(c)), Mul(v, Mul(Omega(c), Omega(c))))),
                       Add(FromReal(-B / 3.0), Add(Mul(u, Mul(Omega(c), Omega(c))), Mul(v, Omega(c)))))
  {
    var w := Omega(c);
    var w2 := Mul(w, w);
    OmegaIsCubeRootOfUnity(c);
    RootsAreExact(B, C, D, u, v, w, w2);
    SqrtOfThreeQuartersIsReal(c);
    assert c.re * c.re == 0.75;
    assert w == Complex(-0.5, c.re) && w2 == Complex(-0.5, -c.re);
    CardanoVieta(B, C, D, u, v, c.re);
  }

  /** The sum of the three Cardano roots is -B, since 1 + w + w^2 = 0. */
  lemma {:induction false} RootsSum(B: real, u: Complex, v: Complex, w: Complex, w2: Complex)
    requires w2 == Mul(w, w)
    requires Add(Add(FromReal(1.0), w), w2) == Zero
    ensures Add(Add(Add(FromReal(-B / 3.0), Add(u, v)),
                    Add(FromReal(-B / 3.0), Add(Mul(u, w), Mul(v, w2)))),
                Add(FromReal(-B / 3.0), Add(Mul(u, w2), Mul(v, w))))
         == FromReal(-B)
  {
    var one := FromReal(1.0);
    // u (1 + w + w^2) = 0 and v (1 + w + w^2) = 0
    MulAddDistr(u, one, w);
    MulAddDistr(u, Add(one, w), w2);
    MulAddDistr(v, one, w);
    MulAddDistr(v, Add(one, w), w2);
    MulZero(u);
    MulZero(v);
    assert Mul(u, one) == u && Mul(v, one) == v;
  }

  /** With u^3 the kept radicand and u v = -Q, v^3 is the other radicand,
      so u^3 + v^3 = 2 P. */
  lemma {:induction false} CardanoTermsAreExact(P: real, Q: real, sq: Complex, u: Complex, v: Complex)
    requires Mul(sq, sq) == FromReal(P * P + Q * Q * Q)
    requires Cube(u) == Add(FromReal(P), sq) || Cube(u) == Sub(FromReal(P), sq)
    requires Abs2(u) > 0.0
    requires Mul(u, v) == FromReal(-Q)
    ensures Add(Cube(u), Cube(v)) == FromReal(2.0 * P)
  {
    var other := if Cube(u) == Add(FromReal(P), sq) then Sub(FromReal(P), sq) else Add(FromReal(P), sq);
    assert Add(Cube(u), other) == FromReal(2.0 * P);
    assert Mul(other, Cube(u)) == FromReal(-(Q * Q * Q)) by {
      ConjugateRadicands(P, Q, sq);
    }
    assert Mul(Cube(v), Cube(u)) == FromReal(-(Q * Q * Q)) by {
      CubeMul(u, v);
      MulComm(Cube(u), Cube(v));
      CubeOfReal(-Q);
    }
    assert Abs2(Cube(u)) > 0.0 by {
      var m := Abs2(u);
      Abs2Mul(u, u);
      PositiveProduct(m, m, Abs2(Mul(u, u)));
      Abs2Mul(Mul(u, u), u);
      PositiveProduct(Abs2(Mul(u, u)), m, Abs2(Cube(u)));
    }
    MulCancel(Cube(v), other, Cube(u));
  }

  /** (P + s)(P - s) = P^2 - s^2, in both orders. */
  lemma {:induction false} ConjugateRadicands(P: real, Q: real, sq: Complex)
    requires Mul(sq, sq) == FromReal(P * P + Q * Q * Q)
    ensures Mul(Add(FromReal(P), sq), Sub(FromReal(P), sq)) == FromReal(-(Q * Q * Q))
    ensures Mul(Sub(FromReal(P), sq), Add(FromReal(P), sq)) == FromReal(-(Q * Q * Q))
  {
    var plus, minus := Add(FromReal(P), sq), Sub(FromReal(P), sq);
    assert sq.re * sq.re - sq.im * sq.im == P * P + Q * Q * Q;
    assert sq.re * sq.im + sq.im * sq.re == 0.0;
    ConjugateParts(plus.re, plus.im, minus.re, minus.im, P, Q, sq.re, sq.im);
    ConjugateParts(minus.re, minus.im, plus.re, plus.im, P, Q, -sq.re, -sq.im);
  }

  lemma {:induction false} ConjugateParts(ar: real, ai: real, br: real, bi: real, P: real, Q: real, sr: real, si: real)
    requires ar == P + sr && ai == si && br == P - sr && bi == -si
    requires sr * sr - si * si == P * P + Q * Q * Q
    requires sr * si + si * sr == 0.0
    ensures ar * br - ai * bi == -(Q * Q * Q)
    ensures ar * bi + ai * br == 0.0
  {
    assert ar * br - ai * bi == P * P - (sr * sr - si * si);
    assert ar * bi + ai * br == -(sr * si + si * sr);
  }

  lemma {:induction false} CubeOfReal(x: real)
    ensures Cube(FromReal(x)) == FromReal(x * x * x)
  {
  }

  lemma {:induction false} PositiveProduct(x: real, y: real, z: real)
    requires x > 0.0 && y > 0.0 && z == x * y
    ensures z > 0.0
  {
  }

  /** Each of the three Cardano combinations is a root of the cubic. */
  lemma {:induction false} RootsAreExact(B: real, C: real, D: real, u: Complex, v: Complex, w: Complex, w2: Complex)
    requires w2 == Mul(w, w)
    requires Cube(w) == FromReal(1.0) && Cube(w2) == FromReal(1.0)
    requires Mul(u, v) == FromReal(-QTerm(B, C))
    requires Add(Cube(u), Cube(v)) == FromReal(2.0 * PTerm(B, C, D))
    ensures CubicAt(B, C, D, Add(FromReal(-B / 3.0), Add(u, v))) == Zero
    ensures CubicAt(B, C, D, Add(FromReal(-B / 3.0), Add(Mul(u, w), Mul(v, w2)))) == Zero
    ensures CubicAt(B, C, D, Add(FromReal(-B / 3.0), Add(Mul(u, w2), Mul(v, w)))) == Zero
  {
    var P, Q := PTerm(B, C, D), QTerm(B, C);
    assert Mul(w, w2) == FromReal(1.0) by {
      MulAssoc(w, w, w);
      MulComm(w, w2);
    }
    Depress(B, C, D, Add(u, v));
    CardanoIdentity(u, v, P, Q);
    Depress(B, C, D, Add(Mul(u, w), Mul(v, w2)));
    RotatePair(u, v, w, w2);
    CardanoIdentity(Mul(u, w), Mul(v, w2), P, Q);
    Depress(B, C, D, Add(Mul(u, w2), Mul(v, w)));
    MulComm(w, w2);
    RotatePair(u, v, w2, w);
    CardanoIdentity(Mul(u, w2), Mul(v, w), P, Q);
  }
}
