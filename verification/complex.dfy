/** Complex numbers as pairs of reals: the arithmetic Python's `complex`
    type performs inside the cubic solver. */
module ComplexArith {

  datatype Complex = Complex(re: real, im: real)

  const Zero := Complex(0.0, 0.0)

  function FromReal(x: real): (z: Complex)
    ensures z.re == x && z.im == 0.0
  {
    Complex(x, 0.0)
  }

  function Add(z: Complex, w: Complex): Complex
  {
    Complex(z.re + w.re, z.im + w.im)
  }

  function Sub(z: Complex, w: Complex): Complex
  {
    Complex(z.re - w.re, z.im - w.im)
  }

  function Neg(z: Complex): Complex
  {
    Complex(-z.re, -z.im)
  }

  function Mul(z: Complex, w: Complex): Complex
  {
    Complex(z.re * w.re - z.im * w.im, z.re * w.im + z.im * w.re)
  }

  function Cube(z: Complex): Complex
  {
    Mul(Mul(z, z), z)
  }

  /** Squared modulus: |z| compared with |w| is |z|^2 compared with |w|^2. */
  function Abs2(z: Complex): (m: real)
    ensures m >= 0.0
  {
    z.re * z.re + z.im * z.im
  }

  /** Complex division z / w, as Python computes it. */
  function Div(z: Complex, w: Complex): (q: Complex)
    requires Abs2(w) > 0.0
    ensures Mul(q, w) == z
  {
    var m := Abs2(w);
    var q := Complex((z.re * w.re + z.im * w.im) / m, (z.im * w.re - z.re * w.im) / m);
    assert q.re * m == z.re * w.re + z.im * w.im;
    assert q.im * m == z.im * w.re - z.re * w.im;
    assert Mul(q, w).re * m == z.re * m;
    assert Mul(q, w).im * m == z.im * m;
    q
  }

  lemma {:induction false} MulComm(z: Complex, w: Complex)
    ensures Mul(z, w) == Mul(w, z)
  {
  }

  lemma {:induction false} MulAssoc(z: Complex, w: Complex, x: Complex)
    ensures Mul(Mul(z, w), x) == Mul(z, Mul(w, x))
  {
  }

  lemma {:induction false} MulAddDistr(z: Complex, w: Complex, x: Complex)
    ensures Mul(z, Add(w, x)) == Add(Mul(z, w), Mul(z, x))
  {
  }

  lemma {:induction false} MulAddRight(u: Complex, v: Complex, z: Complex)
    ensures Mul(Add(u, v), z) == Add(Mul(u, z), Mul(v, z))
  {
  }

  lemma {:induction false} MulSubDistr(z: Complex, w: Complex, x: Complex)
    ensures Mul(z, Sub(w, x)) == Sub(Mul(z, w), Mul(z, x))
  {
  }

  lemma {:induction false} MulSubRight(u: Complex, v: Complex, z: Complex)
    ensures Mul(Sub(u, v), z) == Sub(Mul(u, z), Mul(v, z))
  {
  }

  lemma {:induction false} MulNeg(z: Complex, w: Complex)
    ensures Mul(z, Neg(w)) == Neg(Mul(z, w))
  {
  }

  lemma {:induction false} MulZero(z: Complex)
    ensures Mul(z, Zero) == Zero
  {
  }

  /** (c + a)(c + b) = c^2 + c (a + b) + a b. */
  lemma {:induction false} ShiftMul(c: Complex, a: Complex, b: Complex)
    ensures Mul(Add(c, a), Add(c, b)) == Add(Add(Mul(c, c), Mul(c, Add(a, b))), Mul(a, b))
  {
    MulAddRight(c, a, Add(c, b));
    MulAddDistr(c, c, b);
    MulAddDistr(a, c, b);
    MulComm(a, c);
    MulAddDistr(c, a, b);
  }

  /** The squared modulus is multiplicative. */
  lemma {:induction false} Abs2Mul(z: Complex, w: Complex)
    ensures Abs2(Mul(z, w)) == Abs2(z) * Abs2(w)
  {
  }

  /** A factor of positive modulus can be cancelled. */
  lemma {:induction false} MulCancel(a: Complex, b: Complex, r: Complex)
    requires Abs2(r) > 0.0
    requires Mul(a, r) == Mul(b, r)
    ensures a == b
  {
    var inv := Div(FromReal(1.0), r);
    calc {
      a;
      Mul(a, Mul(inv, r));
      { MulComm(inv, r); }
      Mul(a, Mul(r, inv));
      { MulAssoc(a, r, inv); }
      Mul(Mul(a, r), inv);
      Mul(Mul(b, r), inv);
      { MulAssoc(b, r, inv); }
      Mul(b, Mul(r, inv));
      { MulComm(inv, r); }
      Mul(b, Mul(inv, r));
      b;
    }
  }

  /** The cube of a product is the product of the cubes. */
  lemma {:induction false} CubeMul(z: Complex, w: Complex)
    ensures Cube(Mul(z, w)) == Mul(Cube(z), Cube(w))
  {
    var zw := Mul(z, w);
    calc {
      Cube(zw);
      Mul(Mul(zw, zw), zw);
      { MulSquare(z, w); }
      Mul(Mul(Mul(z, z), Mul(w, w)), zw);
      { MulSquareTimes(Mul(z, z), Mul(w, w), z, w); }
      Mul(Mul(Mul(z, z), z), Mul(Mul(w, w), w));
    }
  }

  lemma {:induction false} MulSquare(z: Complex, w: Complex)
    ensures Mul(Mul(z, w), Mul(z, w)) == Mul(Mul(z, z), Mul(w, w))
  {
  }

  lemma {:induction false} MulSquareTimes(p: Complex, q: Complex, z: Complex, w: Complex)
    ensures Mul(Mul(p, q), Mul(z, w)) == Mul(Mul(p, z), Mul(q, w))
  {
  }
}
