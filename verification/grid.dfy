/** The sweeps that fill the plotted grids: for every cell (i, j) of the
    n-by-n angular grid of propagation directions, the group velocity of the
    chosen sheet, its components and its speed, and, in the magnetoelastic
    callbacks, the fractional change of the speed relative to the
    zero-field crystal. The direction grid is an input (the callbacks build
    it from sines and cosines of the polar and azimuthal angles); so are the
    square root and the solver that gives the spectrum of the Christoffel
    matrix in each direction. */
module GridSweep {
  import opened Christoffel
  import opened GroupVelocity

  /** The group velocity of sheet sol for the coefficients a in the
      direction k: the spectrum comes from the solver and the velocity
      from Vel. */
  function CellVelocity(a: Voigt, k: Vec3, spectrum: (Voigt, Vec3) -> Spectrum, sol: Sol): Option<Vec3>
  {
    Vel(a, k, spectrum(a, k), sol)
  }

  /** What a cell holds for a velocity: its components, or zeros where the
      source's arithmetic yields no number. */
  function Stored(w: Option<Vec3>): Vec3
  {
    if w.Some? then w.value else Vec3(0.0, 0.0, 0.0)
  }

  /** The squared Euclidean length of w: vx^2 + vy^2 + vz^2. */
  function SquaredNorm(w: Vec3): real
  {
    w.x * w.x + w.y * w.y + w.z * w.z
  }

  /** `sqrt` is a square root on the non-negative reals. */
  ghost predicate IsSqrt(sqrt: real -> real)
  {
    forall x: real {:trigger sqrt(x)} :: 0.0 <= x ==> IsSquareRoot(sqrt(x), x)
  }

  /** The speed of a velocity: the square root of its squared length is a
      non-negative number whose square is that length. */
  lemma {:induction false} SpeedIsLength(w: Vec3, sqrt: real -> real)
    requires IsSqrt(sqrt)
    ensures IsSquareRoot(sqrt(SquaredNorm(w)), SquaredNorm(w))
  {
    assert 0.0 <= w.x * w.x && 0.0 <= w.y * w.y && 0.0 <= w.z * w.z;
  }

  /** An n-by-n grid of directions. */
  predicate Square(dirs: seq<seq<Vec3>>, n: nat)
  {
    |dirs| == n && forall i :: 0 <= i < n ==> |dirs[i]| == n
  }

  predicate SquareArray(p: array2<real>, n: nat)
  {
    p.Length0 == n && p.Length1 == n
  }

  /** Cell (i, j) of the component grids holds c, and the speed grid its
      speed. */
  predicate Holds(vx: array2<real>, vy: array2<real>, vz: array2<real>, v: array2<real>,
                  i: nat, j: nat, c: Vec3, speed: Vec3 -> real)
    reads vx, vy, vz, v
    requires i < vx.Length0 && i < vy.Length0 && i < vz.Length0 && i < v.Length0
    requires j < vx.Length1 && j < vy.Length1 && j < vz.Length1 && j < v.Length1
  {
    vx[i, j] == c.x && vy[i, j] == c.y && vz[i, j] == c.z && v[i, j] == speed(c)
  }

  /** The loop of the callbacks: every cell of the component grids holds
      the velocity in that cell's direction, and the speed grid its speed.
      The velocity is the callback's call of Vel with the coefficients and
      the sheet fixed; the speed is the square root of the squared length
      (SurfaceSweep). */
  method Sweep(dirs: seq<seq<Vec3>>, n: nat, velocity: Vec3 -> Option<Vec3>, speed: Vec3 -> real)
    returns (vx: array2<real>, vy: array2<real>, vz: array2<real>, v: array2<real>)
    requires Square(dirs, n)
    ensures fresh(vx) && fresh(vy) && fresh(vz) && fresh(v)
    ensures SquareArray(vx, n) && SquareArray(vy, n) && SquareArray(vz, n) && SquareArray(v, n)
    ensures forall i, j :: 0 <= i < n && 0 <= j < n ==>
      Holds(vx, vy, vz, v, i, j, Stored(velocity(dirs[i][j])), speed)
  {
    vx := new real[n, n];
    vy := new real[n, n];
    vz := new real[n, n];
    v := new real[n, n];
    var ii := 0;
    while ii < n
      invariant 0 <= ii <= n
      invariant forall i, j :: 0 <= i < ii && 0 <= j < n ==>
        Holds(vx, vy, vz, v, i, j, Stored(velocity(dirs[i][j])), speed)
    {
      var jj := 0;
      while jj < n
        invariant 0 <= jj <= n
        invariant forall i, j :: (0 <= i < ii && 0 <= j < n) || (i == ii && 0 <= j < jj) ==>
          Holds(vx, vy, vz, v, i, j, Stored(velocity(dirs[i][j])), speed)
      {
        var c := Stored(velocity(dirs[ii][jj]));
        vx[ii, jj] := c.x;
        vy[ii, jj] := c.y;
        vz[ii, jj] := c.z;
        v[ii, jj] := speed(c);
        jj := jj + 1;
      }
      ii := ii + 1;
    }
  }

  /** The surface plotted for one crystal: the sweep with the velocity of
      sheet sol for the coefficients a. */
  method SurfaceSweep(a: Voigt, dirs: seq<seq<Vec3>>, n: nat, spectrum: (Voigt, Vec3) -> Spectrum,
                      sqrt: real -> real, sol: Sol)
    returns (vx: array2<real>, vy: array2<real>, vz: array2<real>, v: array2<real>)
    requires Square(dirs, n)
    requires forall k {:trigger IsSpectrum(a, k, spectrum(a, k))} :: IsSpectrum(a, k, spectrum(a, k))
    requires IsSqrt(sqrt)
    ensures fresh(vx) && fresh(vy) && fresh(vz) && fresh(v)
    ensures SquareArray(vx, n) && SquareArray(vy, n) && SquareArray(vz, n) && SquareArray(v, n)
    ensures forall i, j :: 0 <= i < n && 0 <= j < n ==>
      var c := Stored(CellVelocity(a, dirs[i][j], spectrum, sol));
      vx[i, j] == c.x && vy[i, j] == c.y && vz[i, j] == c.z && v[i, j] == sqrt(SquaredNorm(c))
    ensures forall i, j :: 0 <= i < n && 0 <= j < n ==>
      var c := Stored(CellVelocity(a, dirs[i][j], spectrum, sol));
      IsSquareRoot(v[i, j], SquaredNorm(c))
  {
    vx, vy, vz, v := Sweep(dirs, n, k => CellVelocity(a, k, spectrum, sol), w => sqrt(SquaredNorm(w)));
    SpeedGrid(v, dirs, n, k => CellVelocity(a, k, spectrum, sol), sqrt);
  }

  /** Every cell of a speed grid filled with the square root of the
      squared length is non-negative and squares to that length. */
  lemma {:induction false} SpeedGrid(v: array2<real>, dirs: seq<seq<Vec3>>, n: nat,
                                      velocity: Vec3 -> Option<Vec3>, sqrt: real -> real)
    requires Square(dirs, n) && SquareArray(v, n) && IsSqrt(sqrt)
    requires forall i, j :: 0 <= i < n && 0 <= j < n ==> v[i, j] == sqrt(SquaredNorm(Stored(velocity(dirs[i][j]))))
    ensures forall i, j :: 0 <= i < n && 0 <= j < n ==> IsSquareRoot(v[i, j], SquaredNorm(Stored(velocity(dirs[i][j]))))
  {
    forall i, j | 0 <= i < n && 0 <= j < n
      ensures IsSquareRoot(v[i, j], SquaredNorm(Stored(velocity(dirs[i][j]))))
    {
      SpeedIsLength(Stored(velocity(dirs[i][j])), sqrt);
    }
  }

  /** (x - y) / y, the fractional change of x relative to y; None where the
      division has no value. */
  function FractionalChange(x: real, y: real): (r: Option<real>)
    ensures r.Some? <==> y != 0.0
    ensures r.Some? ==> r.value * y == x - y
  {
    if y == 0.0 then None else Some((x - y) / y)
  }

  /** The fractional change is zero exactly when nothing changed. */
  lemma {:induction false} FractionalChangeZero(x: real, y: real)
    requires y != 0.0
    ensures FractionalChange(x, y) == Some(0.0) <==> x == y
  {
    var r := FractionalChange(x, y).value;
    if r == 0.0 {
      assert r * y == 0.0;
    }
  }

  /** The fractional change undoes: y (1 + r) gives x back. */
  lemma {:induction false} FractionalChangeInverse(x: real, y: real)
    requires y != 0.0
    ensures y * (1.0 + FractionalChange(x, y).value) == x
  {
    var r := FractionalChange(x, y).value;
    assert y * (1.0 + r) == y + r * y;
  }

  /** What the change grid holds: the fractional change, or zero where the
      source's division yields no number. */
  function StoredChange(x: real, y: real): real
  {
    match FractionalChange(x, y)
    case Some(r) => r
    case None => 0.0
  }

  /** The fractional change of every cell of p relative to the same cell
      of q. */
  method ChangeGrid(p: array2<real>, q: array2<real>, n: nat) returns (r: array2<real>)
    requires SquareArray(p, n) && SquareArray(q, n)
    ensures fresh(r) && SquareArray(r, n)
    ensures forall i, j :: 0 <= i < n && 0 <= j < n ==> r[i, j] == StoredChange(p[i, j], q[i, j])
  {
    r := new real[n, n];
    var ii := 0;
    while ii < n
      invariant 0 <= ii <= n
      invariant forall i, j :: 0 <= i < ii && 0 <= j < n ==> r[i, j] == StoredChange(p[i, j], q[i, j])
    {
      var jj := 0;
      while jj < n
        invariant 0 <= jj <= n
        invariant forall i, j :: (0 <= i < ii && 0 <= j < n) || (i == ii && 0 <= j < jj) ==>
          r[i, j] == StoredChange(p[i, j], q[i, j])
      {
        r[ii, jj] := StoredChange(p[ii, jj], q[ii, jj]);
        jj := jj + 1;
      }
      ii := ii + 1;
    }
  }

  /** The magnetoelastic callbacks: the surfaces with (a) and without (a0)
      the field's correction, and the fractional change of the speed. Where
      the two coefficient sets agree, every defined change is zero. */
  method CompareSweep(a: Voigt, a0: Voigt, dirs: seq<seq<Vec3>>, n: nat,
                      spectrum: (Voigt, Vec3) -> Spectrum, sqrt: real -> real, sol: Sol)
    returns (vx0: array2<real>, vy0: array2<real>, vz0: array2<real>, v0: array2<real>,
             vx00: array2<real>, vy00: array2<real>, vz00: array2<real>, v00: array2<real>,
             v000: array2<real>)
    requires Square(dirs, n)
    requires forall k {:trigger IsSpectrum(a, k, spectrum(a, k))} :: IsSpectrum(a, k, spectrum(a, k))
    requires forall k {:trigger IsSpectrum(a0, k, spectrum(a0, k))} :: IsSpectrum(a0, k, spectrum(a0, k))
    requires IsSqrt(sqrt)
    ensures fresh(vx0) && fresh(vy0) && fresh(vz0) && fresh(v0)
    ensures fresh(vx00) && fresh(vy00) && fresh(vz00) && fresh(v00) && fresh(v000)
    ensures SquareArray(vx0, n) && SquareArray(vy0, n) && SquareArray(vz0, n) && SquareArray(v0, n)
    ensures SquareArray(vx00, n) && SquareArray(vy00, n) && SquareArray(vz00, n) && SquareArray(v00, n)
    ensures SquareArray(v000, n)
    ensures forall i, j :: 0 <= i < n && 0 <= j < n ==>
      var c := Stored(CellVelocity(a, dirs[i][j], spectrum, sol));
      vx0[i, j] == c.x && vy0[i, j] == c.y && vz0[i, j] == c.z && v0[i, j] == sqrt(SquaredNorm(c))
    ensures forall i, j :: 0 <= i < n && 0 <= j < n ==>
      var c := Stored(CellVelocity(a0, dirs[i][j], spectrum, sol));
      vx00[i, j] == c.x && vy00[i, j] == c.y && vz00[i, j] == c.z && v00[i, j] == sqrt(SquaredNorm(c))
    ensures forall i, j :: 0 <= i < n && 0 <= j < n ==> 0.0 <= v0[i, j] && 0.0 <= v00[i, j]
    ensures forall i, j :: 0 <= i < n && 0 <= j < n ==> v000[i, j] == StoredChange(v0[i, j], v00[i, j])
    ensures a == a0 ==> forall i, j :: 0 <= i < n && 0 <= j < n && v00[i, j] != 0.0 ==> v000[i, j] == 0.0
  {
    vx0, vy0, vz0, v0 := SurfaceSweep(a, dirs, n, spectrum, sqrt, sol);
    vx00, vy00, vz00, v00 := SurfaceSweep(a0, dirs, n, spectrum, sqrt, sol);
    v000 := ChangeGrid(v0, v00, n);
    if a == a0 {
      forall i, j | 0 <= i < n && 0 <= j < n && v00[i, j] != 0.0
        ensures v000[i, j] == 0.0
      {
        FractionalChangeZero(v0[i, j], v00[i, j]);
      }
    }
  }
}
