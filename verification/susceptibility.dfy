/** The static transverse susceptibility chi of the magnetisation at its
    equilibrium direction. The equilibrium angles and the curvatures E_tt
    and E_pp of the free energy there come from a numerical minimisation
    and are inputs here. */
module MagneticSusceptibility {
  import opened Christoffel

  function Sq(x: real): real
  {
    x * x
  }

  /** A square does not see the sign of its argument. */
  lemma {:induction false} SqNeg(x: real)
    ensures Sq(-x) == Sq(x)
  {
  }

  /** The sines and cosines of the equilibrium polar angle theta and
      azimuth phi of the magnetisation. */
  datatype Angles = Angles(sinTheta: real, cosTheta: real, sinPhi: real, cosPhi: real)

  predicate OnCircle(ang: Angles)
  {
    ang.sinTheta * ang.sinTheta + ang.cosTheta * ang.cosTheta == 1.0
    && ang.sinPhi * ang.sinPhi + ang.cosPhi * ang.cosPhi == 1.0
  }

  /** The unit vector (ax, ay, az) along the magnetisation. */
  function Direction(ang: Angles): Vec3
  {
    Vec3(ang.sinTheta * ang.cosPhi, ang.sinTheta * ang.sinPhi, ang.cosTheta)
  }

  /** A symmetric susceptibility tensor. */
  datatype Chi = Chi(xx: real, xy: real, xz: real, yy: real, yz: real, zz: real)

  function ChiApply(chi: Chi, v: Vec3): Vec3
  {
    Vec3(chi.xx * v.x + chi.xy * v.y + chi.xz * v.z,
         chi.xy * v.x + chi.yy * v.y + chi.yz * v.z,
         chi.xz * v.x + chi.yz * v.y + chi.zz * v.z)
  }

  /** The six entries of the susceptibility as the callbacks compute them
      from ms, the energy curvatures E_tt and E_pp and the equilibrium
      angles. */
  function ChiXX(ms: real, ett: real, epp: real, ang: Angles): real
    requires ett != 0.0 && epp != 0.0
  {
    var st, ct, sp, cp := ang.sinTheta, ang.cosTheta, ang.sinPhi, ang.cosPhi;
    ms * ms * ((ct * ct * (cp * cp)) / ett + (st * st * (sp * sp)) / epp)
  }

  /** chi_xy with the leading minus sign the callbacks give it. */
  function ChiXYAsWritten(ms: real, ett: real, epp: real, ang: Angles): real
    requires ett != 0.0 && epp != 0.0
  {
    var st, ct, sp, cp := ang.sinTheta, ang.cosTheta, ang.sinPhi, ang.cosPhi;
    -(ms * ms) * ((ct * ct * cp * sp) / ett - (st * st * cp * sp) / epp)
  }

  /** chi_xy with the sign the other five entries imply. */
  function ChiXY(ms: real, ett: real, epp: real, ang: Angles): real
    requires ett != 0.0 && epp != 0.0
  {
    var st, ct, sp, cp := ang.sinTheta, ang.cosTheta, ang.sinPhi, ang.cosPhi;
    ms * ms * ((ct * ct * cp * sp) / ett - (st * st * cp * sp) / epp)
  }

  function ChiXZ(ms: real, ett: real, ang: Angles): real
    requires ett != 0.0
  {
    var st, ct, sp, cp := ang.sinTheta, ang.cosTheta, ang.sinPhi, ang.cosPhi;
    -(ms * ms * st * ct * cp) / ett
  }

  function ChiYY(ms: real, ett: real, epp: real, ang: Angles): real
    requires ett != 0.0 && epp != 0.0
  {
    var st, ct, sp, cp := ang.sinTheta, ang.cosTheta, ang.sinPhi, ang.cosPhi;
    ms * ms * ((ct * ct * (sp * sp)) / ett + (st * st * (cp * cp)) / epp)
  }

  function ChiYZ(ms: real, ett: real, ang: Angles): real
    requires ett != 0.0
  {
    var st, ct, sp, cp := ang.sinTheta, ang.cosTheta, ang.sinPhi, ang.cosPhi;
    -(ms * ms * st * ct * sp) / ett
  }

  function ChiZZ(ms: real, ett: real, ang: Angles): real
    requires ett != 0.0
  {
    var st := ang.sinTheta;
    (ms * ms * (st * st)) / ett
  }

  /** The susceptibility tensor as the callbacks assemble it. */
  function SusceptibilityAsWritten(ms: real, ett: real, epp: real, ang: Angles): Chi
    requires ett != 0.0 && epp != 0.0
  {
    Chi(ChiXX(ms, ett, epp, ang), ChiXYAsWritten(ms, ett, epp, ang), ChiXZ(ms, ett, ang),
        ChiYY(ms, ett, epp, ang), ChiYZ(ms, ett, ang), ChiZZ(ms, ett, ang))
  }

  /** The susceptibility tensor with chi_xy of the corrected sign:
      ms^2 (e_t e_t^T / E_tt + e_p e_p^T / E_pp), with e_t the polar and e_p
      the azimuthal unit vector. */
  function Susceptibility(ms: real, ett: real, epp: real, ang: Angles): Chi
    requires ett != 0.0 && epp != 0.0
  {
    Chi(ChiXX(ms, ett, epp, ang), ChiXY(ms, ett, epp, ang), ChiXZ(ms, ett, ang),
        ChiYY(ms, ett, epp, ang), ChiYZ(ms, ett, ang), ChiZZ(ms, ett, ang))
  }

  /** The entries of t e_t e_t^T + p e_p e_p^T, where
      e_t = (cos t cos p, cos t sin p, -sin t) and e_p = sin t (-sin p, cos p, 0)
      (the azimuthal unit vector scaled by sin t, as the callbacks scale it). */
  function OuterXX(t: real, p: real, ang: Angles): real
  {
    var st, ct, sp, cp := ang.sinTheta, ang.cosTheta, ang.sinPhi, ang.cosPhi;
    t * (ct * ct * (cp * cp)) + p * (st * st * (sp * sp))
  }

  function OuterXY(t: real, p: real, ang: Angles): real
  {
    var st, ct, sp, cp := ang.sinTheta, ang.cosTheta, ang.sinPhi, ang.cosPhi;
    t * (ct * ct * cp * sp) - p * (st * st * cp * sp)
  }

  function OuterXZ(t: real, ang: Angles): real
  {
    var st, ct, cp := ang.sinTheta, ang.cosTheta, ang.cosPhi;
    -t * (st * ct * cp)
  }

  function OuterYY(t: real, p: real, ang: Angles): real
  {
    var st, ct, sp, cp := ang.sinTheta, ang.cosTheta, ang.sinPhi, ang.cosPhi;
    t * (ct * ct * (sp * sp)) + p * (st * st * (cp * cp))
  }

  function OuterYZ(t: real, ang: Angles): real
  {
    var st, ct, sp := ang.sinTheta, ang.cosTheta, ang.sinPhi;
    -t * (st * ct * sp)
  }

  function OuterZZ(t: real, ang: Angles): real
  {
    var st := ang.sinTheta;
    t * (st * st)
  }

  function OuterForm(t: real, p: real, ang: Angles): Chi
  {
    Chi(OuterXX(t, p, ang), OuterXY(t, p, ang), OuterXZ(t, ang),
        OuterYY(t, p, ang), OuterYZ(t, ang), OuterZZ(t, ang))
  }

  /** The two susceptibilities agree except in chi_xy, where they have
      opposite signs. */
  lemma {:induction false} AsWrittenDiffersInXY(ms: real, ett: real, epp: real, ang: Angles)
    requires ett != 0.0 && epp != 0.0
    ensures
      var w, c := SusceptibilityAsWritten(ms, ett, epp, ang), Susceptibility(ms, ett, epp, ang);
      w.xx == c.xx && w.xz == c.xz && w.yy == c.yy && w.yz == c.yz && w.zz == c.zz && w.xy == -c.xy
  {
  }

  /** Where sin(phi) cos(phi) vanishes (the magnetisation's azimuth on an
      axis) chi_xy is zero and the sign slip has no effect. */
  lemma {:induction false} AsWrittenAgreesOnAxes(ms: real, ett: real, epp: real, ang: Angles)
    requires ett != 0.0 && epp != 0.0
    requires ang.sinPhi * ang.cosPhi == 0.0
    ensures SusceptibilityAsWritten(ms, ett, epp, ang) == Susceptibility(ms, ett, epp, ang)
  {
    var st, ct, sp, cp := ang.sinTheta, ang.cosTheta, ang.sinPhi, ang.cosPhi;
    assert ct * ct * cp * sp == (ct * ct) * (sp * cp) == 0.0;
    assert st * st * cp * sp == (st * st) * (sp * cp) == 0.0;
  }

  /** The susceptibility is the outer-product form with t = ms^2 / E_tt and
      p = ms^2 / E_pp. */
  lemma {:induction false} SusceptibilityIsOuterForm(ms: real, ett: real, epp: real, ang: Angles)
    requires ett != 0.0 && epp != 0.0
    ensures Susceptibility(ms, ett, epp, ang) == OuterForm(ms * ms / ett, ms * ms / epp, ang)
  {
    DiagonalIsOuter(ms, ett, epp, ang);
    XYIsOuter(ms, ett, epp, ang);
    XZIsOuter(ms, ett, ang);
    YZIsOuter(ms, ett, ang);
    ZZIsOuter(ms, ett, ang);
  }

  lemma {:induction false} DiagonalIsOuter(ms: real, ett: real, epp: real, ang: Angles)
    requires ett != 0.0 && epp != 0.0
    ensures ChiXX(ms, ett, epp, ang) == OuterXX(ms * ms / ett, ms * ms / epp, ang)
    ensures ChiYY(ms, ett, epp, ang) == OuterYY(ms * ms / ett, ms * ms / epp, ang)
  {
  }

  lemma {:induction false} XYIsOuter(ms: real, ett: real, epp: real, ang: Angles)
    requires ett != 0.0 && epp != 0.0
    ensures ChiXY(ms, ett, epp, ang) == OuterXY(ms * ms / ett, ms * ms / epp, ang)
  {
  }

  lemma {:induction false} XZIsOuter(ms: real, ett: real, ang: Angles)
    requires ett != 0.0
    ensures ChiXZ(ms, ett, ang) == OuterXZ(ms * ms / ett, ang)
  {
    NegQuotient(ms * ms, ang.sinTheta, ang.cosTheta, ang.cosPhi, ett);
  }

  lemma {:induction false} YZIsOuter(ms: real, ett: real, ang: Angles)
    requires ett != 0.0
    ensures ChiYZ(ms, ett, ang) == OuterYZ(ms * ms / ett, ang)
  {
    NegQuotient(ms * ms, ang.sinTheta, ang.cosTheta, ang.sinPhi, ett);
  }

  lemma {:induction false} ZZIsOuter(ms: real, ett: real, ang: Angles)
    requires ett != 0.0
    ensures ChiZZ(ms, ett, ang) == OuterZZ(ms * ms / ett, ang)
  {
  }

  lemma {:induction false} NegQuotient(s: real, u: real, v: real, w: real, e: real)
    requires e != 0.0
    ensures -(s * u * v * w) / e == -(s / e) * (u * v * w)
  {
  }

  /** The outer-product form annihilates the magnetisation direction: a
      small field turns the magnetisation without changing its length. */
  lemma {:induction false} OuterFormIsTransverse(t: real, p: real, ang: Angles)
    requires OnCircle(ang)
    ensures ChiApply(OuterForm(t, p, ang), Direction(ang)) == Vec3(0.0, 0.0, 0.0)
  {
    OuterFirstRow(t, p, ang);
    OuterSecondRow(t, p, ang);
    OuterThirdRow(t, p, ang);
  }

  lemma {:induction false} OuterFirstRow(t: real, p: real, ang: Angles)
    requires OnCircle(ang)
    ensures ChiApply(OuterForm(t, p, ang), Direction(ang)).x == 0.0
  {
    FirstRow(OuterForm(t, p, ang), Direction(ang), t, p, ang.sinTheta, ang.cosTheta, ang.sinPhi, ang.cosPhi);
  }

  lemma {:induction false} OuterSecondRow(t: real, p: real, ang: Angles)
    requires OnCircle(ang)
    ensures ChiApply(OuterForm(t, p, ang), Direction(ang)).y == 0.0
  {
    SecondRow(OuterForm(t, p, ang), Direction(ang), t, p, ang.sinTheta, ang.cosTheta, ang.sinPhi, ang.cosPhi);
  }

  lemma {:induction false} OuterThirdRow(t: real, p: real, ang: Angles)
    requires OnCircle(ang)
    ensures ChiApply(OuterForm(t, p, ang), Direction(ang)).z == 0.0
  {
    ThirdRow(OuterForm(t, p, ang), Direction(ang), t, ang.sinTheta, ang.cosTheta, ang.sinPhi, ang.cosPhi);
  }

  /** One row of an outer form with these entries, times the direction
      (st cp, st sp, ct), factors through sin^2 phi + cos^2 phi - 1. */
  lemma {:induction false} FirstRow(chi: Chi, m: Vec3, t: real, p: real, st: real, ct: real, sp: real, cp: real)
    requires chi.xx == t * (ct * ct * (cp * cp)) + p * (st * st * (sp * sp))
    requires chi.xy == t * (ct * ct * cp * sp) - p * (st * st * cp * sp)
    requires chi.xz == -t * (st * ct * cp)
    requires m.x == st * cp && m.y == st * sp && m.z == ct
    requires sp * sp + cp * cp == 1.0
    ensures ChiApply(chi, m).x == 0.0
  {
    assert ChiApply(chi, m).x == t * (ct * ct) * st * cp * (cp * cp + sp * sp - 1.0);
  }

  lemma {:induction false} SecondRow(chi: Chi, m: Vec3, t: real, p: real, st: real, ct: real, sp: real, cp: real)
    requires chi.xy == t * (ct * ct * cp * sp) - p * (st * st * cp * sp)
    requires chi.yy == t * (ct * ct * (sp * sp)) + p * (st * st * (cp * cp))
    requires chi.yz == -t * (st * ct * sp)
    requires m.x == st * cp && m.y == st * sp && m.z == ct
    requires sp * sp + cp * cp == 1.0
    ensures ChiApply(chi, m).y == 0.0
  {
    assert ChiApply(chi, m).y == t * (ct * ct) * st * sp * (cp * cp + sp * sp - 1.0);
  }

  lemma {:induction false} ThirdRow(chi: Chi, m: Vec3, t: real, st: real, ct: real, sp: real, cp: real)
    requires chi.xz == -t * (st * ct * cp)
    requires chi.yz == -t * (st * ct * sp)
    requires chi.zz == t * (st * st)
    requires m.x == st * cp && m.y == st * sp && m.z == ct
    requires sp * sp + cp * cp == 1.0
    ensures ChiApply(chi, m).z == 0.0
  {
    assert ChiApply(chi, m).z == t * (st * st) * ct * (1.0 - cp * cp - sp * sp);
  }

  /** The susceptibility annihilates the magnetisation direction, chi m = 0. */
  lemma {:induction false} SusceptibilityIsTransverse(ms: real, ett: real, epp: real, ang: Angles)
    requires ett != 0.0 && epp != 0.0
    requires OnCircle(ang)
    ensures ChiApply(Susceptibility(ms, ett, epp, ang), Direction(ang)) == Vec3(0.0, 0.0, 0.0)
  {
    SusceptibilityIsOuterForm(ms, ett, epp, ang);
    OuterFormIsTransverse(ms * ms / ett, ms * ms / epp, ang);
  }

  /** Applied to any vector, the susceptibility as written differs from the
      transverse one, in its x component, by twice chi_xy times the y
      component of the vector. */
  lemma {:induction false} AsWrittenDeviation(ms: real, ett: real, epp: real, ang: Angles, v: Vec3)
    requires ett != 0.0 && epp != 0.0
    ensures ChiApply(SusceptibilityAsWritten(ms, ett, epp, ang), v).x
         == ChiApply(Susceptibility(ms, ett, epp, ang), v).x - 2.0 * Susceptibility(ms, ett, epp, ang).xy * v.y
    ensures ChiApply(SusceptibilityAsWritten(ms, ett, epp, ang), v).y
         == ChiApply(Susceptibility(ms, ett, epp, ang), v).y - 2.0 * Susceptibility(ms, ett, epp, ang).xy * v.x
  {
    AsWrittenDiffersInXY(ms, ett, epp, ang);
  }

  /** At theta = 90 degrees, phi with (sin, cos) = (3/5, 4/5), ms = 1 and
      E_tt = E_pp = 1, the susceptibility as written is not transverse:
      the x component of chi m is 72/125, where SusceptibilityIsTransverse
      gives 0 for the corrected tensor. */
  lemma {:induction false} AsWrittenNotTransverse()
    ensures OnCircle(Angles(1.0, 0.0, 0.6, 0.8))
    ensures ChiApply(SusceptibilityAsWritten(1.0, 1.0, 1.0, Angles(1.0, 0.0, 0.6, 0.8)), Direction(Angles(1.0, 0.0, 0.6, 0.8))).x
         == 0.576
  {
  }
}
