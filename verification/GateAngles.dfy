/** Every gate in terms of the angles of a macronode that teleports through it. */
module GateAngles {
  import opened Elementary
  import opened Operations
  import opened Teleportation

  // ----- single-mode gates -----

  lemma {:induction false} RotationEntries(c: real, s: real, c2: real, s2: real)
    requires c2 == c * c - s * s && s2 == 2.0 * (s * c)
    ensures VMatrix(-s, c, c, s, -1.0) == Mat2(c2, -s2, s2, c2)
  {
    var v := VMatrix(-s, c, c, s, -1.0);
    VEntries(-s, c, c, s, -1.0, 1.0, v);
    hide VMatrix;
    assert (c * c + -s * s) * 1.0 == c2 && (c * -s + -s * c) * 1.0 == -s2 && (s * c + c * s) * 1.0 == s2 && (s * -s + c * c) * 1.0 == c2;
  }

  lemma {:induction false} HalfAngle(f: Functions, h: real, phi: real)
    requires f.Lawful() && phi == 2.0 * h
    ensures f.cos(phi) == f.cos(h) * f.cos(h) - f.sin(h) * f.sin(h) && f.sin(phi) == 2.0 * (f.sin(h) * f.cos(h))
    ensures f.cos(h + f.halfPi) == -f.sin(h) && f.sin(h + f.halfPi) == f.cos(h)
    ensures f.sin(h - (h + f.halfPi)) == -1.0
  {
    f.Addition(h, h);
    f.Addition(h, f.halfPi);
    f.Negation(f.halfPi);
    assert h + h == phi && h - (h + f.halfPi) == -f.halfPi;
  }

  /** A rotation by phi is V(phi/2 + pi/2, phi/2). */
  lemma {:induction false} RotationIsV(f: Functions, phi: real)
    requires f.Lawful()
    ensures Rotation(f, phi) == V(f, phi / 2.0 + f.halfPi, phi / 2.0)
  {
    var h := phi / 2.0;
    HalfAngle(f, h, phi);
    RotationEntries(f.cos(h), f.sin(h), f.cos(phi), f.sin(phi));
    hide f.Lawful, VMatrix;
  }

  lemma {:induction false} TwoFactors(s: real, c: real)
    ensures s * c + c * -s == 0.0 && -s * c + s * c == 0.0
  {
  }

  lemma {:induction false} SqueezingEntries(c: real, s: real, t: real, det: real)
    requires c != 0.0 && s != 0.0 && t * c == s && det == -(2.0 * (s * c))
    ensures VMatrix(c, s, c, -s, det) == Mat2(0.0, Quotient(1.0, t), -t, 0.0)
  {
    var v, inv := VMatrix(c, s, c, -s, det), -1.0 / det;
    VEntries(c, s, c, -s, det, inv, v);
    hide VMatrix;
    assert t != 0.0 && s * c != 0.0 && inv * (2.0 * (s * c)) == 1.0;
    Solved(inv, s, c, t);
  }

  /** With inv = 1 / (2 s c) and s = t c. */
  lemma {:induction false} Solved(inv: real, s: real, c: real, t: real)
    requires c != 0.0 && t != 0.0 && t * c == s && inv * (2.0 * (s * c)) == 1.0
    ensures (c * s + c * -s) * inv == 0.0 && (-s * c + s * c) * inv == 0.0
    ensures (c * c + c * c) * inv == 1.0 / t
    ensures (-s * s + s * -s) * inv == -t
  {
    assert s * c == t * (c * c);
    var u := (2.0 * (c * c)) * inv;
    assert u * t == inv * (2.0 * (s * c));
    assert u == 1.0 / t;
    assert s * s == t * (s * c);
    assert (2.0 * (s * s)) * inv == t * (inv * (2.0 * (s * c)));
  }

  /** The sine and cosine at a quarter of pi are the same. */
  lemma {:induction false} Quarter(f: Functions)
    requires f.Lawful()
    ensures var q := f.halfPi / 2.0; f.sin(q) == f.cos(q) == f.invSqrt2 && 2.0 * (f.invSqrt2 * f.invSqrt2) == 1.0
  {
    var q, r := f.halfPi / 2.0, f.invSqrt2;
    f.Addition(q, q);
    assert q + q == f.halfPi;
    assert f.sin(f.halfPi) == 1.0;
    hide f.Lawful;
    var s := f.sin(q);
    assert (s - r) * r == 0.0;
  }

  lemma {:induction false} NoDivisor(c1: real, s1: real, c2: real, s2: real)
    ensures VMatrix(c1, s1, c2, s2, 0.0) == Mat2(0.0, 0.0, 0.0, 0.0)
  {
  }

  /** sin(a - b) for the two angles of a squeezing. */
  lemma {:induction false} Doubled(f: Functions, t: real, a: real, b: real)
    requires f.Lawful() && a - b == 2.0 * t
    ensures f.sin(b - a) == -(2.0 * (f.sin(t) * f.cos(t))) && (f.EquivModPi(a, b) <==> f.sin(t) * f.cos(t) == 0.0)
  {
    f.Addition(t, t);
    f.Negation(2.0 * t);
    assert t + t == 2.0 * t && b - a == -(2.0 * t);
  }

  lemma {:induction false} TangentFacts(f: Functions, theta: real)
    requires f.Lawful() && !f.EquivModPi(theta, 0.0)
    ensures f.sin(theta) != 0.0 && f.tan(theta) != 0.0
    ensures f.tan(theta) * f.cos(theta) == if f.cos(theta) == 0.0 then 0.0 else f.sin(theta)
  {
    assert theta - 0.0 == theta && f.Tangent(theta);
  }

  /** Squeezing(theta) is V(theta, -theta), unless the tangent of theta does not exist. */
  lemma {:induction false} SqueezingIsV(f: Functions, theta: real)
    requires f.Lawful() && !f.EquivModPi(theta, 0.0)
    ensures UnaryMatrix(f, Squeezing, [theta]) == V(f, theta, -theta) <==> !f.EquivModPi(theta, -theta)
  {
    hide f.Lawful, VMatrix, Quotient, f.EquivModPi;
    var c, s, t := f.cos(theta), f.sin(theta), f.tan(theta);
    TangentFacts(f, theta);
    f.Negation(theta);
    Doubled(f, theta, theta, -theta);
    SqueezingCase(c, s, t, f.sin(-theta - theta));
  }

  lemma {:induction false} SqueezingCase(c: real, s: real, t: real, det: real)
    requires s != 0.0 && t != 0.0 && t * c == (if c == 0.0 then 0.0 else s) && det == -(2.0 * (s * c))
    ensures Mat2(0.0, Quotient(1.0, t), -t, 0.0) == VMatrix(c, s, c, -s, det) <==> s * c != 0.0
  {
    hide VMatrix, Quotient;
    if c == 0.0 {
      NoDivisor(c, s, c, -s);
    } else {
      SqueezingEntries(c, s, t, det);
    }
  }

  /** The cosines and sines of q + t and q - t, at a quarter q of pi. */
  lemma {:induction false} AroundQuarter(c: real, s: real, r: real, c1: real, s1: real, c2: real, s2: real)
    requires 2.0 * (r * r) == 1.0 && s * s + c * c == 1.0
    requires c1 == r * c - r * s && s1 == r * c + r * s && c2 == r * c + r * s && s2 == r * c - r * s
    ensures c2 * s1 + c1 * s2 == 1.0 && s2 * c1 + s1 * c2 == 1.0
    ensures c2 * c1 + c1 * c2 == c * c - s * s && s2 * s1 + s1 * s2 == c * c - s * s
  {
    var u, w := c + s, c - s;
    assert c1 == r * w && s1 == r * u && c2 == r * u && s2 == r * w;
    assert c2 * s1 == (r * r) * (u * u) && c1 * s2 == (r * r) * (w * w) && c2 * c1 == (r * r) * (u * w) && s2 * s1 == (r * r) * (u * w);
    assert u * u + w * w == 2.0 && u * w == c * c - s * s;
  }

  lemma {:induction false} Squeezing45Entries(c: real, s: real, t: real, inv: real)
    requires c != 0.0 && t != 0.0 && t * c == s && s * s + c * c == 1.0 && inv * (2.0 * (s * c)) == 1.0
    ensures inv == (t + 1.0 / t) / 2.0 && (c * c - s * s) * inv == (1.0 / t - t) / 2.0
  {
    Solved(inv, s, c, t);
    assert 2.0 * ((c * c) * inv) == 1.0 / t && 2.0 * ((s * s) * inv) == t;
    assert (c * c) * inv + (s * s) * inv == inv;
  }

  lemma {:induction false} AnglesAroundQuarter(f: Functions, theta: real)
    requires f.Lawful()
    ensures var q, r := f.halfPi / 2.0, f.invSqrt2;
      && f.cos(theta + q) == r * f.cos(theta) - r * f.sin(theta) && f.sin(theta + q) == r * f.cos(theta) + r * f.sin(theta)
      && f.cos(q - theta) == r * f.cos(theta) + r * f.sin(theta) && f.sin(q - theta) == r * f.cos(theta) - r * f.sin(theta)
  {
    Quarter(f);
    f.Addition(theta, f.halfPi / 2.0);
    assert f.Difference(f.halfPi / 2.0, theta);
  }

  /** Squeezing45(theta) is V(theta + pi/4, pi/4 - theta), unless the tangent of theta does not exist. */
  lemma {:induction false} Squeezing45IsV(f: Functions, theta: real)
    requires f.Lawful() && !f.EquivModPi(theta, 0.0)
    ensures var a, b := theta + f.halfPi / 2.0, f.halfPi / 2.0 - theta;
      UnaryMatrix(f, Squeezing45, [theta]) == V(f, a, b) <==> !f.EquivModPi(a, b)
  {
    hide f.Lawful, VMatrix, Quotient, f.EquivModPi;
    var a, b := theta + f.halfPi / 2.0, f.halfPi / 2.0 - theta;
    var c, s, t, r := f.cos(theta), f.sin(theta), f.tan(theta), f.invSqrt2;
    TangentFacts(f, theta);
    f.Circle(theta);
    Quarter(f);
    AnglesAroundQuarter(f, theta);
    Doubled(f, theta, a, b);
    var c1, s1, c2, s2 := f.cos(a), f.sin(a), f.cos(b), f.sin(b);
    AroundQuarter(c, s, r, c1, s1, c2, s2);
    Squeezing45Case(c, s, t, c1, s1, c2, s2, f.sin(b - a));
  }

  lemma {:induction false} NeverZero(t: real)
    requires t != 0.0
    ensures t + 1.0 / t != 0.0
  {
    assert t * (1.0 / t) == 1.0;
  }

  lemma {:induction false} Squeezing45Case(c: real, s: real, t: real, c1: real, s1: real, c2: real, s2: real, det: real)
    requires s * s + c * c == 1.0 && s != 0.0 && t != 0.0 && t * c == (if c == 0.0 then 0.0 else s) && det == -(2.0 * (s * c))
    requires c2 * s1 + c1 * s2 == 1.0 && s2 * c1 + s1 * c2 == 1.0
    requires c2 * c1 + c1 * c2 == c * c - s * s && s2 * s1 + s1 * s2 == c * c - s * s
    ensures var d, od := (t + Quotient(1.0, t)) / 2.0, (Quotient(1.0, t) - t) / 2.0;
      Mat2(d, od, od, d) == VMatrix(c1, s1, c2, s2, det) <==> s * c != 0.0
  {
    if c == 0.0 {
      NoDivisor(c1, s1, c2, s2);
      NeverZero(t);
      hide VMatrix;
    } else {
      var v, inv := VMatrix(c1, s1, c2, s2, det), -1.0 / det;
      VEntries(c1, s1, c2, s2, det, inv, v);
      hide VMatrix;
      assert inv * (2.0 * (s * c)) == 1.0;
      Squeezing45Entries(c, s, t, inv);
    }
  }

  lemma {:induction false} ShearEntries(c: real, s: real, k: real)
    requires c > 0.0 && s == k * c
    ensures VMatrix(0.0, 1.0, c, s, -c) == Mat2(1.0, 0.0, 2.0 * k, 1.0)
    ensures VMatrix(s, c, 1.0, 0.0, -c) == Mat2(1.0, 2.0 * k, 0.0, 1.0)
  {
    var v, w, inv := VMatrix(0.0, 1.0, c, s, -c), VMatrix(s, c, 1.0, 0.0, -c), 1.0 / c;
    assert inv * c == 1.0 && -1.0 / -c == inv;
    VEntries(0.0, 1.0, c, s, -c, inv, v);
    VEntries(s, c, 1.0, 0.0, -c, inv, w);
    hide VMatrix;
    assert s * inv == k * (c * inv);
  }

  /** ShearXInvariant(kappa) is V(pi/2, arctan kappa). */
  lemma {:induction false} ShearXIsV(f: Functions, kappa: real)
    requires f.Lawful()
    ensures UnaryMatrix(f, ShearXInvariant, [kappa]) == V(f, f.halfPi, f.atan(kappa))
  {
    var t := f.atan(kappa);
    assert f.ArcTangent(kappa);
    f.QuarterTurnBack(t);
    ShearEntries(f.cos(t), f.sin(t), kappa);
    hide VMatrix;
  }

  /** ShearPInvariant(eta) is V(pi/2 - arctan eta, 0). */
  lemma {:induction false} ShearPIsV(f: Functions, eta: real)
    requires f.Lawful()
    ensures UnaryMatrix(f, ShearPInvariant, [eta]) == V(f, f.halfPi - f.atan(eta), 0.0)
  {
    var a := f.atan(eta);
    var t := f.halfPi - a;
    assert f.ArcTangent(eta) && f.Difference(f.halfPi, a);
    f.Zero();
    f.Negation(t);
    assert 0.0 - t == -t;
    ShearEntries(f.cos(a), f.sin(a), eta);
    hide VMatrix;
  }
}
