/** Macronodes used for initialization and measurement: four equal angles. */
module Readout {
  import opened Elementary
  import opened Operations
  import opened Points
  import opened Teleportation

  /** From the four measured values m to the reported values M_a, M_b, M_c, M_d. */
  function MReadout(abcd: nat, m: Measured): real {
    match abcd
    case 0 => (m.a - m.b + m.c - m.d) / 2.0
    case 1 => (m.a + m.b + m.c + m.d) / 2.0
    case 2 => (-m.a + m.b + m.c - m.d) / 2.0
    case _ => (-m.a - m.b + m.c + m.d) / 2.0
  }

  /** Half the alternating sum of four points: what a micronode holds when it is measured. */
  function Mix(a: Quad, b: Quad, c: Quad, d: Quad): Quad {
    Quad((a.x + b.x + c.x + d.x) / 2.0, (a.p + b.p + c.p + d.p) / 2.0)
  }

  function Neg(a: Quad): Quad { Quad(-a.x, -a.p) }

  lemma {:induction false} TwoSplits(r: real, a: real, b: real, c: real, d: real, u: real, v: real)
    requires 2.0 * r * r == 1.0 && u == r * (a - b) && v == r * (c - d)
    ensures r * (u + v) == (a + -b + c + -d) / 2.0 && r * (u - v) == (a + -b + -c + d) / 2.0
  {
    assert r * (u + v) == (r * r) * (a - b + c - d) && r * (u - v) == (r * r) * (a - b - c + d);
  }

  /** Two beam splitters in a row: each of four points enters with weight one half. */
  lemma {:induction false} TwoBeams(f: Functions, a: Quad, b: Quad, c: Quad, d: Quad, u: Quad, v: Quad)
    requires 2.0 * f.invSqrt2 * f.invSqrt2 == 1.0
    requires u.x == f.invSqrt2 * (a.x - b.x) && u.p == f.invSqrt2 * (a.p - b.p)
    requires v.x == f.invSqrt2 * (c.x - d.x) && v.p == f.invSqrt2 * (c.p - d.p)
    ensures Beam(f, u, v).1 == Mix(a, Neg(b), c, Neg(d)) && Beam(f, u, v).0 == Mix(a, Neg(b), Neg(c), d)
  {
    var r, ax, ap, bx, bp, cx, cp, dx, dp := f.invSqrt2, a.x, a.p, b.x, b.p, c.x, c.p, d.x, d.p;
    var ux, up, vx, vp := u.x, u.p, v.x, v.p;
    TwoSplits(r, ax, bx, cx, dx, ux, vx);
    TwoSplits(r, ap, bp, cp, dp, up, vp);
    var plus, minus := Beam(f, u, v).1, Beam(f, u, v).0;
    assert plus.x == Mix(a, Neg(b), c, Neg(d)).x && plus.p == Mix(a, Neg(b), c, Neg(d)).p;
    assert minus.x == Mix(a, Neg(b), Neg(c), d).x && minus.p == Mix(a, Neg(b), Neg(c), d).p;
  }

  lemma {:induction false} NegTwice(a: Quad)
    ensures Neg(Neg(a)) == a
  {
  }

  lemma {:induction false} Difference(f: Functions, a: Quad, b: Quad)
    ensures Beam(f, a, b).0.x == f.invSqrt2 * (a.x - b.x) && Beam(f, a, b).0.p == f.invSqrt2 * (a.p - b.p)
    ensures Beam(f, a, b).1.x == f.invSqrt2 * (a.x - Neg(b).x) && Beam(f, a, b).1.p == f.invSqrt2 * (a.p - Neg(b).p)
  {
  }

  /** What a macronode measures and emits, in terms of what entered it, for any resources. */
  lemma {:induction false} Outputs(f: Functions, t: MacronodeAngle, b: Quad, d: Quad, c: Quad, a: Quad, b1: Quad, d1: Quad)
    requires f.Lawful()
    ensures var (m, wb1, wd1) := Macronode(f, t, b, d, c, a, b1, d1);
      && m == Measured(Quadrature(f, t.a, Mix(b, Neg(d), a, Neg(b1))), Quadrature(f, t.b, Mix(b, Neg(d), Neg(a), b1)),
                       Quadrature(f, t.c, Mix(b, d, c, Neg(d1))), Quadrature(f, t.d, Mix(b, d, Neg(c), d1)))
      && wb1 == Mix(c, d1, a, b1) && wd1 == Mix(c, d1, Neg(a), Neg(b1))
  {
    hide Beam, Mix, Neg, Quadrature, Functions.OnCircle, Functions.Difference, Functions.Tangent, Functions.Exponential, Functions.ArcTangent, Functions.ArcCosine;
    Difference(f, b, d);
    Difference(f, a, b1);
    Difference(f, c, d1);
    var (vb, vd) := Beam(f, b, d);
    var (va, vb1) := Beam(f, a, b1);
    var (vc, vd1) := Beam(f, c, d1);
    TwoBeams(f, b, d, a, b1, vb, va);
    TwoBeams(f, b, Neg(d), c, d1, vd, vc);
    TwoBeams(f, c, Neg(d1), a, Neg(b1), vd1, vb1);
    NegTwice(d);
    NegTwice(d1);
    NegTwice(b1);
  }

  // ----- reading a quadrature -----

  /** All four measurements read the same quadrature, sign included. */
  predicate SameQuadratures(f: Functions, t: MacronodeAngle, theta: real) {
    && f.sin(t.a) == f.sin(theta) && f.cos(t.a) == f.cos(theta)
    && f.sin(t.b) == f.sin(theta) && f.cos(t.b) == f.cos(theta)
    && f.sin(t.c) == f.sin(theta) && f.cos(t.c) == f.cos(theta)
    && f.sin(t.d) == f.sin(theta) && f.cos(t.d) == f.cos(theta)
  }

  /** For these inputs M_b and M_d are the theta quadratures of the two displaced inputs. */
  predicate ReadsInputs(f: Functions, t: MacronodeAngle, theta: real, b: Quad, d: Quad, c: Quad, a: Quad, b1: Quad, d1: Quad) {
    var m := Macronode(f, t, b, d, c, a, b1, d1).0;
    MReadout(1, m) == Quadrature(f, theta, b) && MReadout(3, m) == Quadrature(f, theta, d)
  }

  ghost predicate AlwaysReadsInputs(f: Functions, t: MacronodeAngle, theta: real) {
    forall b, d, c, a, b1, d1 :: ReadsInputs(f, t, theta, b, d, c, a, b1, d1)
  }

  lemma {:induction false} QuadratureSum(s: real, c: real, ax: real, ap: real, bx: real, bp: real, cx: real, cp: real, dx: real, dp: real, x: real, p: real)
    requires ax + bx + cx + dx == 2.0 * x && ap + bp + cp + dp == 2.0 * p
    ensures ((s * ax + c * ap) + (s * bx + c * bp) + (s * cx + c * cp) + (s * dx + c * dp)) / 2.0 == s * x + c * p
  {
    assert s * (ax + bx + cx + dx) == s * (2.0 * x) && c * (ap + bp + cp + dp) == c * (2.0 * p);
  }

  lemma {:induction false} FourReadings(f: Functions, theta: real, a: Quad, b: Quad, c: Quad, d: Quad, z: Quad)
    requires a.x + b.x + c.x + d.x == 2.0 * z.x && a.p + b.p + c.p + d.p == 2.0 * z.p
    ensures (Quadrature(f, theta, a) + Quadrature(f, theta, b) + Quadrature(f, theta, c) + Quadrature(f, theta, d)) / 2.0
            == Quadrature(f, theta, z)
  {
    var s, co, ax, ap, bx, bp, cx, cp, dx, dp, x, p := f.sin(theta), f.cos(theta), a.x, a.p, b.x, b.p, c.x, c.p, d.x, d.p, z.x, z.p;
    QuadratureSum(s, co, ax, ap, bx, bp, cx, cp, dx, dp, x, p);
  }

  lemma {:induction false} SameReading(f: Functions, theta: real, theta': real, a: Quad)
    requires f.sin(theta) == f.sin(theta') && f.cos(theta) == f.cos(theta')
    ensures Quadrature(f, theta, a) == Quadrature(f, theta', a)
  {
  }

  lemma {:induction false} NegReading(f: Functions, theta: real, a: Quad)
    ensures Quadrature(f, theta, Neg(a)) == -Quadrature(f, theta, a)
  {
  }

  lemma {:induction false} SameQuadraturesRead(f: Functions, t: MacronodeAngle, theta: real, b: Quad, d: Quad, c: Quad, a: Quad, b1: Quad, d1: Quad)
    requires f.Lawful() && SameQuadratures(f, t, theta)
    ensures ReadsInputs(f, t, theta, b, d, c, a, b1, d1)
  {
    Outputs(f, t, b, d, c, a, b1, d1);
    hide Macronode, Quadrature;
    var wa, wb, wc, wd := Mix(b, Neg(d), a, Neg(b1)), Mix(b, Neg(d), Neg(a), b1), Mix(b, d, c, Neg(d1)), Mix(b, d, Neg(c), d1);
    SameReading(f, t.a, theta, wa);
    SameReading(f, t.b, theta, wb);
    SameReading(f, t.c, theta, wc);
    SameReading(f, t.d, theta, wd);
    FourReadings(f, theta, wa, wb, wc, wd, b);
    NegReading(f, theta, wa);
    NegReading(f, theta, wb);
    FourReadings(f, theta, Neg(wa), Neg(wb), wc, wd, d);
  }

  const ORIGIN: Quad := Quad(0.0, 0.0)

  function Halved(e: Quad): Quad { Quad(e.x / 2.0, e.p / 2.0) }

  lemma {:induction false} HalvedReading(f: Functions, theta: real, e: Quad)
    ensures Quadrature(f, theta, Halved(e)) == Quadrature(f, theta, e) / 2.0
    ensures Quadrature(f, theta, ORIGIN) == 0.0
  {
    var s, c, x, p := f.sin(theta), f.cos(theta), e.x, e.p;
    assert s * (x / 2.0) + c * (p / 2.0) == (s * x + c * p) / 2.0;
  }

  /** Inputs for which only one of the four measurements sees anything. */
  lemma {:induction false} Probe(f: Functions, t: MacronodeAngle, theta: real, e: Quad)
    requires f.Lawful() && AlwaysReadsInputs(f, t, theta)
    ensures Quadrature(f, t.a, e) == Quadrature(f, t.b, e) == Quadrature(f, t.c, e) == Quadrature(f, t.d, e) == Quadrature(f, theta, e)
  {
    hide Macronode, Quadrature, Functions.Lawful;
    var h, n := Halved(e), Neg(Halved(e));
    assert ReadsInputs(f, t, theta, h, n, ORIGIN, e, ORIGIN, ORIGIN) && ReadsInputs(f, t, theta, h, n, ORIGIN, Neg(e), ORIGIN, ORIGIN);
    assert ReadsInputs(f, t, theta, h, h, e, ORIGIN, ORIGIN, ORIGIN) && ReadsInputs(f, t, theta, h, h, Neg(e), ORIGIN, ORIGIN, ORIGIN);
    Outputs(f, t, h, n, ORIGIN, e, ORIGIN, ORIGIN);
    Outputs(f, t, h, n, ORIGIN, Neg(e), ORIGIN, ORIGIN);
    Outputs(f, t, h, h, e, ORIGIN, ORIGIN, ORIGIN);
    Outputs(f, t, h, h, Neg(e), ORIGIN, ORIGIN, ORIGIN);
    assert Mix(h, Neg(n), e, Neg(ORIGIN)) == e && Mix(h, Neg(n), Neg(e), ORIGIN) == ORIGIN;
    assert Mix(h, Neg(n), Neg(e), Neg(ORIGIN)) == ORIGIN && Mix(h, Neg(n), Neg(Neg(e)), ORIGIN) == e;
    assert Mix(h, n, ORIGIN, Neg(ORIGIN)) == ORIGIN && Mix(h, n, Neg(ORIGIN), ORIGIN) == ORIGIN;
    assert Mix(h, h, e, Neg(ORIGIN)) == e && Mix(h, h, Neg(e), ORIGIN) == ORIGIN;
    assert Mix(h, h, Neg(e), Neg(ORIGIN)) == ORIGIN && Mix(h, h, Neg(Neg(e)), ORIGIN) == e;
    assert Mix(h, Neg(h), ORIGIN, Neg(ORIGIN)) == ORIGIN && Mix(h, Neg(h), Neg(ORIGIN), ORIGIN) == ORIGIN;
    HalvedReading(f, t.a, e);
    HalvedReading(f, t.b, e);
    HalvedReading(f, t.c, e);
    HalvedReading(f, t.d, e);
    HalvedReading(f, theta, e);
  }

  /** M_b and M_d report a quadrature of the two inputs, for every squeezing and every input, exactly
      when the four angles have the same sine and the same cosine.  Angles that are only equal modulo
      pi are not enough (see below), although they select the same feedforward. */
  lemma {:induction false} ReadoutExact(f: Functions, t: MacronodeAngle, theta: real)
    requires f.Lawful()
    ensures SameQuadratures(f, t, theta) <==> AlwaysReadsInputs(f, t, theta)
  {
    if SameQuadratures(f, t, theta) {
      forall b, d, c, a, b1, d1 ensures ReadsInputs(f, t, theta, b, d, c, a, b1, d1) {
        SameQuadraturesRead(f, t, theta, b, d, c, a, b1, d1);
      }
    }
    if AlwaysReadsInputs(f, t, theta) {
      Probe(f, t, theta, Quad(1.0, 0.0));
      Probe(f, t, theta, Quad(0.0, 1.0));
    }
  }

  /** Four angles equal modulo pi that do not report a quadrature of the inputs, for any theta. */
  lemma {:induction false} EqualModPiIsNotEnough(f: Functions, a: real, theta: real) returns (t: MacronodeAngle)
    requires f.Lawful()
    ensures t == MacronodeAngle(a, (a + f.halfPi) + f.halfPi, a, a)
    ensures t.IsMeasurable(f) && !AlwaysReadsInputs(f, t, theta)
  {
    t := MacronodeAngle(a, (a + f.halfPi) + f.halfPi, a, a);
    f.Addition(a, f.halfPi);
    f.Addition(a + f.halfPi, f.halfPi);
    assert f.sin(t.b) == -f.sin(a) && f.cos(t.b) == -f.cos(a);
    assert f.OnCircle(a);
    assert f.Difference(a, a) && f.Difference(a, t.b) && f.Difference(t.b, a);
    ReadoutExact(f, t, theta);
  }

  /** Two directions parallel to a third are parallel. */
  lemma {:induction false} Parallel(s: real, c: real, t: real, d: real, u: real, e: real)
    requires s * s + c * c == 1.0 && s * d - c * t == 0.0 && s * e - c * u == 0.0
    ensures t * e - d * u == 0.0
  {
    var x, y := s * t + c * d, s * u + c * e;
    assert t == s * x && d == c * x by { Along(s, c, t, d, x); }
    assert u == s * y && e == c * y by { Along(s, c, u, e, y); }
    assert (s * x) * (c * y) == (c * x) * (s * y);
  }

  lemma {:induction false} Along(s: real, c: real, t: real, d: real, x: real)
    requires s * s + c * c == 1.0 && s * d - c * t == 0.0 && x == s * t + c * d
    ensures t == s * x && d == c * x
  {
    assert s * x == (s * s) * t + c * (s * d) && c * x == s * (c * t) + (c * c) * d;
    assert (s * s) * t + (c * c) * t == t && (s * s) * d + (c * c) * d == d by { Whole(s * s, c * c, t); Whole(s * s, c * c, d); }
    assert c * (s * d) == c * (c * t) && s * (c * t) == s * (s * d);
  }

  lemma {:induction false} Whole(a: real, b: real, t: real)
    requires a + b == 1.0
    ensures a * t + b * t == t
  {
    assert (a + b) * t == t;
  }

  lemma {:induction false} EquivTransitive(f: Functions, a: real, b: real, c: real)
    requires f.Lawful() && f.EquivModPi(a, b) && f.EquivModPi(a, c)
    ensures f.EquivModPi(b, c)
  {
    f.Circle(a);
    assert f.Difference(a, b) && f.Difference(a, c) && f.Difference(b, c);
    hide f.Lawful;
    Parallel(f.sin(a), f.cos(a), f.sin(b), f.cos(b), f.sin(c), f.cos(c));
  }

  /** The test for a measurable macronode compares five pairs; it accepts exactly when all angles are equal modulo pi. */
  lemma {:induction false} MeasurableExactly(f: Functions, t: MacronodeAngle)
    requires f.Lawful()
    ensures t.IsMeasurable(f) <==> f.EquivModPi(t.a, t.b) && f.EquivModPi(t.a, t.c) && f.EquivModPi(t.a, t.d)
  {
    hide f.Lawful, f.EquivModPi;
    if f.EquivModPi(t.a, t.b) && f.EquivModPi(t.a, t.c) && f.EquivModPi(t.a, t.d) {
      EquivTransitive(f, t.a, t.b, t.c);
      EquivTransitive(f, t.a, t.c, t.d);
    }
  }

  // ----- what a measurement macronode sends on -----

  lemma {:induction false} QuarterTurn(s: real, c: real, x: real, p: real, l: real, zx: real, zp: real)
    requires s * s + c * c == 1.0 && l == s * zx + c * zp
    ensures s * (x + -l * s) - c * (p + l * c) == s * (x - zx) - c * (p + zp)
  {
    assert s * (x + -l * s) - c * (p + l * c) == s * x - c * p - l * (s * s + c * c);
  }

  /** The displacement by r of the quadrature conjugate to the one at theta. */
  function Conjugate(f: Functions, theta: real, r: real): Quad { Quad(-r * f.sin(theta), r * f.cos(theta)) }

  lemma {:induction false} SqueezedPart(f: Functions, theta: real, w: Quad, z: Quad, out: Quad)
    requires f.OnCircle(theta)
    requires out == Plus(w, Conjugate(f, theta, Quadrature(f, theta, z)))
    ensures f.sin(theta) * out.x - f.cos(theta) * out.p == f.sin(theta) * (w.x - z.x) - f.cos(theta) * (w.p + z.p)
  {
    var s, c, x, p, l, zx, zp := f.sin(theta), f.cos(theta), w.x, w.p, Quadrature(f, theta, z), z.x, z.p;
    QuarterTurn(s, c, x, p, l, zx, zp);
  }

  /** The quadrature that ends up squeezed. */
  function Squeezed(f: Functions, theta: real, q: Quad): real {
    f.sin(theta) * q.x - f.cos(theta) * q.p
  }

  /** A correction by the z quadrature moves the squeezed quadrature by the one of the conjugate of z. */
  lemma {:induction false} LocalCorrection(f: Functions, t: MacronodeAngle, theta: real, b: Quad, d: Quad, c: Quad, a: Quad, b1: Quad, d1: Quad)
    requires f.Lawful() && SameQuadratures(f, t, theta)
    ensures var m := Macronode(f, t, b, d, c, a, b1, d1).0;
      && MReadout(0, m) == Quadrature(f, theta, Mix(a, Neg(b1), c, Neg(d1)))
      && MReadout(2, m) == Quadrature(f, theta, Mix(Neg(a), b1, c, Neg(d1)))
  {
    Outputs(f, t, b, d, c, a, b1, d1);
    hide Macronode, Quadrature;
    var wa, wb, wc, wd := Mix(b, Neg(d), a, Neg(b1)), Mix(b, Neg(d), Neg(a), b1), Mix(b, d, c, Neg(d1)), Mix(b, d, Neg(c), d1);
    SameReading(f, t.a, theta, wa);
    SameReading(f, t.b, theta, wb);
    SameReading(f, t.c, theta, wc);
    SameReading(f, t.d, theta, wd);
    NegReading(f, theta, wa);
    NegReading(f, theta, wb);
    NegReading(f, theta, wd);
    FourReadings(f, theta, wa, Neg(wb), wc, Neg(wd), Mix(a, Neg(b1), c, Neg(d1)));
    FourReadings(f, theta, Neg(wa), wb, wc, Neg(wd), Mix(Neg(a), b1, c, Neg(d1)));
  }

  lemma {:induction false} SameAreEquiv(f: Functions, a: real, b: real)
    requires f.Lawful() && f.sin(a) == f.sin(b) && f.cos(a) == f.cos(b)
    ensures f.EquivModPi(a, b)
  {
    assert f.Difference(a, b);
    hide Functions.Lawful;
  }

  lemma {:induction false} SameIsMeasurable(f: Functions, t: MacronodeAngle, theta: real)
    requires f.Lawful() && SameQuadratures(f, t, theta)
    ensures t.IsMeasurable(f)
  {
    hide Functions.Lawful, Functions.EquivModPi;
    SameAreEquiv(f, t.a, t.b);
    SameAreEquiv(f, t.a, t.c);
    SameAreEquiv(f, t.a, t.d);
    SameAreEquiv(f, t.b, t.c);
    SameAreEquiv(f, t.c, t.d);
  }

  lemma {:induction false} IMacOf(f: Functions, t: MacronodeAngle, theta: real, m: Measured)
    requires f.Lawful() && SameQuadratures(f, t, theta)
    ensures FIMac(f, t, m).0 == Conjugate(f, theta, MReadout(0, m)) && FIMac(f, t, m).1 == Conjugate(f, theta, MReadout(2, m))
  {
    SameIsMeasurable(f, t, theta);
    hide Functions.Lawful, MacronodeAngle.IsMeasurable;
  }

  /** One corrected output, when w and z are made of the resources x and p. */
  lemma {:induction false} SqueezedOutput(f: Functions, theta: real, w: Quad, z: Quad, out: Quad, x: real, p: real)
    requires f.OnCircle(theta) && w.x - z.x == x && w.p + z.p == p
    requires out == Plus(w, Conjugate(f, theta, Quadrature(f, theta, z)))
    ensures Squeezed(f, theta, out) == f.sin(theta) * x - f.cos(theta) * p
  {
    hide Quadrature, Plus;
    SqueezedPart(f, theta, w, z, out);
  }

  lemma {:induction false} MixSums(a: Quad, b1: Quad, c: Quad, d1: Quad)
    ensures var w, z := Mix(c, d1, a, b1), Mix(a, Neg(b1), c, Neg(d1)); w.x - z.x == b1.x + d1.x && w.p + z.p == a.p + c.p
    ensures var w, z := Mix(c, d1, Neg(a), Neg(b1)), Mix(Neg(a), b1, c, Neg(d1)); w.x - z.x == d1.x - b1.x && w.p + z.p == c.p - a.p
  {
  }

  /** The outputs of a measurement macronode: whatever was measured, their squeezed quadratures are made
      of the squeezed quadratures of the four resource modes alone, each with weight one. */
  lemma {:induction false} Initialized(f: Functions, t: MacronodeAngle, theta: real, b: Quad, d: Quad, c: Quad, a: Quad, b1: Quad, d1: Quad)
    requires f.Lawful() && SameQuadratures(f, t, theta)
    ensures var (m, wb1, wd1) := Macronode(f, t, b, d, c, a, b1, d1);
      && Squeezed(f, theta, Plus(wb1, FIMac(f, t, m).0)) == f.sin(theta) * (b1.x + d1.x) - f.cos(theta) * (a.p + c.p)
      && Squeezed(f, theta, Plus(wd1, FIMac(f, t, m).1)) == f.sin(theta) * (d1.x - b1.x) - f.cos(theta) * (c.p - a.p)
  {
    hide *;
    OnItsCircle(f, theta);
    LocalCorrection(f, t, theta, b, d, c, a, b1, d1);
    Outputs(f, t, b, d, c, a, b1, d1);
    var (m, wb1, wd1) := Macronode(f, t, b, d, c, a, b1, d1);
    IMacOf(f, t, theta, m);
    MixSums(a, b1, c, d1);
    SqueezedOutput(f, theta, wb1, Mix(a, Neg(b1), c, Neg(d1)), Plus(wb1, FIMac(f, t, m).0), b1.x + d1.x, a.p + c.p);
    SqueezedOutput(f, theta, wd1, Mix(Neg(a), b1, c, Neg(d1)), Plus(wd1, FIMac(f, t, m).1), d1.x - b1.x, c.p - a.p);
  }

  lemma {:induction false} OnItsCircle(f: Functions, a: real)
    requires f.Lawful()
    ensures f.OnCircle(a)
  {
  }

  /** The other quadrature of a state squeezed at angle theta - pi/2. */
  function Stretched(f: Functions, theta: real, q: Quad): real {
    f.cos(theta) * q.x + f.sin(theta) * q.p
  }

  /** Every point is a resource state at angle theta - pi/2 with its own squeezed quadrature. */
  lemma {:induction false} AsResource(f: Functions, theta: real, q: Quad)
    requires f.Lawful()
    ensures q == Resource(f, theta - f.halfPi, Quad(Squeezed(f, theta, q), Stretched(f, theta, q)))
  {
    f.QuarterTurnBack(theta);
    assert f.OnCircle(theta);
    var s, c, x, p := f.sin(theta), f.cos(theta), q.x, q.p;
    hide Functions.OnCircle, Functions.Difference, Functions.Tangent, Functions.Exponential, Functions.ArcTangent, Functions.ArcCosine, Functions.Lawful;
    RotateBack(s, c, x, p);
    var r := Resource(f, theta - f.halfPi, Quad(Squeezed(f, theta, q), Stretched(f, theta, q)));
    assert r.x == x && r.p == p;
  }

  lemma {:induction false} RotateBack(s: real, c: real, x: real, p: real)
    requires s * s + c * c == 1.0
    ensures s * (s * x - c * p) - -c * (c * x + s * p) == x
    ensures -c * (s * x - c * p) + s * (c * x + s * p) == p
  {
    assert s * (s * x - c * p) - -c * (c * x + s * p) == (s * s + c * c) * x;
    assert -c * (s * x - c * p) + s * (c * x + s * p) == (s * s + c * c) * p;
  }

  // ----- variances -----

  /** hbar / 2 times the factor of a squeezing level in dB. */
  function SqueezedVariance(pow10: real -> real, level: real): real {
    0.5 * Quotient(1.0, pow10(level * 0.1))
  }

  function MeasurementSqueezingLevel(log10: real -> real, level: real): real {
    level - 10.0 * log10(2.0)
  }

  /** The level of the graph's replacements stands for twice the variance of one resource mode. */
  lemma {:induction false} Doubling(pow10: real -> real, log10: real -> real, level: real)
    requires pow10(log10(2.0)) == 2.0 && pow10(level * 0.1) > 0.0
    requires pow10(level * 0.1 - log10(2.0)) * pow10(log10(2.0)) == pow10(level * 0.1)
    ensures SqueezedVariance(pow10, MeasurementSqueezingLevel(log10, level)) == 2.0 * SqueezedVariance(pow10, level)
  {
    assert MeasurementSqueezingLevel(log10, level) * 0.1 == level * 0.1 - log10(2.0);
  }
}
