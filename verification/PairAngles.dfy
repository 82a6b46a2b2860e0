/** Every two-mode gate in terms of the angles of a macronode, or of the 50:50 beam splitter. */
module PairAngles {
  import opened Elementary
  import opened Operations
  import opened Points
  import opened Teleportation
  import opened GateAngles

  /** v on the difference of the two modes and w on their sum. */
  function OnDifferenceAndSum(v: Mat2, w: Mat2): Mat4 { Scale4(SumDifferenceMatrix(v, w), 0.5) }

  lemma {:induction false} ManualOnBoth(f: Functions, a: real, b: real, c: real, d: real)
    ensures ManualMatrix(f, a, b, c, d) == OnDifferenceAndSum(V(f, b, a), V(f, d, c))
  {
    ManualFactors(V(f, b, a), V(f, d, c));
    hide Mul4, Scale4, V, SumDifferenceMatrix, OnMode0, OnMode1;
  }

  lemma {:induction false} SameMat4(m: Mat4, k: Mat4)
    requires m.x0 == k.x0 && m.x1 == k.x1 && m.p0 == k.p0 && m.p1 == k.p1
    ensures m == k
  {
  }

  // ----- shears -----

  lemma {:induction false} ShearPair(minus: real, plus: real)
    ensures OnDifferenceAndSum(Mat2(1.0, 0.0, 2.0 * minus, 1.0), Mat2(1.0, 0.0, 2.0 * plus, 1.0))
            == Mat4(Vec4(1.0, 0.0, 0.0, 0.0), Vec4(0.0, 1.0, 0.0, 0.0),
                    Vec4(plus + minus, plus - minus, 1.0, 0.0), Vec4(plus - minus, plus + minus, 0.0, 1.0))
  {
    var v, w := Mat2(1.0, 0.0, 2.0 * minus, 1.0), Mat2(1.0, 0.0, 2.0 * plus, 1.0);
    var m := OnDifferenceAndSum(v, w);
    HalfEntries(v, w, m);
    hide SumDifferenceMatrix, Scale4;
    assert m.p0 == Vec4(plus + minus, plus - minus, 1.0, 0.0) && m.p1 == Vec4(plus - minus, plus + minus, 0.0, 1.0);
    assert m.x0 == Vec4(1.0, 0.0, 0.0, 0.0) && m.x1 == Vec4(0.0, 1.0, 0.0, 0.0);
  }

  lemma {:induction false} ShearXMatrix(f: Functions, kappa: real)
    requires f.Lawful()
    ensures V(f, f.halfPi, f.atan(kappa)) == Mat2(1.0, 0.0, 2.0 * kappa, 1.0)
  {
    ShearXIsV(f, kappa);
    hide f.Lawful, V;
  }

  lemma {:induction false} ShearManual(f: Functions, minus: real, plus: real)
    requires f.Lawful()
    ensures ManualMatrix(f, f.atan(minus), f.halfPi, f.atan(plus), f.halfPi)
            == Mat4(Vec4(1.0, 0.0, 0.0, 0.0), Vec4(0.0, 1.0, 0.0, 0.0),
                    Vec4(plus + minus, plus - minus, 1.0, 0.0), Vec4(plus - minus, plus + minus, 0.0, 1.0))
  {
    hide *;
    ShearXMatrix(f, minus);
    ShearXMatrix(f, plus);
    ManualOnBoth(f, f.atan(minus), f.halfPi, f.atan(plus), f.halfPi);
    ShearPair(minus, plus);
  }

  /** TwoModeShear(a, b) shears the difference of the modes by a - b/2 and their sum by a + b/2. */
  lemma {:induction false} TwoModeShearIsManual(f: Functions, a: real, b: real)
    requires f.Lawful()
    ensures BinaryMatrix(f, TwoModeShear, [a, b]) == ManualMatrix(f, f.atan(a - b / 2.0), f.halfPi, f.atan(a + b / 2.0), f.halfPi)
  {
    hide f.Lawful, ManualMatrix;
    ShearManual(f, a - b / 2.0, a + b / 2.0);
  }

  /** ControlledZ(g) shears the difference by -g/2 and the sum by g/2. */
  lemma {:induction false} ControlledZIsManual(f: Functions, g: real)
    requires f.Lawful()
    ensures BinaryMatrix(f, ControlledZ, [g]) == ManualMatrix(f, f.atan(-g / 2.0), f.halfPi, f.atan(g / 2.0), f.halfPi)
  {
    hide f.Lawful, ManualMatrix;
    ShearManual(f, -g / 2.0, g / 2.0);
  }

  // ----- beam splitters -----

  lemma {:induction false} RotationPair(sp: real, sm: real, cp: real, cm: real, v: Mat2, w: Mat2)
    requires v == Mat2(cp * cm - sp * sm, -(sp * cm + cp * sm), sp * cm + cp * sm, cp * cm - sp * sm)
    requires w == Mat2(cp * cm + sp * sm, -(sp * cm - cp * sm), sp * cm - cp * sm, cp * cm + sp * sm)
    ensures OnDifferenceAndSum(v, w) == BeamSplitterBlocks(sp, sm, cp, cm)
  {
    var m, k := OnDifferenceAndSum(v, w), BeamSplitterBlocks(sp, sm, cp, cm);
    HalfEntries(v, w, m);
    hide OnDifferenceAndSum, SumDifferenceMatrix, Scale4;
    var ss, cc, sc, cs := sp * sm, cp * cm, sp * cm, cp * sm;
    assert sm * cp == cs && -sp * cm == -sc;
    assert m.x0 == Vec4(cc, ss, -sc, cs) && m.x1 == Vec4(ss, cc, cs, -sc);
    assert m.p0 == Vec4(sc, -cs, cc, ss) && m.p1 == Vec4(-cs, sc, ss, cc);
    SameMat4(m, k);
  }

  lemma {:induction false} BeamManual(f: Functions, alpha: real, beta: real)
    requires f.Lawful()
    ensures ManualMatrix(f, alpha, alpha + f.halfPi, beta, beta + f.halfPi)
            == BeamSplitterBlocks(f.sin(alpha + beta), f.sin(alpha - beta), f.cos(alpha + beta), f.cos(alpha - beta))
  {
    hide f.Lawful, V, ManualMatrix, OnDifferenceAndSum, BeamSplitterBlocks;
    var p, m := alpha + beta, alpha - beta;
    assert 2.0 * alpha == p + m && 2.0 * beta == p - m;
    assert 2.0 * alpha / 2.0 == alpha && 2.0 * beta / 2.0 == beta;
    ManualOnBoth(f, alpha, alpha + f.halfPi, beta, beta + f.halfPi);
    RotationIsV(f, 2.0 * alpha);
    RotationIsV(f, 2.0 * beta);
    f.Addition(p, m);
    Subtraction(f, p, m);
    RotationPair(f.sin(p), f.sin(m), f.cos(p), f.cos(m), Rotation(f, 2.0 * alpha), Rotation(f, 2.0 * beta));
  }

  lemma {:induction false} Subtraction(f: Functions, a: real, b: real)
    requires f.Lawful()
    ensures f.sin(a - b) == f.sin(a) * f.cos(b) - f.cos(a) * f.sin(b) && f.cos(a - b) == f.cos(a) * f.cos(b) + f.sin(a) * f.sin(b)
  {
    assert f.Difference(a, b);
  }

  /** BeamSplitter rotates the difference of the modes by theta + arccos(sqrt R) and their sum by
      theta - arccos(sqrt R). */
  lemma {:induction false} BeamSplitterIsManual(f: Functions, sqrtR: real, theta: real)
    requires f.Lawful()
    ensures var alpha, beta := (theta + f.acos(sqrtR)) / 2.0, (theta - f.acos(sqrtR)) / 2.0;
      BinaryMatrix(f, BeamSplitter, [sqrtR, theta]) == ManualMatrix(f, alpha, alpha + f.halfPi, beta, beta + f.halfPi)
  {
    hide f.Lawful, ManualMatrix, BeamSplitterBlocks;
    BeamManual(f, (theta + f.acos(sqrtR)) / 2.0, (theta - f.acos(sqrtR)) / 2.0);
  }

  /** It sends the amplitude sqrt R of a mode, turned by theta, back into it and the remaining amplitude into the other. */
  lemma {:induction false} BeamSplitterAmplitudes(f: Functions, sqrtR: real, theta: real) returns (t: real)
    requires f.Lawful() && 0.0 <= sqrtR <= 1.0
    ensures t >= 0.0 && t * t + sqrtR * sqrtR == 1.0
    ensures BinaryMatrix(f, BeamSplitter, [sqrtR, theta]) == BeamSplitterBlocks(f.sin(theta), t, f.cos(theta), sqrtR)
  {
    var r := f.acos(sqrtR);
    t := f.sin(r);
    assert f.ArcCosine(sqrtR);
    f.Circle(r);
    assert (theta + r) / 2.0 + (theta - r) / 2.0 == theta && (theta + r) / 2.0 - (theta - r) / 2.0 == r;
    hide f.Lawful, BeamSplitterBlocks;
  }

  /** What BeamSplitterStd(theta, 0) does to two modes, for the cosine and sine of theta. */
  function Mixed(c: real, s: real, a: Quad, b: Quad): (Quad, Quad) {
    (Quad(c * a.x - s * b.x, c * a.p - s * b.p), Quad(s * a.x + c * b.x, s * a.p + c * b.p))
  }

  function Turned(c: real, s: real, q: Quad): Quad { Quad(c * q.x - s * q.p, s * q.x + c * q.p) }

  lemma {:induction false} TurnedIs(f: Functions, phi: real, q: Quad)
    ensures Act2(Rotation(f, phi), q) == Turned(f.cos(phi), f.sin(phi), q)
  {
  }

  /** What it does when the second angle has a cosine and a sine, multiplied into s as u and w. */
  function MixedBy(c: real, u: real, w: real, a: Quad, b: Quad): (Quad, Quad) {
    (Quad(c * a.x - u * b.x - w * b.p, c * a.p - u * b.p + w * b.x), Quad(u * a.x + c * b.x - w * a.p, u * a.p + c * b.p + w * a.x))
  }

  function StdBlocks(c: real, u: real, w: real): Mat4 { Blocks(Mat2(c, -u, u, c), Mat2(0.0, -w, -w, 0.0)) }

  lemma {:induction false} MixedRows(c: real, u: real, w: real, ax: real, bx: real, ap: real, bp: real)
    ensures Dot4(Vec4(c, -u, 0.0, -w), Vec4(ax, bx, ap, bp)) == c * ax - u * bx - w * bp
    ensures Dot4(Vec4(u, c, -w, 0.0), Vec4(ax, bx, ap, bp)) == u * ax + c * bx - w * ap
    ensures Dot4(Vec4(0.0, w, c, -u), Vec4(ax, bx, ap, bp)) == c * ap - u * bp + w * bx
    ensures Dot4(Vec4(w, 0.0, u, c), Vec4(ax, bx, ap, bp)) == u * ap + c * bp + w * ax
  {
  }

  lemma {:induction false} MixedActs(c: real, u: real, w: real, a: Quad, b: Quad)
    ensures Act4(StdBlocks(c, u, w), a, b) == MixedBy(c, u, w, a, b)
  {
    MixedRows(c, u, w, a.x, b.x, a.p, b.p);
    hide Dot4;
    var m := StdBlocks(c, u, w);
    assert m.x0 == Vec4(c, -u, 0.0, -w) && m.x1 == Vec4(u, c, -w, 0.0) && m.p0 == Vec4(0.0, w, c, -u) && m.p1 == Vec4(w, 0.0, u, c);
    var r, t := Act4(m, a, b), MixedBy(c, u, w, a, b);
    assert r.0.x == t.0.x && r.0.p == t.0.p && r.1.x == t.1.x && r.1.p == t.1.p;
  }

  lemma {:induction false} TurnBack(c: real, s: real, x: real, p: real)
    requires s * s + c * c == 1.0
    ensures c * (c * x + s * p) - s * (-s * x + c * p) == x && s * (c * x + s * p) + c * (-s * x + c * p) == p
  {
    assert c * (c * x + s * p) - s * (-s * x + c * p) == (s * s + c * c) * x;
    assert s * (c * x + s * p) + c * (-s * x + c * p) == (s * s + c * c) * p;
  }

  lemma {:induction false} MixedFirst(c: real, s: real, cp: real, sp: real, u: real, w: real, ax: real, ap: real, bx: real, bp: real, ux: real, up: real)
    requires u == s * cp && w == s * sp && ux == cp * bx + sp * bp && up == -sp * bx + cp * bp
    ensures c * ax - u * bx - w * bp == c * ax - s * ux && c * ap - u * bp + w * bx == c * ap - s * up
  {
  }

  lemma {:induction false} MixedSecond(
    c: real, s: real, cp: real, sp: real, u: real, w: real, ax: real, ap: real, bx: real, bp: real, ux: real, up: real,
    qx: real, qp: real, lx: real, lp: real)
    requires u == s * cp && w == s * sp && bx == cp * ux - sp * up && bp == sp * ux + cp * up
    requires qx == s * ax + c * ux && qp == s * ap + c * up
    requires lx == u * ax + c * bx - w * ap && lp == u * ap + c * bp + w * ax
    ensures lx == cp * qx - sp * qp && lp == sp * qx + cp * qp
  {
  }

  lemma {:induction false} MixedByTurned(c: real, s: real, cp: real, sp: real, u: real, w: real, a: Quad, b: Quad)
    requires sp * sp + cp * cp == 1.0 && u == s * cp && w == s * sp
    ensures MixedBy(c, u, w, a, b) == (Mixed(c, s, a, Turned(cp, -sp, b)).0, Turned(cp, sp, Mixed(c, s, a, Turned(cp, -sp, b)).1))
  {
    var b' := Turned(cp, -sp, b);
    TurnedParts(cp, sp, b, b');
    hide Turned;
    TurnBack(cp, sp, b.x, b.p);
    var mixed, l := Mixed(c, s, a, b'), MixedBy(c, u, w, a, b);
    MixedFirst(c, s, cp, sp, u, w, a.x, a.p, b.x, b.p, b'.x, b'.p);
    MixedSecond(c, s, cp, sp, u, w, a.x, a.p, b.x, b.p, b'.x, b'.p, mixed.1.x, mixed.1.p, l.1.x, l.1.p);
    assert l.0 == mixed.0;
    TurnedBy(cp, sp, mixed.1, l.1);
  }

  lemma {:induction false} TurnedParts(c: real, s: real, b: Quad, r: Quad)
    requires r == Turned(c, -s, b)
    ensures r.x == c * b.x + s * b.p && r.p == -s * b.x + c * b.p
  {
    assert -s * b.p == -(s * b.p);
  }

  lemma {:induction false} TurnedBy(c: real, s: real, q: Quad, r: Quad)
    requires r.x == c * q.x - s * q.p && r.p == s * q.x + c * q.p
    ensures r == Turned(c, s, q)
  {
  }

  lemma {:induction false} StdMatrix(f: Functions, theta: real, phi: real, u: real, w: real)
    requires u == f.sin(theta) * f.cos(phi) && w == f.sin(theta) * f.sin(phi)
    ensures BinaryMatrix(f, BeamSplitterStd, [theta, phi]) == StdBlocks(f.cos(theta), u, w)
  {
    var s, cp, sp := f.sin(theta), f.cos(phi), f.sin(phi);
    assert -s * cp == -u && -s * sp == -w;
    hide Blocks;
  }

  /** BeamSplitterStd(theta, phi) mixes the modes by theta, with the second one turned by -phi before and by phi after. */
  lemma {:induction false} StdActs(f: Functions, theta: real, phi: real, a: Quad, b: Quad)
    requires f.Lawful()
    ensures var mixed := Mixed(f.cos(theta), f.sin(theta), a, Act2(Rotation(f, -phi), b));
      Act4(BinaryMatrix(f, BeamSplitterStd, [theta, phi]), a, b) == (mixed.0, Act2(Rotation(f, phi), mixed.1))
  {
    hide *;
    f.Circle(phi);
    f.Negation(phi);
    var c, s, cp, sp := f.cos(theta), f.sin(theta), f.cos(phi), f.sin(phi);
    var u, w := s * cp, s * sp;
    StdMatrix(f, theta, phi, u, w);
    MixedActs(c, u, w, a, b);
    TurnedIs(f, -phi, b);
    MixedByTurned(c, s, cp, sp, u, w, a, b);
    TurnedIs(f, phi, Mixed(c, s, a, Turned(cp, -sp, b)).1);
  }

  /** The 50:50 beam splitter of the machinery is BeamSplitterStd(pi/4, 0). */
  lemma {:induction false} FiftyIsStd(f: Functions)
    requires f.Lawful()
    ensures BinaryMatrix(f, BeamSplitter50, []) == BinaryMatrix(f, BeamSplitterStd, [f.halfPi / 2.0, 0.0])
  {
    Quarter(f);
    f.Zero();
    hide f.Lawful;
    var r := f.invSqrt2;
    assert r * 0.0 == 0.0 && -r * 0.0 == 0.0 && r * 1.0 == r && -r * 1.0 == -r;
  }

  /** Mixing by one angle after another is mixing by their sum. */
  lemma {:induction false} MixingAdds(f: Functions, theta: real, eta: real, a: Quad, b: Quad)
    requires f.Lawful()
    ensures var (u, w) := Mixed(f.cos(theta), f.sin(theta), a, b);
      Mixed(f.cos(eta), f.sin(eta), u, w) == Mixed(f.cos(theta + eta), f.sin(theta + eta), a, b)
  {
    f.Addition(theta, eta);
    hide f.Lawful;
    var c, s, d, e := f.cos(theta), f.sin(theta), f.cos(eta), f.sin(eta);
    MixingTwice(c, s, d, e, a.x, b.x);
    MixingTwice(c, s, d, e, a.p, b.p);
    var (u, w) := Mixed(c, s, a, b);
    var l, r := Mixed(d, e, u, w), Mixed(f.cos(theta + eta), f.sin(theta + eta), a, b);
    assert l.0.x == r.0.x && l.0.p == r.0.p && l.1.x == r.1.x && l.1.p == r.1.p;
  }

  lemma {:induction false} MixingTwice(c: real, s: real, d: real, e: real, x: real, y: real)
    ensures d * (c * x - s * y) - e * (s * x + c * y) == (c * d - s * e) * x - (s * d + c * e) * y
    ensures e * (c * x - s * y) + d * (s * x + c * y) == (s * d + c * e) * x + (c * d - s * e) * y
  {
  }
}
