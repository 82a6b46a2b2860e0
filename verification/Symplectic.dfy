/** Every gate is symplectic: it keeps the area two phase-space points span, and so can be undone. */
module Symplectic {
  import opened Elementary
  import opened Operations
  import opened Points
  import opened Teleportation

  /** The symplectic form of one mode. */
  function Area(u: Quad, v: Quad): real { u.x * v.p - u.p * v.x }

  /** The symplectic form of two modes. */
  function Omega(u: Vec4, v: Vec4): real { Cross(u.x0, u.p0, v.x0, v.p0) + Cross(u.x1, u.p1, v.x1, v.p1) }

  function Cross(x: real, p: real, y: real, q: real): real { x * q - p * y }

  ghost predicate Preserves2(m: Mat2) {
    forall u: Quad, v: Quad :: Area(Act2(m, u), Act2(m, v)) == Area(u, v)
  }

  ghost predicate Preserves4(m: Mat4) {
    forall u: Vec4, v: Vec4 :: Omega(Apply4(m, u), Apply4(m, v)) == Omega(u, v)
  }

  /** m preserves the form, and so does its transpose. */
  ghost predicate Symplectic2(m: Mat2) { Preserves2(m) && Preserves2(Transpose2(m)) }

  ghost predicate Symplectic4(m: Mat4) { Preserves4(m) && Preserves4(Transpose4(m)) }

  // ----- one mode: determinant one -----

  function Det(m: Mat2): real { m.a * m.d - m.b * m.c }

  lemma {:induction false} AreaScales(m: Mat2, u: Quad, v: Quad)
    ensures Area(Act2(m, u), Act2(m, v)) == Det(m) * Area(u, v)
  {
  }

  lemma {:induction false} DetProduct(m: Mat2, n: Mat2)
    ensures Det(Mul2(m, n)) == Det(m) * Det(n)
  {
  }

  lemma {:induction false} UnitDeterminant(m: Mat2)
    requires Det(m) == 1.0
    ensures Symplectic2(m)
  {
    hide Area, Act2, Det;
    assert Det(Transpose2(m)) == 1.0 by { DetTransposed(m); }
    forall u: Quad, v: Quad ensures Area(Act2(m, u), Act2(m, v)) == Area(u, v) {
      AreaScales(m, u, v);
    }
    forall u: Quad, v: Quad ensures Area(Act2(Transpose2(m), u), Act2(Transpose2(m), v)) == Area(u, v) {
      AreaScales(Transpose2(m), u, v);
    }
  }

  lemma {:induction false} DetTransposed(m: Mat2)
    ensures Det(Transpose2(m)) == Det(m)
  {
  }

  lemma {:induction false} Reciprocal(t: real, i: real)
    requires t != 0.0 && i == Quotient(1.0, t)
    ensures t * i == 1.0
  {
  }

  lemma {:induction false} HalfSums(t: real, i: real, d: real, od: real)
    requires t * i == 1.0 && d == (t + i) / 2.0 && od == (i - t) / 2.0
    ensures d * d - od * od == 1.0
  {
    assert d * d - od * od == (d - od) * (d + od);
  }

  lemma {:induction false} RotationDet(f: Functions, phi: real)
    requires f.Lawful()
    ensures Det(Rotation(f, phi)) == 1.0
  {
    assert f.OnCircle(phi);
  }

  lemma {:induction false} ArbitraryDet(f: Functions, alpha: real, beta: real, lambda: real)
    requires f.Lawful()
    ensures Det(ArbitraryMatrix(f, alpha, beta, lambda)) == 1.0
  {
    var d := Mat2(f.exp(-lambda), 0.0, 0.0, f.exp(lambda));
    assert f.Exponential(lambda);
    assert Det(d) == 1.0;
    RotationDet(f, alpha);
    RotationDet(f, beta);
    hide Det, Rotation, Mul2;
    DetProduct(Rotation(f, alpha), d);
    DetProduct(Mul2(Rotation(f, alpha), d), Rotation(f, beta));
  }

  lemma {:induction false} TangentNonZero(f: Functions, a: real)
    requires f.Lawful() && !f.EquivModPi(a, 0.0)
    ensures f.tan(a) != 0.0
  {
    assert a - 0.0 == a && f.Tangent(a);
  }

  /** Every single-mode gate the constructors accept has determinant one. */
  lemma {:induction false} UnaryDet(f: Functions, kind: Kind, modes: seq<nat>, p: seq<real>)
    requires f.Lawful() && IsUnaryGate(kind) && Constructible(f, kind, modes, p)
    ensures Det(UnaryMatrix(f, kind, p)) == 1.0
  {
    match kind
    case PhaseRotation => RotationDet(f, p[0]);
    case Squeezing =>
      TangentNonZero(f, p[0]);
      Reciprocal(f.tan(p[0]), Quotient(1.0, f.tan(p[0])));
    case Squeezing45 =>
      var t := f.tan(p[0]);
      var i := Quotient(1.0, t);
      TangentNonZero(f, p[0]);
      Reciprocal(t, i);
      HalfSums(t, i, (t + i) / 2.0, (i - t) / 2.0);
    case ShearXInvariant =>
    case ShearPInvariant =>
    case Arbitrary => ArbitraryDet(f, p[0], p[1], p[2]);
  }

  lemma {:induction false} UnarySymplectic(f: Functions, kind: Kind, modes: seq<nat>, p: seq<real>)
    requires f.Lawful() && IsUnaryGate(kind) && Constructible(f, kind, modes, p)
    ensures Symplectic2(UnaryMatrix(f, kind, p))
  {
    UnaryDet(f, kind, modes, p);
    UnitDeterminant(UnaryMatrix(f, kind, p));
  }

  // ----- two modes: the form of the columns -----

  function Column0(m: Mat4): Vec4 { Vec4(m.x0.x0, m.x1.x0, m.p0.x0, m.p1.x0) }
  function Column1(m: Mat4): Vec4 { Vec4(m.x0.x1, m.x1.x1, m.p0.x1, m.p1.x1) }
  function Column2(m: Mat4): Vec4 { Vec4(m.x0.p0, m.x1.p0, m.p0.p0, m.p1.p0) }
  function Column3(m: Mat4): Vec4 { Vec4(m.x0.p1, m.x1.p1, m.p0.p1, m.p1.p1) }

  ghost predicate CanonicalColumns(m: Mat4) {
    && Omega(Column0(m), Column2(m)) == 1.0 && Omega(Column1(m), Column3(m)) == 1.0
    && Omega(Column0(m), Column1(m)) == 0.0 && Omega(Column0(m), Column3(m)) == 0.0
    && Omega(Column1(m), Column2(m)) == 0.0 && Omega(Column2(m), Column3(m)) == 0.0
  }

  lemma {:induction false} FourTerms(a: real, b: real, c: real, d: real, u0: real, u1: real, u2: real, u3: real, z: real, v: real)
    requires z == a * u0 + b * u1 + c * u2 + d * u3
    ensures z * v == u0 * (a * v) + u1 * (b * v) + u2 * (c * v) + u3 * (d * v)
  {
  }

  /** One mode of m * u against (x, p). */
  lemma {:induction false} CrossLeft(rx: Vec4, rp: Vec4, u: Vec4, x: real, p: real)
    ensures Cross(Dot4(rx, u), Dot4(rp, u), x, p)
            == u.x0 * Cross(rx.x0, rp.x0, x, p) + u.x1 * Cross(rx.x1, rp.x1, x, p) + u.p0 * Cross(rx.p0, rp.p0, x, p) + u.p1 * Cross(rx.p1, rp.p1, x, p)
  {
    FourTerms(rx.x0, rx.x1, rx.p0, rx.p1, u.x0, u.x1, u.p0, u.p1, Dot4(rx, u), p);
    FourTerms(rp.x0, rp.x1, rp.p0, rp.p1, u.x0, u.x1, u.p0, u.p1, Dot4(rp, u), x);
    hide Dot4;
  }

  lemma {:induction false} SplitTerms(u: Vec4, a0: real, a1: real, a2: real, a3: real, b0: real, b1: real, b2: real, b3: real)
    ensures (u.x0 * a0 + u.x1 * a1 + u.p0 * a2 + u.p1 * a3) + (u.x0 * b0 + u.x1 * b1 + u.p0 * b2 + u.p1 * b3)
            == u.x0 * (a0 + b0) + u.x1 * (a1 + b1) + u.p0 * (a2 + b2) + u.p1 * (a3 + b3)
  {
  }

  /** The form is linear in its first argument. */
  lemma {:induction false} OmegaLeft(m: Mat4, u: Vec4, v: Vec4)
    ensures Omega(Apply4(m, u), v)
            == u.x0 * Omega(Column0(m), v) + u.x1 * Omega(Column1(m), v) + u.p0 * Omega(Column2(m), v) + u.p1 * Omega(Column3(m), v)
  {
    hide Dot4, Cross;
    CrossLeft(m.x0, m.p0, u, v.x0, v.p0);
    CrossLeft(m.x1, m.p1, u, v.x1, v.p1);
    SplitTerms(u, Cross(m.x0.x0, m.p0.x0, v.x0, v.p0), Cross(m.x0.x1, m.p0.x1, v.x0, v.p0), Cross(m.x0.p0, m.p0.p0, v.x0, v.p0),
               Cross(m.x0.p1, m.p0.p1, v.x0, v.p0), Cross(m.x1.x0, m.p1.x0, v.x1, v.p1), Cross(m.x1.x1, m.p1.x1, v.x1, v.p1),
               Cross(m.x1.p0, m.p1.p0, v.x1, v.p1), Cross(m.x1.p1, m.p1.p1, v.x1, v.p1));
  }

  lemma {:induction false} OmegaSkew(u: Vec4, v: Vec4)
    ensures Omega(u, v) == -Omega(v, u) && Omega(u, u) == 0.0
  {
  }

  /** The form of a column with m * v. */
  lemma {:induction false} OmegaRight(m: Mat4, c: Vec4, v: Vec4)
    ensures Omega(c, Apply4(m, v))
            == v.x0 * Omega(c, Column0(m)) + v.x1 * Omega(c, Column1(m)) + v.p0 * Omega(c, Column2(m)) + v.p1 * Omega(c, Column3(m))
  {
    hide Apply4;
    OmegaLeft(m, v, c);
    OmegaSkew(c, Apply4(m, v));
    OmegaSkew(c, Column0(m));
    OmegaSkew(c, Column1(m));
    OmegaSkew(c, Column2(m));
    OmegaSkew(c, Column3(m));
    hide Omega, Column0, Column1, Column2, Column3;
  }

  lemma {:induction false} ColumnForms(m: Mat4, v: Vec4)
    requires CanonicalColumns(m)
    ensures Omega(Column0(m), Apply4(m, v)) == v.p0 && Omega(Column1(m), Apply4(m, v)) == v.p1
    ensures Omega(Column2(m), Apply4(m, v)) == -v.x0 && Omega(Column3(m), Apply4(m, v)) == -v.x1
  {
    hide Omega, Column0, Column1, Column2, Column3, Apply4;
    OmegaRight(m, Column0(m), v);
    OmegaRight(m, Column1(m), v);
    OmegaRight(m, Column2(m), v);
    OmegaRight(m, Column3(m), v);
    OmegaSkew(Column0(m), Column0(m));
    OmegaSkew(Column1(m), Column1(m));
    OmegaSkew(Column2(m), Column2(m));
    OmegaSkew(Column3(m), Column3(m));
    OmegaSkew(Column0(m), Column1(m));
    OmegaSkew(Column0(m), Column2(m));
    OmegaSkew(Column0(m), Column3(m));
    OmegaSkew(Column1(m), Column2(m));
    OmegaSkew(Column1(m), Column3(m));
    OmegaSkew(Column2(m), Column3(m));
  }

  lemma {:induction false} ColumnsSuffice(m: Mat4)
    requires CanonicalColumns(m)
    ensures Preserves4(m)
  {
    forall u: Vec4, v: Vec4 ensures Omega(Apply4(m, u), Apply4(m, v)) == Omega(u, v) {
      hide CanonicalColumns, Column0, Column1, Column2, Column3, Apply4;
      OmegaLeft(m, u, Apply4(m, v));
      ColumnForms(m, v);
    }
  }

  // ----- beam splitters -----

  /** Blocks(diag, off) is orthogonal and symplectic. */
  ghost predicate Passive(d: Mat2, o: Mat2) {
    && d.a * d.a + d.c * d.c + o.a * o.a + o.c * o.c == 1.0
    && d.b * d.b + d.d * d.d + o.b * o.b + o.d * o.d == 1.0
    && d.a * d.b + d.c * d.d + o.a * o.b + o.c * o.d == 0.0
    && d.a * o.b + d.c * o.d == o.a * d.b + o.c * d.d
  }

  lemma {:induction false} BlocksColumns(d: Mat2, o: Mat2)
    ensures Column0(Blocks(d, o)) == Vec4(d.a, d.c, -o.a, -o.c) && Column1(Blocks(d, o)) == Vec4(d.b, d.d, -o.b, -o.d)
    ensures Column2(Blocks(d, o)) == Vec4(o.a, o.c, d.a, d.c) && Column3(Blocks(d, o)) == Vec4(o.b, o.d, d.b, d.d)
  {
  }

  lemma {:induction false} CrossBlocks(a: real, e: real, b: real, g: real)
    ensures Cross(a, -e, e, a) == a * a + e * e && Cross(b, -g, g, b) == b * b + g * g
    ensures Cross(a, -e, b, -g) == e * b - a * g && Cross(e, a, g, b) == e * b - a * g
    ensures Cross(a, -e, g, b) == a * b + e * g && Cross(b, -g, e, a) == a * b + e * g
  {
  }

  /** The forms of two columns of Blocks(d, o), by the rows of d and o. */
  lemma {:induction false} BlocksForm(d: Mat2, o: Mat2, same0: real, same1: real, skew0: real, skew1: real, unit0: real, unit1: real)
    requires same0 == d.a * d.b + o.a * o.b && same1 == d.c * d.d + o.c * o.d
    requires skew0 == o.a * d.b - d.a * o.b && skew1 == o.c * d.d - d.c * o.d
    requires unit0 == (d.a * d.a + o.a * o.a) + (d.c * d.c + o.c * o.c)
    requires unit1 == (d.b * d.b + o.b * o.b) + (d.d * d.d + o.d * o.d)
    ensures Omega(Column0(Blocks(d, o)), Column2(Blocks(d, o))) == unit0 && Omega(Column1(Blocks(d, o)), Column3(Blocks(d, o))) == unit1
    ensures Omega(Column0(Blocks(d, o)), Column1(Blocks(d, o))) == skew0 + skew1 && Omega(Column2(Blocks(d, o)), Column3(Blocks(d, o))) == skew0 + skew1
    ensures Omega(Column0(Blocks(d, o)), Column3(Blocks(d, o))) == same0 + same1 && Omega(Column1(Blocks(d, o)), Column2(Blocks(d, o))) == same0 + same1
  {
    hide Blocks, Column0, Column1, Column2, Column3;
    BlocksColumns(d, o);
    CrossBlocks(d.a, o.a, d.b, o.b);
    CrossBlocks(d.c, o.c, d.d, o.d);
    hide Cross;
  }

  lemma {:induction false} PassiveMeans(d: Mat2, o: Mat2)
    returns (same0: real, same1: real, skew0: real, skew1: real, unit0: real, unit1: real)
    requires Passive(d, o)
    ensures same0 == d.a * d.b + o.a * o.b && same1 == d.c * d.d + o.c * o.d
    ensures skew0 == o.a * d.b - d.a * o.b && skew1 == o.c * d.d - d.c * o.d
    ensures unit0 == (d.a * d.a + o.a * o.a) + (d.c * d.c + o.c * o.c)
    ensures unit1 == (d.b * d.b + o.b * o.b) + (d.d * d.d + o.d * o.d)
    ensures unit0 == 1.0 && unit1 == 1.0 && skew0 + skew1 == 0.0 && same0 + same1 == 0.0
  {
    same0, same1 := d.a * d.b + o.a * o.b, d.c * d.d + o.c * o.d;
    skew0, skew1 := o.a * d.b - d.a * o.b, o.c * d.d - d.c * o.d;
    unit0, unit1 := (d.a * d.a + o.a * o.a) + (d.c * d.c + o.c * o.c), (d.b * d.b + o.b * o.b) + (d.d * d.d + o.d * o.d);
  }

  lemma {:induction false} PassiveColumns(d: Mat2, o: Mat2)
    requires Passive(d, o)
    ensures CanonicalColumns(Blocks(d, o))
  {
    hide Blocks, Column0, Column1, Column2, Column3, Omega, Passive;
    var same0, same1, skew0, skew1, unit0, unit1 := PassiveMeans(d, o);
    BlocksForm(d, o, same0, same1, skew0, skew1, unit0, unit1);
  }

  lemma {:induction false} PassivePreserves(d: Mat2, o: Mat2)
    requires Passive(d, o)
    ensures Preserves4(Blocks(d, o))
  {
    PassiveColumns(d, o);
    hide Passive, Blocks;
    ColumnsSuffice(Blocks(d, o));
  }

  function Negated(m: Mat2): Mat2 { Mat2(-m.a, -m.b, -m.c, -m.d) }

  lemma {:induction false} BlocksTransposed(d: Mat2, o: Mat2)
    ensures Transpose4(Blocks(d, o)) == Blocks(Transpose2(d), Negated(Transpose2(o)))
  {
  }

  lemma {:induction false} PassiveSymplectic(d: Mat2, o: Mat2)
    requires Passive(d, o) && Passive(Transpose2(d), Negated(Transpose2(o)))
    ensures Symplectic4(Blocks(d, o))
  {
    hide Passive, Blocks, Preserves4;
    PassivePreserves(d, o);
    BlocksTransposed(d, o);
    PassivePreserves(Transpose2(d), Negated(Transpose2(o)));
  }

  lemma {:induction false} FourSquares(c: real, s: real, cm: real, sm: real)
    requires s * s + c * c == 1.0 && sm * sm + cm * cm == 1.0
    ensures (c * cm) * (c * cm) + (s * sm) * (s * sm) + (-s * cm) * (-s * cm) + (sm * c) * (sm * c) == 1.0
  {
    assert (c * cm) * (c * cm) + (s * sm) * (s * sm) + (-s * cm) * (-s * cm) + (sm * c) * (sm * c)
        == (c * c + s * s) * (cm * cm) + (s * s + c * c) * (sm * sm);
  }

  lemma {:induction false} CrossTerms(c: real, s: real, cm: real, sm: real)
    ensures (c * cm) * (s * sm) + (-s * cm) * (sm * c) == 0.0
  {
  }

  /** [[a, b], [b, a]] and [[e, g], [g, e]] */
  lemma {:induction false} Circulant(a: real, b: real, e: real, g: real)
    requires a * a + b * b + e * e + g * g == 1.0 && a * b + e * g == 0.0
    ensures Passive(Mat2(a, b, b, a), Mat2(e, g, g, e)) && Passive(Mat2(a, b, b, a), Mat2(-e, -g, -g, -e))
  {
  }

  lemma {:induction false} CirculantSymplectic(a: real, b: real, e: real, g: real)
    requires a * a + b * b + e * e + g * g == 1.0 && a * b + e * g == 0.0
    ensures Symplectic4(Blocks(Mat2(a, b, b, a), Mat2(e, g, g, e)))
  {
    hide Passive, Blocks, Symplectic4;
    Circulant(a, b, e, g);
    PassiveSymplectic(Mat2(a, b, b, a), Mat2(e, g, g, e));
  }

  lemma {:induction false} BlocksSymplectic(sp: real, sm: real, cp: real, cm: real)
    requires sp * sp + cp * cp == 1.0 && sm * sm + cm * cm == 1.0
    ensures Symplectic4(BeamSplitterBlocks(sp, sm, cp, cm))
  {
    hide Symplectic4, Blocks;
    FourSquares(cp, sp, cm, sm);
    CrossTerms(cp, sp, cm, sm);
    CirculantSymplectic(cp * cm, sp * sm, -sp * cm, sm * cp);
  }

  lemma {:induction false} BeamSplitterSymplectic(f: Functions, sqrtR: real, thetaRel: real)
    requires f.Lawful()
    ensures Symplectic4(BeamSplitterMatrix(f, sqrtR, thetaRel))
  {
    hide f.Lawful, BeamSplitterBlocks, Symplectic4;
    var alpha, beta := (thetaRel + f.acos(sqrtR)) / 2.0, (thetaRel - f.acos(sqrtR)) / 2.0;
    f.Circle(alpha + beta);
    f.Circle(alpha - beta);
    BlocksSymplectic(f.sin(alpha + beta), f.sin(alpha - beta), f.cos(alpha + beta), f.cos(alpha - beta));
  }

  lemma {:induction false} Halves(r: real)
    requires 2.0 * r * r == 1.0
    ensures r * r + r * r == 1.0
  {
  }

  lemma {:induction false} BeamSplitter50Symplectic(f: Functions)
    requires f.Lawful()
    ensures Symplectic4(BeamSplitter50Matrix(f))
  {
    var r := f.invSqrt2;
    Halves(r);
    var d := Scale2(Mat2(1.0, -1.0, 1.0, 1.0), r);
    assert d == Mat2(r, -r, r, r);
    assert Passive(d, ZERO2) && Passive(Transpose2(d), Negated(Transpose2(ZERO2)));
    hide Passive, Blocks, Symplectic4;
    PassiveSymplectic(d, ZERO2);
  }

  lemma {:induction false} ThreeSquares(ct: real, st: real, cp: real, sp: real)
    requires st * st + ct * ct == 1.0 && sp * sp + cp * cp == 1.0
    ensures ct * ct + (st * cp) * (st * cp) + (st * sp) * (st * sp) == 1.0
  {
    assert (st * cp) * (st * cp) + (st * sp) * (st * sp) == (st * st) * (sp * sp + cp * cp);
  }

  lemma {:induction false} StdPassive(ct: real, k: real, l: real)
    requires ct * ct + k * k + l * l == 1.0
    ensures Passive(Mat2(ct, -k, k, ct), Mat2(0.0, -l, -l, 0.0)) && Passive(Mat2(ct, k, -k, ct), Mat2(0.0, l, l, 0.0))
  {
  }

  lemma {:induction false} StdSymplectic(ct: real, k: real, l: real)
    requires ct * ct + k * k + l * l == 1.0
    ensures Symplectic4(Blocks(Mat2(ct, -k, k, ct), Mat2(0.0, -l, -l, 0.0)))
  {
    StdPassive(ct, k, l);
    var d, o := Mat2(ct, -k, k, ct), Mat2(0.0, -l, -l, 0.0);
    assert Transpose2(d) == Mat2(ct, k, -k, ct) && Negated(Transpose2(o)) == Mat2(0.0, l, l, 0.0);
    hide Passive, Blocks, Symplectic4;
    PassiveSymplectic(d, o);
  }

  lemma {:induction false} BeamSplitterStdIs(f: Functions, theta: real, phi: real, k: real, l: real)
    requires k == f.sin(theta) * f.cos(phi) && l == f.sin(theta) * f.sin(phi)
    ensures BeamSplitterStdMatrix(f, theta, phi) == Blocks(Mat2(f.cos(theta), -k, k, f.cos(theta)), Mat2(0.0, -l, -l, 0.0))
  {
    assert -f.sin(theta) * f.cos(phi) == -k && -f.sin(theta) * f.sin(phi) == -l;
    hide Blocks;
  }

  lemma {:induction false} BeamSplitterStdSymplectic(f: Functions, theta: real, phi: real)
    requires f.Lawful()
    ensures Symplectic4(BeamSplitterStdMatrix(f, theta, phi))
  {
    var ct, st, cp, sp := f.cos(theta), f.sin(theta), f.cos(phi), f.sin(phi);
    assert f.OnCircle(theta) && f.OnCircle(phi);
    assert st * st + ct * ct == 1.0 && sp * sp + cp * cp == 1.0;
    hide *;
    ThreeSquares(ct, st, cp, sp);
    var k, l := st * cp, st * sp;
    StdSymplectic(ct, k, l);
    BeamSplitterStdIs(f, theta, phi, k, l);
  }

  // ----- shears -----

  function LowerShear(a: real, b: real): Mat4 {
    Mat4(Vec4(1.0, 0.0, 0.0, 0.0), Vec4(0.0, 1.0, 0.0, 0.0), Vec4(a, b, 1.0, 0.0), Vec4(b, a, 0.0, 1.0))
  }

  function UpperShear(a: real, b: real): Mat4 {
    Mat4(Vec4(1.0, 0.0, a, b), Vec4(0.0, 1.0, b, a), Vec4(0.0, 0.0, 1.0, 0.0), Vec4(0.0, 0.0, 0.0, 1.0))
  }

  lemma {:induction false} LowerCross(x: real, p: real, y: real, q: real, a: real, b: real, x': real, y': real, p1: real, q1: real)
    requires p1 == a * x + b * x' + p && q1 == a * y + b * y' + q
    ensures Cross(x, p1, y, q1) == Cross(x, p, y, q) + b * Cross(x, x', y, y')
  {
  }

  lemma {:induction false} UpperCross(x: real, p: real, y: real, q: real, a: real, b: real, p': real, q': real, x1: real, y1: real)
    requires x1 == x + a * p + b * p' && y1 == y + a * q + b * q'
    ensures Cross(x1, p, y1, q) == Cross(x, p, y, q) + b * Cross(p', p, q', q)
  {
  }

  lemma {:induction false} CrossSkew(x: real, p: real, y: real, q: real)
    ensures Cross(x, p, y, q) == -Cross(p, x, q, y)
  {
  }

  lemma {:induction false} Opposite(b: real, s: real, t: real)
    requires s == -t
    ensures b * s + b * t == 0.0
  {
  }

  lemma {:induction false} LowerShearIs(a: real, b: real, u: Vec4)
    ensures Apply4(LowerShear(a, b), u) == Vec4(u.x0, u.x1, a * u.x0 + b * u.x1 + u.p0, a * u.x1 + b * u.x0 + u.p1)
  {
  }

  lemma {:induction false} UpperShearIs(a: real, b: real, u: Vec4)
    ensures Apply4(UpperShear(a, b), u) == Vec4(u.x0 + a * u.p0 + b * u.p1, u.x1 + a * u.p1 + b * u.p0, u.p0, u.p1)
  {
  }

  lemma {:induction false} LowerShearAt(a: real, b: real, u: Vec4, v: Vec4)
    ensures Omega(Apply4(LowerShear(a, b), u), Apply4(LowerShear(a, b), v)) == Omega(u, v)
  {
    hide Apply4, LowerShear, Cross;
    LowerShearIs(a, b, u);
    LowerShearIs(a, b, v);
    var z, w := Apply4(LowerShear(a, b), u), Apply4(LowerShear(a, b), v);
    LowerCross(u.x0, u.p0, v.x0, v.p0, a, b, u.x1, v.x1, z.p0, w.p0);
    LowerCross(u.x1, u.p1, v.x1, v.p1, a, b, u.x0, v.x0, z.p1, w.p1);
    CrossSkew(u.x0, u.x1, v.x0, v.x1);
    Opposite(b, Cross(u.x0, u.x1, v.x0, v.x1), Cross(u.x1, u.x0, v.x1, v.x0));
  }

  lemma {:induction false} UpperShearAt(a: real, b: real, u: Vec4, v: Vec4)
    ensures Omega(Apply4(UpperShear(a, b), u), Apply4(UpperShear(a, b), v)) == Omega(u, v)
  {
    hide Apply4, UpperShear, Cross;
    UpperShearIs(a, b, u);
    UpperShearIs(a, b, v);
    var z, w := Apply4(UpperShear(a, b), u), Apply4(UpperShear(a, b), v);
    UpperCross(u.x0, u.p0, v.x0, v.p0, a, b, u.p1, v.p1, z.x0, w.x0);
    UpperCross(u.x1, u.p1, v.x1, v.p1, a, b, u.p0, v.p0, z.x1, w.x1);
    CrossSkew(u.p0, u.p1, v.p0, v.p1);
    Opposite(b, Cross(u.p0, u.p1, v.p0, v.p1), Cross(u.p1, u.p0, v.p1, v.p0));
  }

  lemma {:induction false} ShearSymplectic(a: real, b: real)
    ensures Symplectic4(LowerShear(a, b))
  {
    assert Transpose4(LowerShear(a, b)) == UpperShear(a, b);
    hide LowerShear, UpperShear, Transpose4, Apply4, Omega;
    forall u: Vec4, v: Vec4 ensures Omega(Apply4(LowerShear(a, b), u), Apply4(LowerShear(a, b), v)) == Omega(u, v) {
      LowerShearAt(a, b, u, v);
    }
    forall u: Vec4, v: Vec4 ensures Omega(Apply4(UpperShear(a, b), u), Apply4(UpperShear(a, b), v)) == Omega(u, v) {
      UpperShearAt(a, b, u, v);
    }
  }

  // ----- Manual -----

  lemma {:induction false} VProduct(c1: real, s1: real, c2: real, s2: real, det: real, k: real)
    requires det != 0.0 && det == s2 * c1 - c2 * s1 && k == Quotient(-1.0, det)
    ensures (c2 * s1 - c1 * s2) * k == 1.0 && (s1 * c2 - c1 * s2) * k == 1.0
  {
    assert det * k == -1.0;
    assert c2 * s1 - c1 * s2 == -det && s1 * c2 - c1 * s2 == -det;
    assert -det * k == 1.0;
  }

  lemma {:induction false} ScaledDet(m: Mat2, k: real)
    ensures Det(Scale2(m, k)) == (Det(m) * k) * k
  {
    Regroup4(m.a, m.d, k);
    Regroup4(m.b, m.c, k);
  }

  lemma {:induction false} Regroup4(x: real, y: real, k: real)
    ensures (x * k) * (y * k) == ((x * y) * k) * k
  {
  }

  lemma {:induction false} VMatrixDet(c1: real, s1: real, c2: real, s2: real, det: real)
    requires det != 0.0 && det == s2 * c1 - c2 * s1
    ensures Det(VMatrix(c1, s1, c2, s2, det)) == 1.0
  {
    var k := Quotient(-1.0, det);
    VProduct(c1, s1, c2, s2, det, k);
    var m, n := Mat2(c2, c1, s2, s1), Mat2(s1, c1, s2, c2);
    var x, y := Det(m), Det(n);
    assert x == c2 * s1 - c1 * s2 && y == s1 * c2 - c1 * s2;
    DetProduct(m, n);
    hide Det, Mul2, Quotient;
    ScaledDet(Mul2(m, n), k);
    TwoFactors(x, y, k);
  }

  lemma {:induction false} VDet(f: Functions, theta1: real, theta2: real)
    requires f.Lawful() && !f.EquivModPi(theta2, theta1)
    ensures Det(V(f, theta1, theta2)) == 1.0
  {
    VFor(f, theta2, theta1);
    hide Det, VMatrix, f.Lawful, f.EquivModPi;
    VMatrixDet(f.cos(theta1), f.sin(theta1), f.cos(theta2), f.sin(theta2), f.sin(theta2 - theta1));
  }

  lemma {:induction false} TwoFactors(x: real, y: real, k: real)
    requires x * k == 1.0 && y * k == 1.0
    ensures ((x * y) * k) * k == 1.0
  {
    assert ((x * y) * k) * k == (x * k) * (y * k);
  }

  function Vec(a: Quad, b: Quad): Vec4 { Vec4(a.x, b.x, a.p, b.p) }

  function Mode0(u: Vec4): Quad { Quad(u.x0, u.p0) }

  function Mode1(u: Vec4): Quad { Quad(u.x1, u.p1) }

  lemma {:induction false} OmegaIsArea(u: Vec4, v: Vec4)
    ensures Omega(u, v) == Area(Mode0(u), Mode0(v)) + Area(Mode1(u), Mode1(v))
  {
  }

  /** Halved sums and differences halve the total area. */
  lemma {:induction false} SumsAndDifferences(w: Quad, v: Quad, w': Quad, v': Quad)
    ensures Area(Half(Plus(w, v)), Half(Plus(w', v'))) + Area(Half(Minus(w, v)), Half(Minus(w', v'))) == 0.5 * (Area(w, w') + Area(v, v'))
  {
    var a, b, c, d := Area(w, w'), Area(v, v'), Area(w, v'), Area(v, w');
    HalfArea(Plus(w, v), Plus(w', v'));
    HalfArea(Minus(w, v), Minus(w', v'));
    AreaBilinear(w, v, w', v');
  }

  lemma {:induction false} HalfArea(u: Quad, v: Quad)
    ensures Area(Half(u), Half(v)) == 0.25 * Area(u, v)
  {
  }

  lemma {:induction false} AreaBilinear(w: Quad, v: Quad, w': Quad, v': Quad)
    ensures Area(Plus(w, v), Plus(w', v')) == Area(w, w') + Area(w, v') + Area(v, w') + Area(v, v')
    ensures Area(Minus(w, v), Minus(w', v')) == Area(w, w') - Area(w, v') - Area(v, w') + Area(v, v')
  {
  }

  lemma {:induction false} SumDifferencePreserves(v: Mat2, w: Mat2)
    requires Preserves2(v) && Preserves2(w)
    ensures Preserves4(Scale4(SumDifferenceMatrix(v, w), 0.5))
  {
    var m := Scale4(SumDifferenceMatrix(v, w), 0.5);
    forall u: Vec4, u': Vec4 ensures Omega(Apply4(m, u), Apply4(m, u')) == Omega(u, u') {
      SumDifferenceAt(v, w, m, u, u', Mode0(u), Mode1(u), Mode0(u'), Mode1(u'));
    }
  }

  lemma {:induction false} SumDifferenceAt(v: Mat2, w: Mat2, m: Mat4, u: Vec4, u': Vec4, b: Quad, d: Quad, b': Quad, d': Quad)
    requires Preserves2(v) && Preserves2(w) && m == Scale4(SumDifferenceMatrix(v, w), 0.5)
    requires b == Mode0(u) && d == Mode1(u) && b' == Mode0(u') && d' == Mode1(u')
    ensures Omega(Apply4(m, u), Apply4(m, u')) == Omega(u, u')
  {
    var s, t, s', t' := Plus(b, d), Minus(b, d), Plus(b', d'), Minus(b', d');
    assert Act4(m, b, d) == (Mode0(Apply4(m, u)), Mode1(Apply4(m, u))) && Act4(m, b', d') == (Mode0(Apply4(m, u')), Mode1(Apply4(m, u'))) by {
      hide Apply4, Scale4, SumDifferenceMatrix;
    }
    hide Apply4, Scale4, SumDifferenceMatrix, Act4, Omega, Area, Act2, Plus, Minus, Half, Mode0, Mode1;
    OmegaIsArea(Apply4(m, u), Apply4(m, u'));
    OmegaIsArea(u, u');
    SumDifference(v, w, m, b, d, s, t);
    SumDifference(v, w, m, b', d', s', t');
    SumsAndDifferences(Act2(w, s), Act2(v, t), Act2(w, s'), Act2(v, t'));
    AreaBilinear(b, d, b', d');
  }

  lemma {:induction false} SumDifferenceTransposed(v: Mat2, w: Mat2)
    ensures Transpose4(Scale4(SumDifferenceMatrix(v, w), 0.5)) == Scale4(SumDifferenceMatrix(Transpose2(v), Transpose2(w)), 0.5)
  {
  }

  lemma {:induction false} ManualSymplectic(f: Functions, a: real, b: real, c: real, d: real)
    requires f.Lawful() && !f.EquivModPi(a, b) && !f.EquivModPi(c, d)
    ensures Symplectic4(ManualMatrix(f, a, b, c, d))
  {
    var v, w := V(f, b, a), V(f, d, c);
    VDet(f, b, a);
    VDet(f, d, c);
    UnitDeterminant(v);
    UnitDeterminant(w);
    hide V, Det, ManualMatrix, Scale4, Transpose4, SumDifferenceMatrix, Transpose2, Preserves2, Preserves4, Mul4, OnMode0, OnMode1;
    ManualIs(f, MacronodeAngle(a, b, c, d));
    ManualFactors(v, w);
    SumDifferencePreserves(v, w);
    SumDifferenceTransposed(v, w);
    SumDifferencePreserves(Transpose2(v), Transpose2(w));
  }

  /** Every two-mode gate the constructors accept is symplectic. */
  lemma {:induction false} BinarySymplectic(f: Functions, kind: Kind, modes: seq<nat>, p: seq<real>)
    requires f.Lawful() && IsBinaryGate(kind) && Constructible(f, kind, modes, p)
    ensures Symplectic4(BinaryMatrix(f, kind, p))
  {
    hide Symplectic4, BeamSplitterMatrix, BeamSplitter50Matrix, BeamSplitterStdMatrix, ManualMatrix, f.Lawful;
    match kind
    case BeamSplitter => BeamSplitterSymplectic(f, p[0], p[1]);
    case BeamSplitter50 => BeamSplitter50Symplectic(f);
    case BeamSplitterStd => BeamSplitterStdSymplectic(f, p[0], p[1]);
    case ControlledZ => ShearSymplectic(0.0, p[0]);
    case TwoModeShear => ShearSymplectic(2.0 * p[0], p[1]);
    case Manual => ManualSymplectic(f, p[0], p[1], p[2], p[3]);
  }

  // ----- undoing -----

  /** The inverse of a symplectic m. */
  function Undo2(m: Mat2, u: Quad): Quad { Quad(Area(u, Quad(m.b, m.d)), -Area(u, Quad(m.a, m.c))) }

  function Undo4(m: Mat4, u: Vec4): Vec4 {
    Vec4(Omega(u, Column2(m)), Omega(u, Column3(m)), -Omega(u, Column0(m)), -Omega(u, Column1(m)))
  }

  lemma {:induction false} Units2(m: Mat2, u: Quad)
    ensures Act2(m, Quad(1.0, 0.0)) == Quad(m.a, m.c) && Act2(m, Quad(0.0, 1.0)) == Quad(m.b, m.d)
    ensures Area(u, Quad(1.0, 0.0)) == -u.p && Area(u, Quad(0.0, 1.0)) == u.x
  {
  }

  lemma {:induction false} Undone2(m: Mat2, u: Quad)
    requires Preserves2(m)
    ensures Undo2(m, Act2(m, u)) == u
  {
    hide Act2, Area;
    Units2(m, u);
    assert Area(Act2(m, u), Act2(m, Quad(0.0, 1.0))) == Area(u, Quad(0.0, 1.0));
    assert Area(Act2(m, u), Act2(m, Quad(1.0, 0.0))) == Area(u, Quad(1.0, 0.0));
  }

  const E0 := Vec4(1.0, 0.0, 0.0, 0.0)
  const E1 := Vec4(0.0, 1.0, 0.0, 0.0)
  const E2 := Vec4(0.0, 0.0, 1.0, 0.0)
  const E3 := Vec4(0.0, 0.0, 0.0, 1.0)

  lemma {:induction false} UnitColumns(m: Mat4)
    ensures Apply4(m, E0) == Column0(m) && Apply4(m, E1) == Column1(m) && Apply4(m, E2) == Column2(m) && Apply4(m, E3) == Column3(m)
  {
  }

  lemma {:induction false} Units4(u: Vec4)
    ensures Omega(u, E0) == -u.p0 && Omega(u, E1) == -u.p1 && Omega(u, E2) == u.x0 && Omega(u, E3) == u.x1
  {
  }

  lemma {:induction false} Undone4(m: Mat4, u: Vec4)
    requires Preserves4(m)
    ensures Undo4(m, Apply4(m, u)) == u
  {
    hide Apply4, Omega, Column0, Column1, Column2, Column3;
    UnitColumns(m);
    Units4(u);
    assert Omega(Apply4(m, u), Apply4(m, E0)) == Omega(u, E0) && Omega(Apply4(m, u), Apply4(m, E1)) == Omega(u, E1);
    assert Omega(Apply4(m, u), Apply4(m, E2)) == Omega(u, E2) && Omega(Apply4(m, u), Apply4(m, E3)) == Omega(u, E3);
  }

  const ORIGIN := Vec4(0.0, 0.0, 0.0, 0.0)

  lemma {:induction false} CrossZero(y: real, q: real)
    ensures Cross(0.0, 0.0, y, q) == 0.0
  {
  }

  lemma {:induction false} OriginForm(v: Vec4)
    ensures Omega(ORIGIN, v) == 0.0
  {
    hide Cross;
    CrossZero(v.x0, v.p0);
    CrossZero(v.x1, v.p1);
  }

  /** A symplectic m moves no other point to the origin. */
  lemma {:induction false} OnlyOrigin(m: Mat4, u: Vec4)
    requires Preserves4(m) && Apply4(m, u) == ORIGIN
    ensures u == ORIGIN
  {
    hide Preserves4, Apply4, Omega, Column0, Column1, Column2, Column3;
    Undone4(m, u);
    OriginForm(Column0(m));
    OriginForm(Column1(m));
    OriginForm(Column2(m));
    OriginForm(Column3(m));
  }
}
