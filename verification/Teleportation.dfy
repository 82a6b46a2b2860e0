/** The algebra of one macronode: beam splitters, measurements, and the feedforward that undoes them. */
module Teleportation {
  import opened Elementary
  import opened Operations
  import opened Points

  datatype MacronodeAngle = MacronodeAngle(a: real, b: real, c: real, d: real)
  {
    /** All four angles are equal modulo pi. */
    predicate IsMeasurable(f: Functions) {
      f.EquivModPi(a, b) && f.EquivModPi(a, c) && f.EquivModPi(a, d) && f.EquivModPi(b, c) && f.EquivModPi(c, d)
    }
  }

  /** The four values measured in a macronode. */
  datatype Measured = Measured(a: real, b: real, c: real, d: real)

  /** mat * (m0, m1) / sin(theta0 - theta1), with mat = [[cos theta1, cos theta0], [sin theta1, sin theta0]]. */
  function Term(c0: real, s0: real, c1: real, s1: real, det: real, m0: real, m1: real): Quad {
    Quad(Quotient(c1 * m0 + c0 * m1, det), Quotient(s1 * m0 + s0 * m1, det))
  }

  /** Feedforward of an ordinary macronode: displacements of (B, k+1) and (D, k+N). */
  function FMac(f: Functions, t: MacronodeAngle, m: Measured): (Quad, Quad) {
    var term1 := Term(f.cos(t.a), f.sin(t.a), f.cos(t.b), f.sin(t.b), f.sin(t.a - t.b), m.a, m.b);
    var term2 := Term(f.cos(t.c), f.sin(t.c), f.cos(t.d), f.sin(t.d), f.sin(t.c - t.d), m.c, m.d);
    (Quad(-(term1.x + term2.x), -(term1.p + term2.p)), Quad(-(-term1.x + term2.x), -(-term1.p + term2.p)))
  }

  /** Feedforward of an initialization or measurement macronode. */
  function IMac(f: Functions, t: MacronodeAngle, m: Measured): (Quad, Quad) {
    var lma := (m.a - m.b + m.c - m.d) / 2.0;
    var lmc := (-m.a + m.b + m.c - m.d) / 2.0;
    (Quad(-lma * f.sin(t.a), lma * f.cos(t.a)), Quad(-lmc * f.sin(t.c), lmc * f.cos(t.c)))
  }

  function FIMac(f: Functions, t: MacronodeAngle, m: Measured): (Quad, Quad) {
    if t.IsMeasurable(f) then IMac(f, t, m) else FMac(f, t, m)
  }

  function Beam(f: Functions, a: Quad, b: Quad): (Quad, Quad) {
    var r := f.invSqrt2;
    (Quad(r * (a.x - b.x), r * (a.p - b.p)), Quad(r * (a.x + b.x), r * (a.p + b.p)))
  }

  /** The quadrature a homodyne measurement at angle theta reads. */
  function Quadrature(f: Functions, theta: real, a: Quad): real {
    f.sin(theta) * a.x + f.cos(theta) * a.p
  }

  /** A macronode up to its measurements, for displaced inputs b and d, resource modes c and a, and the
      fresh halves b1 of (B, k+1) and d1 of (D, k+N): the measured values, and b1 and d1 after their
      last beam splitter. */
  function Macronode(f: Functions, t: MacronodeAngle, b: Quad, d: Quad, c: Quad, a: Quad, b1: Quad, d1: Quad): (Measured, Quad, Quad) {
    var (vb, vd) := Beam(f, b, d);
    var (va, vb1) := Beam(f, a, b1);
    var (vc, vd1) := Beam(f, c, d1);
    var (wb, wa) := Beam(f, vb, va);
    var (wd, wc) := Beam(f, vd, vc);
    var (wd1, wb1) := Beam(f, vd1, vb1);
    (Measured(Quadrature(f, t.a, wa), Quadrature(f, t.b, wb), Quadrature(f, t.c, wc), Quadrature(f, t.d, wd)), wb1, wd1)
  }

  // ----- identities between reals -----

  lemma {:induction false} Numerator(
    sa: real, ca: real, sb: real, cb: real, r: real, ux: real, up: real, al: real, be: real, ma: real, mb: real,
    e0: real, e1: real, a: real, b: real, k1: real, k2: real, num: real)
    requires ma == r * (sa * (ux + al) + ca * (up - be))
    requires mb == r * (sb * (ux - al) + cb * (up + be))
    requires num == e1 * ma + e0 * mb
    requires a == e0 * sb + e1 * sa && b == e0 * cb + e1 * ca
    requires k1 == e1 * sa - e0 * sb && k2 == e0 * cb - e1 * ca
    ensures num == r * ((a * ux + b * up) + (k1 * al + k2 * be))
  {
  }

  lemma {:induction false} Solve(
    r: real, a: real, b: real, x: real, p: real, k: real, num: real, det: real, inv: real, va: real, vb: real, q: real)
    requires num == r * ((a * x + b * p) + det * k)
    requires det * inv == -1.0 && va == a * inv && vb == b * inv
    requires q == -(inv * num)
    ensures q == r * (k - (va * x + vb * p))
  {
  }

  lemma {:induction false} Inverse(num: real, det: real, inv: real, q: real)
    requires det != 0.0 && inv == -1.0 / det && q == num / det
    ensures q == -(inv * num) && det * inv == -1.0
  {
  }

  /** One component of a teleportation: with (e0, e1) the cosines the position, with the sines the momentum. */
  lemma {:induction false} PairPart(
    sa: real, ca: real, sb: real, cb: real, r: real, det: real, ux: real, up: real, al: real, be: real, ma: real, mb: real,
    e0: real, e1: real, inv: real, va: real, vb: real, k: real, q: real)
    requires ma == r * (sa * (ux + al) + ca * (up - be))
    requires mb == r * (sb * (ux - al) + cb * (up + be))
    requires det != 0.0 && det == sa * cb - ca * sb && inv == -1.0 / det
    requires va == (e0 * sb + e1 * sa) * inv && vb == (e0 * cb + e1 * ca) * inv
    requires q == (e1 * ma + e0 * mb) / det
    requires (e0 == ca && e1 == cb && k == al) || (e0 == sa && e1 == sb && k == be)
    ensures q == r * (k - (va * ux + vb * up))
  {
    var num, a, b, k1, k2 := e1 * ma + e0 * mb, e0 * sb + e1 * sa, e0 * cb + e1 * ca, e1 * sa - e0 * sb, e0 * cb - e1 * ca;
    Numerator(sa, ca, sb, cb, r, ux, up, al, be, ma, mb, e0, e1, a, b, k1, k2, num);
    Inverse(num, det, inv, q);
    Solve(r, a, b, ux, up, k, num, det, inv, va, vb, q);
  }

  lemma {:induction false} VEntries(c1: real, s1: real, c2: real, s2: real, det: real, inv: real, v: Mat2)
    requires v == VMatrix(c1, s1, c2, s2, det) && det != 0.0 && inv == -1.0 / det
    ensures v.a == (c2 * s1 + c1 * s2) * inv && v.b == (c2 * c1 + c1 * c2) * inv
    ensures v.c == (s2 * s1 + s1 * s2) * inv && v.d == (s2 * c1 + s1 * c2) * inv
  {
  }

  /** One of the two teleportations of a macronode: u is measured, at two different angles, against
      an entangled pair whose other half is at (al, be). */
  lemma {:induction false} PairTeleports(
    sa: real, ca: real, sb: real, cb: real, r: real, det: real, u: Quad, al: real, be: real, ma: real, mb: real, v: Mat2)
    requires ma == r * (sa * (u.x + al) + ca * (u.p - be))
    requires mb == r * (sb * (u.x - al) + cb * (u.p + be))
    requires det != 0.0 && det == sa * cb - ca * sb
    requires v.a == (ca * sb + cb * sa) * (-1.0 / det) && v.b == (ca * cb + cb * ca) * (-1.0 / det)
    requires v.c == (sa * sb + sb * sa) * (-1.0 / det) && v.d == (sa * cb + sb * ca) * (-1.0 / det)
    ensures Term(ca, sa, cb, sb, det, ma, mb).x == r * (al - Act2(v, u).x)
    ensures Term(ca, sa, cb, sb, det, ma, mb).p == r * (be - Act2(v, u).p)
  {
    var ux, up, inv := u.x, u.p, -1.0 / det;
    var va, vb, vc, vd := v.a, v.b, v.c, v.d;
    var q := Term(ca, sa, cb, sb, det, ma, mb);
    var qx, qp := q.x, q.p;
    PairPart(sa, ca, sb, cb, r, det, ux, up, al, be, ma, mb, ca, cb, inv, va, vb, al, qx);
    PairPart(sa, ca, sb, cb, r, det, ux, up, al, be, ma, mb, sa, sb, inv, vc, vd, be, qp);
  }

  // ----- the Manual gate -----

  function Minus(a: Quad, b: Quad): Quad { Quad(a.x - b.x, a.p - b.p) }

  function Half(a: Quad): Quad { Quad(a.x * 0.5, a.p * 0.5) }

  /** UP, then v on the first mode: one pair of rows, for the position (a, b) or the momentum (c, d) entries of v. */
  lemma {:induction false} UpThenMode0(va: real, vb: real, vc: real, vd: real)
    ensures Mul4(UP, OnMode0(Mat2(va, vb, vc, vd)))
            == Mat4(Vec4(va, 1.0, vb, 0.0), Vec4(-va, 1.0, -vb, 0.0), Vec4(vc, 0.0, vd, 1.0), Vec4(-vc, 0.0, -vd, 1.0))
  {
  }

  lemma {:induction false} ThenMode1(va: real, vb: real, vc: real, vd: real, wa: real, wb: real, wc: real, wd: real)
    ensures Mul4(Mat4(Vec4(va, 1.0, vb, 0.0), Vec4(-va, 1.0, -vb, 0.0), Vec4(vc, 0.0, vd, 1.0), Vec4(-vc, 0.0, -vd, 1.0)),
                 OnMode1(Mat2(wa, wb, wc, wd)))
            == Mat4(Vec4(va, wa, vb, wb), Vec4(-va, wa, -vb, wb), Vec4(vc, wc, vd, wd), Vec4(-vc, wc, -vd, wd))
  {
  }

  lemma {:induction false} ThenDown(va: real, vb: real, vc: real, vd: real, wa: real, wb: real, wc: real, wd: real)
    ensures Mul4(Mat4(Vec4(va, wa, vb, wb), Vec4(-va, wa, -vb, wb), Vec4(vc, wc, vd, wd), Vec4(-vc, wc, -vd, wd)), DOWN)
            == SumDifferenceMatrix(Mat2(va, vb, vc, vd), Mat2(wa, wb, wc, wd))
  {
  }

  /** The four factors of the Manual matrix, multiplied out. */
  lemma {:induction false} ManualFactors(v: Mat2, w: Mat2)
    ensures Mul4(Mul4(Mul4(UP, OnMode0(v)), OnMode1(w)), DOWN)
            == SumDifferenceMatrix(v, w)
  {
    hide *;
    var va, vb, vc, vd, wa, wb, wc, wd := v.a, v.b, v.c, v.d, w.a, w.b, w.c, w.d;
    assert v == Mat2(va, vb, vc, vd) && w == Mat2(wa, wb, wc, wd);
    UpThenMode0(va, vb, vc, vd);
    ThenMode1(va, vb, vc, vd, wa, wb, wc, wd);
    ThenDown(va, vb, vc, vd, wa, wb, wc, wd);
  }

  lemma {:induction false} PlusRow(
    va: real, vb: real, wa: real, wb: real, bx: real, bp: real, dx: real, dp: real,
    e0: real, e1: real, e2: real, e3: real, sx: real, sp: real, tx: real, tp: real)
    requires e0 == (va + wa) * 0.5 && e1 == (wa - va) * 0.5 && e2 == (vb + wb) * 0.5 && e3 == (wb - vb) * 0.5
    requires sx == bx + dx && sp == bp + dp && tx == bx - dx && tp == bp - dp
    ensures e0 * bx + e1 * dx + e2 * bp + e3 * dp == ((wa * sx + wb * sp) + (va * tx + vb * tp)) * 0.5
  {
  }

  lemma {:induction false} MinusRow(
    va: real, vb: real, wa: real, wb: real, bx: real, bp: real, dx: real, dp: real,
    e0: real, e1: real, e2: real, e3: real, sx: real, sp: real, tx: real, tp: real)
    requires e0 == (wa - va) * 0.5 && e1 == (va + wa) * 0.5 && e2 == (wb - vb) * 0.5 && e3 == (vb + wb) * 0.5
    requires sx == bx + dx && sp == bp + dp && tx == bx - dx && tp == bp - dp
    ensures e0 * bx + e1 * dx + e2 * bp + e3 * dp == ((wa * sx + wb * sp) - (va * tx + vb * tp)) * 0.5
  {
  }

  function SumDifferenceMatrix(v: Mat2, w: Mat2): Mat4 {
    Mat4(Vec4(v.a + w.a, w.a - v.a, v.b + w.b, w.b - v.b), Vec4(w.a - v.a, v.a + w.a, w.b - v.b, v.b + w.b),
         Vec4(v.c + w.c, w.c - v.c, v.d + w.d, w.d - v.d), Vec4(w.c - v.c, v.c + w.c, w.d - v.d, v.d + w.d))
  }

  lemma {:induction false} HalfEntries(v: Mat2, w: Mat2, m: Mat4)
    requires m == Scale4(SumDifferenceMatrix(v, w), 0.5)
    ensures m.x0.x0 == m.x1.x1 == (v.a + w.a) * 0.5 && m.x0.x1 == m.x1.x0 == (w.a - v.a) * 0.5
    ensures m.x0.p0 == m.x1.p1 == (v.b + w.b) * 0.5 && m.x0.p1 == m.x1.p0 == (w.b - v.b) * 0.5
    ensures m.p0.x0 == m.p1.x1 == (v.c + w.c) * 0.5 && m.p0.x1 == m.p1.x0 == (w.c - v.c) * 0.5
    ensures m.p0.p0 == m.p1.p1 == (v.d + w.d) * 0.5 && m.p0.p1 == m.p1.p0 == (w.d - v.d) * 0.5
  {
  }

  /** A row (va + wa, wa - va, vb + wb, wb - vb) / 2, applied to two modes. */
  lemma {:induction false} RowPlus(row: Vec4, va: real, vb: real, wa: real, wb: real, b: Quad, d: Quad, s: Quad, t: Quad)
    requires row.x0 == (va + wa) * 0.5 && row.x1 == (wa - va) * 0.5 && row.p0 == (vb + wb) * 0.5 && row.p1 == (wb - vb) * 0.5
    requires s == Plus(b, d) && t == Minus(b, d)
    ensures Dot4(row, Vec4(b.x, d.x, b.p, d.p)) == ((wa * s.x + wb * s.p) + (va * t.x + vb * t.p)) * 0.5
  {
    var e0, e1, e2, e3 := row.x0, row.x1, row.p0, row.p1;
    var bx, bp, dx, dp := b.x, b.p, d.x, d.p;
    var sx, sp, tx, tp := s.x, s.p, t.x, t.p;
    PlusRow(va, vb, wa, wb, bx, bp, dx, dp, e0, e1, e2, e3, sx, sp, tx, tp);
  }

  lemma {:induction false} RowMinus(row: Vec4, va: real, vb: real, wa: real, wb: real, b: Quad, d: Quad, s: Quad, t: Quad)
    requires row.x0 == (wa - va) * 0.5 && row.x1 == (va + wa) * 0.5 && row.p0 == (wb - vb) * 0.5 && row.p1 == (vb + wb) * 0.5
    requires s == Plus(b, d) && t == Minus(b, d)
    ensures Dot4(row, Vec4(b.x, d.x, b.p, d.p)) == ((wa * s.x + wb * s.p) - (va * t.x + vb * t.p)) * 0.5
  {
    var e0, e1, e2, e3 := row.x0, row.x1, row.p0, row.p1;
    var bx, bp, dx, dp := b.x, b.p, d.x, d.p;
    var sx, sp, tx, tp := s.x, s.p, t.x, t.p;
    MinusRow(va, vb, wa, wb, bx, bp, dx, dp, e0, e1, e2, e3, sx, sp, tx, tp);
  }

  /** The product, as entries, acting on two modes. */
  lemma {:induction false} SumDifference(v: Mat2, w: Mat2, m: Mat4, b: Quad, d: Quad, s: Quad, t: Quad)
    requires m == Scale4(SumDifferenceMatrix(v, w), 0.5)
    requires s == Plus(b, d) && t == Minus(b, d)
    ensures Act4(m, b, d) == (Half(Plus(Act2(w, s), Act2(v, t))), Half(Minus(Act2(w, s), Act2(v, t))))
  {
    hide Dot4, Scale4, SumDifferenceMatrix;
    HalfEntries(v, w, m);
    var va, vb, vc, vd, wa, wb, wc, wd := v.a, v.b, v.c, v.d, w.a, w.b, w.c, w.d;
    RowPlus(m.x0, va, vb, wa, wb, b, d, s, t);
    RowMinus(m.x1, va, vb, wa, wb, b, d, s, t);
    RowPlus(m.p0, vc, vd, wc, wd, b, d, s, t);
    RowMinus(m.p1, vc, vd, wc, wd, b, d, s, t);
    var (l, r) := Act4(m, b, d);
    var wv, vv := Act2(w, s), Act2(v, t);
    assert l.x == Half(Plus(wv, vv)).x && l.p == Half(Plus(wv, vv)).p;
    assert r.x == Half(Minus(wv, vv)).x && r.p == Half(Minus(wv, vv)).p;
  }

  /** Manual rotates in and out of difference and sum, acting on each with its own V. */
  lemma {:induction false} ManualActs(f: Functions, t: MacronodeAngle, b: Quad, d: Quad)
    ensures
      var v, w := Act2(V(f, t.b, t.a), Minus(b, d)), Act2(V(f, t.d, t.c), Plus(b, d));
      Act4(ManualMatrix(f, t.a, t.b, t.c, t.d), b, d) == (Half(Plus(w, v)), Half(Minus(w, v)))
  {
    hide *;
    var v, w := V(f, t.b, t.a), V(f, t.d, t.c);
    ManualFactors(v, w);
    ManualIs(f, t);
    SumDifference(v, w, ManualMatrix(f, t.a, t.b, t.c, t.d), b, d, Plus(b, d), Minus(b, d));
  }

  lemma {:induction false} ManualIs(f: Functions, t: MacronodeAngle)
    ensures ManualMatrix(f, t.a, t.b, t.c, t.d)
            == Scale4(Mul4(Mul4(Mul4(UP, OnMode0(V(f, t.b, t.a))), OnMode1(V(f, t.d, t.c))), DOWN), 0.5)
  {
    hide Mul4, OnMode0, OnMode1, V, Scale4;
  }

  // ----- an ordinary macronode -----

  lemma {:induction false} ReadsSum(s: real, c: real, r: real, ux: real, up: real, al: real, be: real, wx: real, wp: real)
    requires wx == r * (ux + al) && wp == r * (up - be)
    ensures s * wx + c * wp == r * (s * (ux + al) + c * (up - be))
  {
  }

  lemma {:induction false} ReadsDifference(s: real, c: real, r: real, ux: real, up: real, al: real, be: real, wx: real, wp: real)
    requires wx == r * (ux - al) && wp == r * (up + be)
    ensures s * wx + c * wp == r * (s * (ux - al) + c * (up + be))
  {
  }

  lemma {:induction false} Cancel(r: real, p: real, q: real, vu: real, wv: real, t1: real, t2: real)
    requires t1 == r * (p - vu) && t2 == r * (q - wv)
    ensures r * (q + p) + -(t1 + t2) == r * (wv + vu)
    ensures r * (q - p) + -(-t1 + t2) == r * (wv - vu)
  {
  }

  lemma {:induction false} Scaled(r: real, ma: real, mb: real, zx: real, zp: real, ux: real, up: real)
    requires ux == r * zx && up == r * zp
    ensures ma * ux + mb * up == r * (ma * zx + mb * zp)
  {
  }

  lemma {:induction false} HalfWay(r: real, a: real, b: real, ra: real, rb: real)
    requires 2.0 * r * r == 1.0 && ra == r * a && rb == r * b
    ensures r * (ra + rb) == (a + b) * 0.5 && r * (ra - rb) == (a - b) * 0.5
  {
    assert r * (ra + rb) == (r * r) * (a + b) && r * (ra - rb) == (r * r) * (a - b);
  }

  lemma {:induction false} ActScaled(r: real, m: Mat2, z: Quad, u: Quad)
    requires u.x == r * z.x && u.p == r * z.p
    ensures Act2(m, u).x == r * Act2(m, z).x && Act2(m, u).p == r * Act2(m, z).p
  {
    var a, b, c, d, zx, zp, ux, up := m.a, m.b, m.c, m.d, z.x, z.p, u.x, u.p;
    Scaled(r, a, b, zx, zp, ux, up);
    Scaled(r, c, d, zx, zp, ux, up);
  }

  lemma {:induction false} BeamReads(f: Functions, t0: real, t1: real, u: Quad, half: Quad, al: real, be: real)
    requires half.x == al && half.p == -be
    ensures Quadrature(f, t0, Beam(f, u, half).1) == f.invSqrt2 * (f.sin(t0) * (u.x + al) + f.cos(t0) * (u.p - be))
    ensures Quadrature(f, t1, Beam(f, u, half).0) == f.invSqrt2 * (f.sin(t1) * (u.x - al) + f.cos(t1) * (u.p + be))
  {
    hide Beam;
    var sa, ca, sb, cb, r := f.sin(t0), f.cos(t0), f.sin(t1), f.cos(t1), f.invSqrt2;
    var plus, minus := Beam(f, u, half).1, Beam(f, u, half).0;
    var ux, up, px, pp, mx, mp := u.x, u.p, plus.x, plus.p, minus.x, minus.p;
    BeamParts(f, u, half, al, be);
    ReadsSum(sa, ca, r, ux, up, al, be, px, pp);
    ReadsDifference(sb, cb, r, ux, up, al, be, mx, mp);
  }

  lemma {:induction false} BeamParts(f: Functions, u: Quad, half: Quad, al: real, be: real)
    requires half.x == al && half.p == -be
    ensures Beam(f, u, half).1.x == f.invSqrt2 * (u.x + al) && Beam(f, u, half).1.p == f.invSqrt2 * (u.p - be)
    ensures Beam(f, u, half).0.x == f.invSqrt2 * (u.x - al) && Beam(f, u, half).0.p == f.invSqrt2 * (u.p + be)
  {
  }

  lemma {:induction false} VFor(f: Functions, t0: real, t1: real)
    requires f.Lawful() && !f.EquivModPi(t0, t1)
    ensures f.sin(t0 - t1) != 0.0 && f.sin(t0 - t1) == f.sin(t0) * f.cos(t1) - f.cos(t0) * f.sin(t1)
    ensures V(f, t1, t0) == VMatrix(f.cos(t1), f.sin(t1), f.cos(t0), f.sin(t0), f.sin(t0 - t1))
  {
    assert f.Difference(t0, t1);
  }

  /** One pair of homodyne measurements, at different angles, on the beam splitter outputs of u and
      one half (al, -be) of an entangled pair. */
  lemma {:induction false} PairMeasured(f: Functions, t0: real, t1: real, u: Quad, half: Quad, al: real, be: real, m0: real, m1: real)
    requires f.Lawful() && !f.EquivModPi(t0, t1)
    requires half.x == al && half.p == -be
    requires m0 == Quadrature(f, t0, Beam(f, u, half).1) && m1 == Quadrature(f, t1, Beam(f, u, half).0)
    ensures var q := Term(f.cos(t0), f.sin(t0), f.cos(t1), f.sin(t1), f.sin(t0 - t1), m0, m1);
      q.x == f.invSqrt2 * (al - Act2(V(f, t1, t0), u).x) && q.p == f.invSqrt2 * (be - Act2(V(f, t1, t0), u).p)
  {
    hide *;
    var sa, ca, sb, cb, r, det, v := f.sin(t0), f.cos(t0), f.sin(t1), f.cos(t1), f.invSqrt2, f.sin(t0 - t1), V(f, t1, t0);
    VFor(f, t0, t1);
    BeamReads(f, t0, t1, u, half, al, be);
    var inv := -1.0 / det;
    VEntries(cb, sb, ca, sa, det, inv, v);
    PairTeleports(sa, ca, sb, cb, r, det, u, al, be, m0, m1, v);
  }

  /** With ideal resources the halves of the entangled pairs mirror each other. */
  lemma {:induction false} IdealPair(f: Functions, a: Quad, b1: Quad)
    requires a.p == 0.0 && b1.x == 0.0
    ensures Beam(f, a, b1).0.x == Beam(f, a, b1).1.x && Beam(f, a, b1).0.p == -Beam(f, a, b1).1.p
  {
  }

  /** What a beam splitter makes of w and v. */
  function Recombined(r: real, w: Quad, v: Quad): (Quad, Quad) {
    (Quad(r * (w.x + v.x), r * (w.p + v.p)), Quad(r * (w.x - v.x), r * (w.p - v.p)))
  }

  /** What the two output modes hold after the last beam splitter and the feedforward. */
  lemma {:induction false} Corrected(f: Functions, t: MacronodeAngle, m: Measured, vb1: Quad, vd1: Quad, vu: Quad, wv: Quad)
    requires var q := Term(f.cos(t.a), f.sin(t.a), f.cos(t.b), f.sin(t.b), f.sin(t.a - t.b), m.a, m.b);
      q.x == f.invSqrt2 * (vb1.x - vu.x) && q.p == f.invSqrt2 * (vb1.p - vu.p)
    requires var q := Term(f.cos(t.c), f.sin(t.c), f.cos(t.d), f.sin(t.d), f.sin(t.c - t.d), m.c, m.d);
      q.x == f.invSqrt2 * (vd1.x - wv.x) && q.p == f.invSqrt2 * (vd1.p - wv.p)
    ensures (Plus(Beam(f, vd1, vb1).1, FMac(f, t, m).0), Plus(Beam(f, vd1, vb1).0, FMac(f, t, m).1)) == Recombined(f.invSqrt2, wv, vu)
  {
    var q1 := Term(f.cos(t.a), f.sin(t.a), f.cos(t.b), f.sin(t.b), f.sin(t.a - t.b), m.a, m.b);
    var q2 := Term(f.cos(t.c), f.sin(t.c), f.cos(t.d), f.sin(t.d), f.sin(t.c - t.d), m.c, m.d);
    hide Term;
    var r, px, pp, qx, qp, ux, up, vx, vp := f.invSqrt2, vb1.x, vb1.p, vd1.x, vd1.p, vu.x, vu.p, wv.x, wv.p;
    var t1x, t1p, t2x, t2p := q1.x, q1.p, q2.x, q2.p;
    assert FMac(f, t, m) == (Quad(-(t1x + t2x), -(t1p + t2p)), Quad(-(-t1x + t2x), -(-t1p + t2p)));
    var wd1, wb1 := Beam(f, vd1, vb1).0, Beam(f, vd1, vb1).1;
    assert wd1.x == r * (qx - px) && wd1.p == r * (qp - pp) && wb1.x == r * (qx + px) && wb1.p == r * (qp + pp);
    hide FMac, Beam;
    Cancel(r, px, qx, ux, vx, t1x, t2x);
    Cancel(r, pp, qp, up, vp, t1p, t2p);
    var q := Recombined(r, wv, vu);
    assert Plus(wb1, FMac(f, t, m).0).x == q.0.x && Plus(wb1, FMac(f, t, m).0).p == q.0.p;
    assert Plus(wd1, FMac(f, t, m).1).x == q.1.x && Plus(wd1, FMac(f, t, m).1).p == q.1.p;
  }

  /** The last beam splitter mixes what the two pairs teleported into the output of Manual. */
  lemma {:induction false} MixesIntoManual(f: Functions, t: MacronodeAngle, b: Quad, d: Quad, vu: Quad, wv: Quad)
    requires 2.0 * f.invSqrt2 * f.invSqrt2 == 1.0
    requires vu == Act2(V(f, t.b, t.a), Beam(f, b, d).0) && wv == Act2(V(f, t.d, t.c), Beam(f, b, d).1)
    ensures Recombined(f.invSqrt2, wv, vu) == Act4(ManualMatrix(f, t.a, t.b, t.c, t.d), b, d)
  {
    hide *;
    ManualActs(f, t, b, d);
    var r, u, v, s, m := f.invSqrt2, Beam(f, b, d).0, Beam(f, b, d).1, Plus(b, d), Minus(b, d);
    var vm, ws := Act2(V(f, t.b, t.a), m), Act2(V(f, t.d, t.c), s);
    BeamScales(f, b, d);
    ActScaled(r, V(f, t.b, t.a), m, u);
    ActScaled(r, V(f, t.d, t.c), s, v);
    HalfSumDifference(r, ws, vm, wv, vu);
  }

  lemma {:induction false} BeamScales(f: Functions, b: Quad, d: Quad)
    ensures Beam(f, b, d).0.x == f.invSqrt2 * Minus(b, d).x && Beam(f, b, d).0.p == f.invSqrt2 * Minus(b, d).p
    ensures Beam(f, b, d).1.x == f.invSqrt2 * Plus(b, d).x && Beam(f, b, d).1.p == f.invSqrt2 * Plus(b, d).p
  {
  }

  lemma {:induction false} HalfSumDifference(r: real, a: Quad, b: Quad, ra: Quad, rb: Quad)
    requires 2.0 * r * r == 1.0 && ra.x == r * a.x && ra.p == r * a.p && rb.x == r * b.x && rb.p == r * b.p
    ensures Recombined(r, ra, rb) == (Half(Plus(a, b)), Half(Minus(a, b)))
  {
    var ax, ap, bx, bp, rax, rap, rbx, rbp := a.x, a.p, b.x, b.p, ra.x, ra.p, rb.x, rb.p;
    HalfWay(r, ax, bx, rax, rbx);
    HalfWay(r, ap, bp, rap, rbp);
    var q := Recombined(r, ra, rb);
    assert q.0.x == Half(Plus(a, b)).x && q.0.p == Half(Plus(a, b)).p;
    assert q.1.x == Half(Minus(a, b)).x && q.1.p == Half(Minus(a, b)).p;
  }

  /** One macronode with two different angles in each pair, ideal resources and feedforward from its
      angles computes the Manual gate, whatever was measured. */
  lemma {:induction false} MacronodeTeleports(f: Functions, t: MacronodeAngle, b: Quad, d: Quad, c: Quad, a: Quad, b1: Quad, d1: Quad)
    requires f.Lawful() && !f.EquivModPi(t.a, t.b) && !f.EquivModPi(t.c, t.d)
    requires a.p == 0.0 && c.p == 0.0 && b1.x == 0.0 && d1.x == 0.0
    ensures var (m, wb1, wd1) := Macronode(f, t, b, d, c, a, b1, d1);
      (Plus(wb1, FIMac(f, t, m).0), Plus(wd1, FIMac(f, t, m).1)) == Act4(ManualMatrix(f, t.a, t.b, t.c, t.d), b, d)
  {
    hide Beam, Term, FMac, V, Act2, Act4, ManualMatrix, Quadrature, Plus, Recombined;
    var (vb, vd) := Beam(f, b, d);
    var (va, vb1) := Beam(f, a, b1);
    var (vc, vd1) := Beam(f, c, d1);
    IdealPair(f, a, b1);
    IdealPair(f, c, d1);
    var m := Macronode(f, t, b, d, c, a, b1, d1).0;
    PairMeasured(f, t.a, t.b, vb, va, vb1.x, vb1.p, m.a, m.b);
    PairMeasured(f, t.c, t.d, vd, vc, vd1.x, vd1.p, m.c, m.d);
    var vu, wv := Act2(V(f, t.b, t.a), vb), Act2(V(f, t.d, t.c), vd);
    Corrected(f, t, m, vb1, vd1, vu, wv);
    MixesIntoManual(f, t, b, d, vu, wv);
  }
}
