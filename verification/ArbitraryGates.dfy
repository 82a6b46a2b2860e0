/** The two halves of the graph level's Arbitrary operation, as Manual gates. */
module ArbitraryGates {
  import opened Elementary
  import opened Operations
  import opened Points
  import opened Teleportation
  import opened GraphProgram
  import Replacement
  import opened Readout

  function ManualOf(f: Functions, angles: seq<real>): Mat4
    requires |angles| == 4
  {
    ManualMatrix(f, angles[0], angles[1], angles[2], angles[3])
  }

  // ----- one matrix on each mode, or the same and an exchange -----

  lemma {:induction false} HalfSums(w: Quad, v: Quad)
    ensures Half(Plus(Plus(w, v), Minus(w, v))) == w && Half(Minus(Plus(w, v), Minus(w, v))) == v
  {
  }

  lemma {:induction false} ActLinear(m: Mat2, b: Quad, d: Quad)
    ensures Act2(m, Plus(b, d)) == Plus(Act2(m, b), Act2(m, d)) && Act2(m, Minus(b, d)) == Minus(Act2(m, b), Act2(m, d))
  {
    Linear(m.a, m.b, b.x, b.p, d.x, d.p);
    Linear(m.c, m.d, b.x, b.p, d.x, d.p);
    var p, q := Act2(m, Plus(b, d)), Act2(m, Minus(b, d));
    assert p.x == Plus(Act2(m, b), Act2(m, d)).x && p.p == Plus(Act2(m, b), Act2(m, d)).p;
    assert q.x == Minus(Act2(m, b), Act2(m, d)).x && q.p == Minus(Act2(m, b), Act2(m, d)).p;
  }

  lemma {:induction false} Linear(r: real, s: real, x: real, p: real, y: real, q: real)
    ensures r * (x + y) + s * (p + q) == (r * x + s * p) + (r * y + s * q)
    ensures r * (x - y) + s * (p - q) == (r * x + s * p) - (r * y + s * q)
  {
  }

  /** Exchanging the two angles of V changes its sign. */
  lemma {:induction false} VReversed(f: Functions, t0: real, t1: real, q: Quad)
    requires f.Lawful()
    ensures Act2(V(f, t0, t1), q) == Neg(Act2(V(f, t1, t0), q))
  {
    var c0, s0, c1, s1, e, d := f.cos(t0), f.sin(t0), f.cos(t1), f.sin(t1), f.sin(t0 - t1), f.sin(t1 - t0);
    assert e == -d by {
      assert f.Difference(t0, t1) && f.Difference(t1, t0);
      Products(s0, c1, c0, s1);
    }
    hide f.Lawful;
    var i, j := Quotient(-1.0, d), Quotient(-1.0, e);
    OppositeQuotients(d, e, i, j);
    var v, w := VMatrix(c0, s0, c1, s1, d), VMatrix(c1, s1, c0, s0, e);
    VFactors(c0, s0, c1, s1, d, i);
    VFactors(c1, s1, c0, s0, e, j);
    hide VMatrix, Quotient;
    SameSums(c0, s0, c1, s1, i, j);
    assert w.a == -v.a && w.b == -v.b && w.c == -v.c && w.d == -v.d;
    OppositeAct(v, w, q);
  }

  lemma {:induction false} Products(a: real, b: real, c: real, d: real)
    ensures a * b - c * d == -(d * c - b * a)
  {
  }

  lemma {:induction false} OppositeQuotients(d: real, e: real, i: real, j: real)
    requires e == -d && i == Quotient(-1.0, d) && j == Quotient(-1.0, e)
    ensures j == -i
  {
    if d != 0.0 {
      assert i * d == -1.0 && j * e == -1.0;
      assert (i + j) * d == 0.0;
    }
  }

  lemma {:induction false} VFactors(c1: real, s1: real, c2: real, s2: real, det: real, inv: real)
    requires inv == Quotient(-1.0, det)
    ensures VMatrix(c1, s1, c2, s2, det)
            == Mat2((c2 * s1 + c1 * s2) * inv, (c2 * c1 + c1 * c2) * inv, (s2 * s1 + s1 * s2) * inv, (s2 * c1 + s1 * c2) * inv)
  {
    hide Quotient;
  }

  lemma {:induction false} SameSums(c0: real, s0: real, c1: real, s1: real, i: real, j: real)
    requires j == -i
    ensures (c0 * s1 + c1 * s0) * j == -((c1 * s0 + c0 * s1) * i) && (c0 * c1 + c1 * c0) * j == -((c1 * c0 + c0 * c1) * i)
    ensures (s0 * s1 + s1 * s0) * j == -((s1 * s0 + s0 * s1) * i) && (s0 * c1 + s1 * c0) * j == -((s1 * c0 + s0 * c1) * i)
  {
  }

  lemma {:induction false} OppositeAct(v: Mat2, w: Mat2, q: Quad)
    requires w.a == -v.a && w.b == -v.b && w.c == -v.c && w.d == -v.d
    ensures Act2(v, q) == Neg(Act2(w, q))
  {
    NegatedProducts(v.a, v.b, w.a, w.b, q.x, q.p);
    NegatedProducts(v.c, v.d, w.c, w.d, q.x, q.p);
    hide Neg;
    var z := Neg(Act2(w, q));
    assert z == Quad(-(w.a * q.x + w.b * q.p), -(w.c * q.x + w.d * q.p)) by { OppositeIs(w, q); }
  }

  lemma {:induction false} OppositeIs(w: Mat2, q: Quad)
    ensures Neg(Act2(w, q)) == Quad(-(w.a * q.x + w.b * q.p), -(w.c * q.x + w.d * q.p))
  {
  }

  lemma {:induction false} NegatedProducts(a: real, b: real, c: real, d: real, x: real, p: real)
    requires c == -a && d == -b
    ensures a * x + b * p == -(c * x + d * p)
  {
  }

  /** Manual with the same two angles in both pairs acts on each mode alone. */
  lemma {:induction false} EqualPairs(f: Functions, t0: real, t1: real, b: Quad, d: Quad)
    ensures Act4(ManualMatrix(f, t0, t1, t0, t1), b, d) == (Act2(V(f, t1, t0), b), Act2(V(f, t1, t0), d))
  {
    hide *;
    var m := V(f, t1, t0);
    ManualActs(f, MacronodeAngle(t0, t1, t0, t1), b, d);
    ActLinear(m, b, d);
    HalfSums(Act2(m, b), Act2(m, d));
  }

  lemma {:induction false} SignedSums(w: Quad, v: Quad, z: Quad)
    requires z == Neg(Minus(w, v))
    ensures Half(Plus(Plus(w, v), z)) == v && Half(Minus(Plus(w, v), z)) == w
  {
  }

  /** With the angles of the first pair exchanged the two modes are exchanged as well. */
  lemma {:induction false} SwappedPairs(f: Functions, t0: real, t1: real, b: Quad, d: Quad)
    requires f.Lawful()
    ensures Act4(ManualMatrix(f, t1, t0, t0, t1), b, d) == (Act2(V(f, t1, t0), d), Act2(V(f, t1, t0), b))
  {
    hide *;
    var m, z := V(f, t1, t0), Act2(V(f, t0, t1), Minus(b, d));
    ManualActs(f, MacronodeAngle(t1, t0, t0, t1), b, d);
    VReversed(f, t0, t1, Minus(b, d));
    ActLinear(m, b, d);
    SignedSums(Act2(m, b), Act2(m, d), z);
  }

  // ----- the 2x2 matrices of the two halves -----

  function FirstMatrix(f: Functions, p: seq<real>): Mat2
    requires |p| == 3
  {
    V(f, p[1] + f.atan(f.exp(p[2])), p[1] - f.atan(f.exp(p[2])))
  }

  function SecondMatrix(f: Functions, p: seq<real>): Mat2
    requires |p| == 3
  {
    V(f, 0.5 * (p[0] - p[1]) - 0.5 * f.halfPi, 0.5 * (p[0] - p[1]) + 0.5 * f.halfPi)
  }

  /** ArbitraryFirst applies one matrix to each mode; the swap-ordered angles exchange the modes after it. */
  lemma {:induction false} FirstActs(f: Functions, p: seq<real>, swap: bool, b: Quad, d: Quad)
    requires f.Lawful() && |p| == 3
    ensures var (x, y) := (Act2(FirstMatrix(f, p), b), Act2(FirstMatrix(f, p), d));
      Act4(ManualOf(f, FirstAngles(f, p, swap)), b, d) == if swap then (y, x) else (x, y)
  {
    hide f.Lawful, ManualMatrix, Act4, Act2, V;
    var minus, plus := p[1] - f.atan(f.exp(p[2])), p[1] + f.atan(f.exp(p[2]));
    EqualPairs(f, minus, plus, b, d);
    SwappedPairs(f, minus, plus, b, d);
  }

  /** The same for ArbitrarySecond. */
  lemma {:induction false} SecondActs(f: Functions, p: seq<real>, swap: bool, b: Quad, d: Quad)
    requires f.Lawful() && |p| == 3
    ensures var (x, y) := (Act2(SecondMatrix(f, p), b), Act2(SecondMatrix(f, p), d));
      Act4(ManualOf(f, SecondAngles(f, p, swap)), b, d) == if swap then (y, x) else (x, y)
  {
    hide f.Lawful, ManualMatrix, Act4, Act2, V;
    var minus, plus := 0.5 * (p[0] - p[1]) - 0.5 * f.halfPi, 0.5 * (p[0] - p[1]) + 0.5 * f.halfPi;
    EqualPairs(f, plus, minus, b, d);
    SwappedPairs(f, plus, minus, b, d);
  }

  // ----- the entries of the first half -----

  /** The first half: a mixture of a squeezer by e = exp(lambda), with inverse i, in the frame of beta. */
  function FirstEntries(c: real, s: real, e: real, i: real): Mat2 {
    Mat2((s * c) * (e + i), (c * c) * i - (s * s) * e, (s * s) * i - (c * c) * e, (s * c) * (e + i))
  }

  lemma {:induction false} SumAngles(f: Functions, b: real, t: real)
    requires f.Lawful()
    ensures f.cos(b + t) == f.cos(b) * f.cos(t) - f.sin(b) * f.sin(t) && f.sin(b + t) == f.sin(b) * f.cos(t) + f.cos(b) * f.sin(t)
    ensures f.cos(b - t) == f.cos(b) * f.cos(t) + f.sin(b) * f.sin(t) && f.sin(b - t) == f.sin(b) * f.cos(t) - f.cos(b) * f.sin(t)
  {
    f.Addition(b, t);
    assert f.Difference(b, t);
  }

  lemma {:induction false} DoubleAngle(f: Functions, t: real)
    requires f.Lawful()
    ensures f.sin(t + t) == 2.0 * (f.sin(t) * f.cos(t)) && f.cos(t + t) == f.cos(t) * f.cos(t) - f.sin(t) * f.sin(t)
    ensures f.sin(t) * f.sin(t) + f.cos(t) * f.cos(t) == 1.0
  {
    f.Addition(t, t);
    assert f.OnCircle(t);
  }

  /** Sums of products of the cosines and sines of b + t and b - t. */
  lemma {:induction false} MixedProducts(c: real, s: real, ct: real, st: real, c1: real, s1: real, c2: real, s2: real)
    requires c1 == c * ct - s * st && s1 == s * ct + c * st && c2 == c * ct + s * st && s2 == s * ct - c * st
    ensures c2 * s1 + c1 * s2 == 2.0 * ((s * c) * (ct * ct + st * st))
    ensures s2 * c1 + s1 * c2 == 2.0 * ((s * c) * (ct * ct + st * st))
    ensures c2 * c1 + c1 * c2 == 2.0 * ((c * c) * (ct * ct) - (s * s) * (st * st))
    ensures s2 * s1 + s1 * s2 == 2.0 * ((s * s) * (ct * ct) - (c * c) * (st * st))
  {
  }

  /** What 1 / (2 sin t cos t) makes of squares, when tan t is e. */
  lemma {:induction false} TangentRatios(ct: real, st: real, e: real, i: real, inv: real)
    requires ct > 0.0 && st == e * ct && e * i == 1.0 && (2.0 * (st * ct)) * inv == 1.0
    ensures (2.0 * (ct * ct)) * inv == i && (2.0 * (st * st)) * inv == e
  {
    var k := 2.0 * ((ct * ct) * inv);
    assert (2.0 * (st * ct)) * inv == e * k;
    assert i * (e * k) == k;
    assert (2.0 * (st * st)) * inv == e * (e * k);
  }

  lemma {:induction false} SumEntry(n: real, x: real, u: real, v: real, inv: real, i: real, e: real)
    requires n == 2.0 * (x * (u + v)) && (2.0 * u) * inv == i && (2.0 * v) * inv == e
    ensures n * inv == x * (e + i)
  {
    assert n * inv == x * ((2.0 * u) * inv) + x * ((2.0 * v) * inv);
  }

  lemma {:induction false} DifferenceEntry(n: real, x: real, y: real, u: real, v: real, inv: real, i: real, e: real)
    requires n == 2.0 * (x * u - y * v) && (2.0 * u) * inv == i && (2.0 * v) * inv == e
    ensures n * inv == x * i - y * e
  {
    assert n * inv == x * ((2.0 * u) * inv) - y * ((2.0 * v) * inv);
  }

  lemma {:induction false} InverseDet(det: real, st: real, ct: real, inv: real)
    requires det == -(2.0 * (st * ct)) && det != 0.0 && inv == Quotient(-1.0, det)
    ensures (2.0 * (st * ct)) * inv == 1.0
  {
    assert det * inv == -1.0;
  }

  lemma {:induction false} FirstIs(c: real, s: real, ct: real, st: real, e: real, i: real, det: real, c1: real, s1: real, c2: real, s2: real)
    requires c1 == c * ct - s * st && s1 == s * ct + c * st && c2 == c * ct + s * st && s2 == s * ct - c * st
    requires ct > 0.0 && st == e * ct && e * i == 1.0 && det == -(2.0 * (st * ct)) && det != 0.0
    ensures VMatrix(c1, s1, c2, s2, det) == FirstEntries(c, s, e, i)
  {
    hide *;
    var inv := Quotient(-1.0, det);
    InverseDet(det, st, ct, inv);
    VFactors(c1, s1, c2, s2, det, inv);
    TangentRatios(ct, st, e, i, inv);
    FirstSums(c, s, ct, st, e, i, inv, c1, s1, c2, s2, c2 * s1 + c1 * s2, c2 * c1 + c1 * c2, s2 * s1 + s1 * s2, s2 * c1 + s1 * c2);
  }

  lemma {:induction false} FirstSums(
    c: real, s: real, ct: real, st: real, e: real, i: real, inv: real, c1: real, s1: real, c2: real, s2: real, na: real, nb: real, nc: real, nd: real)
    requires c1 == c * ct - s * st && s1 == s * ct + c * st && c2 == c * ct + s * st && s2 == s * ct - c * st
    requires na == c2 * s1 + c1 * s2 && nb == c2 * c1 + c1 * c2 && nc == s2 * s1 + s1 * s2 && nd == s2 * c1 + s1 * c2
    requires (2.0 * (ct * ct)) * inv == i && (2.0 * (st * st)) * inv == e
    ensures FirstEntries(c, s, e, i) == Mat2(na * inv, nb * inv, nc * inv, nd * inv)
  {
    hide *;
    MixedProducts(c, s, ct, st, c1, s1, c2, s2);
    FirstSumEntries(c, s, ct * ct, st * st, e, i, inv, na, nb, nc, nd);
  }

  lemma {:induction false} FirstSumEntries(
    c: real, s: real, u: real, v: real, e: real, i: real, inv: real, na: real, nb: real, nc: real, nd: real)
    requires na == 2.0 * ((s * c) * (u + v)) && nd == 2.0 * ((s * c) * (u + v))
    requires nb == 2.0 * ((c * c) * u - (s * s) * v) && nc == 2.0 * ((s * s) * u - (c * c) * v)
    requires (2.0 * u) * inv == i && (2.0 * v) * inv == e
    ensures FirstEntries(c, s, e, i) == Mat2(na * inv, nb * inv, nc * inv, nd * inv)
  {
    hide *;
    var a, b, cc, d := na * inv, nb * inv, nc * inv, nd * inv;
    FourEntries(s * c, c * c, s * s, u, v, e, i, inv, na, nb, nc, nd, a, b, cc, d);
    FirstEntriesAre(c, s, e, i, a, b, cc, d);
  }

  lemma {:induction false} FourEntries(
    x: real, y: real, z: real, u: real, v: real, e: real, i: real, inv: real, na: real, nb: real, nc: real, nd: real,
    a: real, b: real, c: real, d: real)
    requires na == 2.0 * (x * (u + v)) && nb == 2.0 * (y * u - z * v) && nc == 2.0 * (z * u - y * v) && nd == 2.0 * (x * (u + v))
    requires (2.0 * u) * inv == i && (2.0 * v) * inv == e
    requires a == na * inv && b == nb * inv && c == nc * inv && d == nd * inv
    ensures a == x * (e + i) && b == y * i - z * e && c == z * i - y * e && d == x * (e + i)
  {
    SumEntry(na, x, u, v, inv, i, e);
    DifferenceEntry(nb, y, z, u, v, inv, i, e);
    DifferenceEntry(nc, z, y, u, v, inv, i, e);
    SumEntry(nd, x, u, v, inv, i, e);
  }

  lemma {:induction false} FirstEntriesAre(c: real, s: real, e: real, i: real, a: real, b: real, cc: real, d: real)
    requires a == (s * c) * (e + i) && b == (c * c) * i - (s * s) * e && cc == (s * s) * i - (c * c) * e && d == (s * c) * (e + i)
    ensures FirstEntries(c, s, e, i) == Mat2(a, b, cc, d)
  {
  }

  lemma {:induction false} AtanFacts(f: Functions, lambda: real, t: real)
    requires f.Lawful() && t == f.atan(f.exp(lambda))
    ensures f.exp(lambda) > 0.0 && f.exp(lambda) * f.exp(-lambda) == 1.0
    ensures f.cos(t) > 0.0 && f.sin(t) == f.exp(lambda) * f.cos(t)
  {
    assert f.Exponential(lambda) && f.ArcTangent(f.exp(lambda));
  }

  lemma {:induction false} FirstDet(f: Functions, b: real, t: real)
    requires f.Lawful()
    ensures f.sin((b - t) - (b + t)) == -(2.0 * (f.sin(t) * f.cos(t)))
  {
    DoubleAngle(f, t);
    f.Negation(t + t);
    assert (b - t) - (b + t) == -(t + t);
    hide f.Lawful;
  }

  lemma {:induction false} FirstMatrixIs(f: Functions, p: seq<real>, t: real)
    requires |p| == 3 && t == f.atan(f.exp(p[2]))
    ensures FirstMatrix(f, p) == VMatrix(f.cos(p[1] + t), f.sin(p[1] + t), f.cos(p[1] - t), f.sin(p[1] - t), f.sin((p[1] - t) - (p[1] + t)))
  {
    hide VMatrix;
  }

  lemma {:induction false} FirstHalf(f: Functions, p: seq<real>)
    requires f.Lawful() && |p| == 3
    ensures FirstMatrix(f, p) == FirstEntries(f.cos(p[1]), f.sin(p[1]), f.exp(p[2]), f.exp(-p[2]))
  {
    hide *;
    var b, e, i, t := p[1], f.exp(p[2]), f.exp(-p[2]), f.atan(f.exp(p[2]));
    AtanFacts(f, p[2], t);
    SumAngles(f, b, t);
    FirstDet(f, b, t);
    FirstMatrixIs(f, p, t);
    var ct, st := f.cos(t), f.sin(t);
    NonZeroProduct(st, ct, e);
    FirstIs(f.cos(b), f.sin(b), ct, st, e, i, f.sin((b - t) - (b + t)), f.cos(b + t), f.sin(b + t), f.cos(b - t), f.sin(b - t));
  }

  lemma {:induction false} NonZeroProduct(st: real, ct: real, e: real)
    requires ct > 0.0 && e > 0.0 && st == e * ct
    ensures 2.0 * (st * ct) > 0.0
  {
    assert st > 0.0;
  }

  // ----- the entries of the second half -----

  lemma {:induction false} SecondIs(c: real, s: real, cq: real, sq: real, c1: real, s1: real, c2: real, s2: real, cd: real, sd: real)
    requires c1 == c * cq + s * sq && s1 == s * cq - c * sq && c2 == c * cq - s * sq && s2 == s * cq + c * sq
    requires 2.0 * (sq * cq) == 1.0 && cq * cq - sq * sq == 0.0 && sq * sq + cq * cq == 1.0
    requires sd == 2.0 * (s * c) && cd == c * c - s * s
    ensures VMatrix(c1, s1, c2, s2, 1.0) == Mat2(-sd, -cd, cd, -sd)
  {
    VFactors(c1, s1, c2, s2, 1.0, -1.0);
    MixedProducts(c, s, cq, -sq, c1, s1, c2, s2);
    var u, v := cq * cq, sq * sq;
    assert u == 0.5 && v == 0.5 && -sq * -sq == v;
    hide VMatrix;
    Halved(s * c, c * c, s * s, u, v);
  }

  lemma {:induction false} Halved(x: real, y: real, z: real, u: real, v: real)
    requires u == 0.5 && v == 0.5
    ensures 2.0 * (x * (u + v)) == 2.0 * x && 2.0 * (y * u - z * v) == y - z && 2.0 * (z * u - y * v) == z - y
  {
  }

  lemma {:induction false} SecondMatrixIs(f: Functions, p: seq<real>, h: real, q: real)
    requires |p| == 3 && h == 0.5 * (p[0] - p[1]) && q == 0.5 * f.halfPi && f.sin(f.halfPi) == 1.0
    ensures SecondMatrix(f, p) == VMatrix(f.cos(h - q), f.sin(h - q), f.cos(h + q), f.sin(h + q), 1.0)
  {
    assert (h + q) - (h - q) == f.halfPi;
    hide VMatrix;
  }

  lemma {:induction false} RightAngle(f: Functions, q: real)
    requires f.Lawful() && q + q == f.halfPi
    ensures 2.0 * (f.sin(q) * f.cos(q)) == 1.0 && f.cos(q) * f.cos(q) - f.sin(q) * f.sin(q) == 0.0 && f.sin(f.halfPi) == 1.0
  {
    DoubleAngle(f, q);
  }

  lemma {:induction false} SecondHalf(f: Functions, p: seq<real>)
    requires f.Lawful() && |p| == 3
    ensures var d := p[0] - p[1]; SecondMatrix(f, p) == Mat2(-f.sin(d), -f.cos(d), f.cos(d), -f.sin(d))
  {
    hide *;
    var h, q := 0.5 * (p[0] - p[1]), 0.5 * f.halfPi;
    assert h + h == p[0] - p[1] && q + q == f.halfPi;
    DoubleAngle(f, h);
    DoubleAngle(f, q);
    RightAngle(f, q);
    SumAngles(f, h, q);
    SecondMatrixIs(f, p, h, q);
    SecondIs(f.cos(h), f.sin(h), f.cos(q), f.sin(q), f.cos(h - q), f.sin(h - q), f.cos(h + q), f.sin(h + q), f.cos(h + h), f.sin(h + h));
  }

  // ----- the two halves together -----

  /** R(alpha) * diag(e, i) * R(beta) */
  function RotatedSqueezing(ca: real, sa: real, e: real, i: real, cb: real, sb: real): Mat2 {
    Mat2((ca * cb) * e - (sa * sb) * i, -((ca * sb) * e) - (sa * cb) * i, (sa * cb) * e + (ca * sb) * i, (ca * cb) * i - (sa * sb) * e)
  }

  lemma {:induction false} Gathered(sd: real, cd: real, cb: real, sb: real, e: real, i: real, ca: real, sa: real, x: real, y: real, z: real)
    requires ca == cd * cb - sd * sb && sa == sd * cb + cd * sb
    requires x == (sb * cb) * (e + i) && y == (cb * cb) * i - (sb * sb) * e && z == (sb * sb) * i - (cb * cb) * e
    ensures -sd * x + -cd * z == (ca * cb) * e - (sa * sb) * i
    ensures -sd * y + -cd * x == -((ca * sb) * e) - (sa * cb) * i
    ensures cd * x + -sd * z == (sa * cb) * e + (ca * sb) * i
    ensures cd * y + -sd * x == (ca * cb) * i - (sa * sb) * e
  {
  }

  lemma {:induction false} Composed(sd: real, cd: real, cb: real, sb: real, e: real, i: real, ca: real, sa: real)
    requires ca == cd * cb - sd * sb && sa == sd * cb + cd * sb
    ensures Mul2(Mat2(-sd, -cd, cd, -sd), FirstEntries(cb, sb, e, i)) == RotatedSqueezing(ca, sa, e, i, cb, sb)
  {
    var x, y, z := (sb * cb) * (e + i), (cb * cb) * i - (sb * sb) * e, (sb * sb) * i - (cb * cb) * e;
    hide *;
    Gathered(sd, cd, cb, sb, e, i, ca, sa, x, y, z);
    FirstEntriesAre(cb, sb, e, i, x, y, z, x);
    ComposedWith(sd, cd, x, y, z);
    RotatedSqueezingIs(ca, sa, e, i, cb, sb, -sd * x + -cd * z, -sd * y + -cd * x, cd * x + -sd * z, cd * y + -sd * x);
  }

  lemma {:induction false} RotatedSqueezingIs(ca: real, sa: real, e: real, i: real, cb: real, sb: real, a: real, b: real, c: real, d: real)
    requires a == (ca * cb) * e - (sa * sb) * i && b == -((ca * sb) * e) - (sa * cb) * i
    requires c == (sa * cb) * e + (ca * sb) * i && d == (ca * cb) * i - (sa * sb) * e
    ensures RotatedSqueezing(ca, sa, e, i, cb, sb) == Mat2(a, b, c, d)
  {
  }

  lemma {:induction false} ComposedWith(sd: real, cd: real, x: real, y: real, z: real)
    ensures Mul2(Mat2(-sd, -cd, cd, -sd), Mat2(x, y, z, x)) == Mat2(-sd * x + -cd * z, -sd * y + -cd * x, cd * x + -sd * z, cd * y + -sd * x)
  {
  }

  lemma {:induction false} RightFactor(x: real, y: real, z: real, w: real, cb: real, sb: real)
    ensures Mul2(Mat2(x, y, z, w), Mat2(cb, -sb, sb, cb)) == Mat2(x * cb + y * sb, x * -sb + y * cb, z * cb + w * sb, z * -sb + w * cb)
  {
  }

  lemma {:induction false} ThreeFactors(ca: real, sa: real, e: real, i: real, cb: real, sb: real)
    ensures Mul2(Mul2(Mat2(ca, -sa, sa, ca), Mat2(e, 0.0, 0.0, i)), Mat2(cb, -sb, sb, cb)) == RotatedSqueezing(ca, sa, e, i, cb, sb)
  {
    hide Mul2;
    Replacement.LeftFactor(ca, sa, e, i);
    RightFactor(ca * e, -sa * i, sa * e, ca * i, cb, sb);
    Rearranged(ca, sa, e, i, cb, sb);
  }

  lemma {:induction false} Rearranged(ca: real, sa: real, e: real, i: real, cb: real, sb: real)
    ensures (ca * e) * cb + (-sa * i) * sb == (ca * cb) * e - (sa * sb) * i
    ensures (ca * e) * -sb + (-sa * i) * cb == -((ca * sb) * e) - (sa * cb) * i
    ensures (sa * e) * cb + (ca * i) * sb == (sa * cb) * e + (ca * sb) * i
    ensures (sa * e) * -sb + (ca * i) * cb == (ca * cb) * i - (sa * sb) * e
  {
  }

  /** R(alpha) * diag(exp(-lambda), exp(lambda)) * R(beta), multiplied out. */
  lemma {:induction false} ArbitraryIs(f: Functions, alpha: real, beta: real, lambda: real)
    ensures ArbitraryMatrix(f, alpha, beta, lambda)
            == RotatedSqueezing(f.cos(alpha), f.sin(alpha), f.exp(-lambda), f.exp(lambda), f.cos(beta), f.sin(beta))
  {
    hide Mul2, RotatedSqueezing;
    ThreeFactors(f.cos(alpha), f.sin(alpha), f.exp(-lambda), f.exp(lambda), f.cos(beta), f.sin(beta));
  }

  lemma {:induction false} BackToAlpha(f: Functions, alpha: real, beta: real, d: real)
    requires f.Lawful() && d == alpha - beta
    ensures f.cos(alpha) == f.cos(d) * f.cos(beta) - f.sin(d) * f.sin(beta) && f.sin(alpha) == f.sin(d) * f.cos(beta) + f.cos(d) * f.sin(beta)
  {
    f.Addition(d, beta);
    assert d + beta == alpha;
  }

  /** The second half after the first is R(alpha) * diag(exp(lambda), exp(-lambda)) * R(beta): the
      circuit level's Arbitrary with lambda negated. */
  lemma {:induction false} HalvesCompose(f: Functions, p: seq<real>)
    requires f.Lawful() && |p| == 3
    ensures Mul2(SecondMatrix(f, p), FirstMatrix(f, p)) == ArbitraryMatrix(f, p[0], p[1], -p[2])
  {
    hide *;
    var d := p[0] - p[1];
    assert - -p[2] == p[2];
    FirstHalf(f, p);
    SecondHalf(f, p);
    BackToAlpha(f, p[0], p[1], d);
    Composed(f.sin(d), f.cos(d), f.cos(p[1]), f.sin(p[1]), f.exp(p[2]), f.exp(-p[2]), f.cos(p[0]), f.sin(p[0]));
    ArbitraryIs(f, p[0], p[1], -p[2]);
  }

  lemma {:induction false} ActRow(a: real, b: real, n: Mat2, x: real, p: real, y: real, q: real)
    requires y == n.a * x + n.b * p && q == n.c * x + n.d * p
    ensures (a * n.a + b * n.c) * x + (a * n.b + b * n.d) * p == a * y + b * q
  {
  }

  lemma {:induction false} ActComposed(m: Mat2, n: Mat2, q: Quad)
    ensures Act2(Mul2(m, n), q) == Act2(m, Act2(n, q))
  {
    var z := Act2(n, q);
    ActRow(m.a, m.b, n, q.x, q.p, z.x, z.p);
    ActRow(m.c, m.d, n, q.x, q.p, z.x, z.p);
    hide Quotient;
  }

  /** Without exchanges, ArbitraryFirst and then ArbitrarySecond apply Arbitrary with lambda negated to each mode. */
  lemma {:induction false} ArbitraryActs(f: Functions, p: seq<real>, b: Quad, d: Quad)
    requires f.Lawful() && |p| == 3
    ensures var a := ArbitraryMatrix(f, p[0], p[1], -p[2]);
      var (x, y) := Act4(ManualOf(f, FirstAngles(f, p, false)), b, d);
      Act4(ManualOf(f, SecondAngles(f, p, false)), x, y) == (Act2(a, b), Act2(a, d))
  {
    hide f.Lawful, FirstMatrix, SecondMatrix, ManualOf, Act4, Act2, Mul2, ArbitraryMatrix;
    FirstActs(f, p, false, b, d);
    var m, n := SecondMatrix(f, p), FirstMatrix(f, p);
    SecondActs(f, p, false, Act2(n, b), Act2(n, d));
    HalvesCompose(f, p);
    ActComposed(m, n, b);
    ActComposed(m, n, d);
  }

  // ----- the sign of lambda -----

  /** Turning back by alpha and beta shows the factor of the position. */
  function TurnedBack(ca: real, sa: real, cb: real, sb: real, m: Mat2): real {
    ca * (m.a * cb - m.b * sb) + sa * (m.c * cb - m.d * sb)
  }

  lemma {:induction false} FirstFactor(ca: real, sa: real, cb: real, sb: real, e: real, i: real)
    requires sa * sa + ca * ca == 1.0 && sb * sb + cb * cb == 1.0
    ensures TurnedBack(ca, sa, cb, sb, RotatedSqueezing(ca, sa, e, i, cb, sb)) == e
  {
    var m := RotatedSqueezing(ca, sa, e, i, cb, sb);
    Undo(ca, sa, cb, sb, e, i, m.a, m.b, m.c, m.d);
  }

  lemma {:induction false} Undo(ca: real, sa: real, cb: real, sb: real, e: real, i: real, a: real, b: real, c: real, d: real)
    requires a == (ca * cb) * e - (sa * sb) * i && b == -((ca * sb) * e) - (sa * cb) * i
    requires c == (sa * cb) * e + (ca * sb) * i && d == (ca * cb) * i - (sa * sb) * e
    requires sa * sa + ca * ca == 1.0 && sb * sb + cb * cb == 1.0
    ensures ca * (a * cb - b * sb) + sa * (c * cb - d * sb) == e
  {
    var l, r := a * cb - b * sb, c * cb - d * sb;
    assert l == (ca * e) * (cb * cb + sb * sb);
    assert r == (sa * e) * (cb * cb + sb * sb);
    assert ca * (ca * e) + sa * (sa * e) == (sa * sa + ca * ca) * e;
  }

  lemma {:induction false} SameSqueezing(ca: real, sa: real, cb: real, sb: real, e: real, i: real)
    requires sa * sa + ca * ca == 1.0 && sb * sb + cb * cb == 1.0
    ensures RotatedSqueezing(ca, sa, e, i, cb, sb) == RotatedSqueezing(ca, sa, i, e, cb, sb) <==> e == i
  {
    hide *;
    FirstFactor(ca, sa, cb, sb, e, i);
    FirstFactor(ca, sa, cb, sb, i, e);
  }

  lemma {:induction false} SquaresToOne(e: real)
    requires e > 0.0 && e * e == 1.0
    ensures e == 1.0
  {
    assert (e - 1.0) * (e + 1.0) == 0.0;
  }

  /** Only lambda = 0 squeezes like -lambda. */
  lemma {:induction false} SqueezesAlike(f: Functions, lambda: real)
    requires f.Lawful()
    ensures f.exp(lambda) == f.exp(-lambda) <==> lambda == 0.0
  {
    assert f.Exponential(lambda);
    hide Functions.Lawful;
    if f.exp(lambda) == f.exp(-lambda) {
      SquaresToOne(f.exp(lambda));
    }
    if lambda == 0.0 {
      assert -lambda == lambda;
    }
  }

  /** The composition is Arbitrary with the same parameters exactly when there is nothing to squeeze. */
  lemma {:induction false} SignMatters(f: Functions, p: seq<real>)
    requires f.Lawful() && |p| == 3
    ensures Mul2(SecondMatrix(f, p), FirstMatrix(f, p)) == ArbitraryMatrix(f, p[0], p[1], p[2]) <==> p[2] == 0.0
  {
    hide *;
    assert - -p[2] == p[2];
    SqueezesAlike(f, p[2]);
    HalvesCompose(f, p);
    ArbitraryIs(f, p[0], p[1], -p[2]);
    ArbitraryIs(f, p[0], p[1], p[2]);
    f.Circle(p[0]);
    f.Circle(p[1]);
    SameSqueezing(f.cos(p[0]), f.sin(p[0]), f.cos(p[1]), f.sin(p[1]), f.exp(p[2]), f.exp(-p[2]));
  }
}
