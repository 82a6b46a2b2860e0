/** The real parts of the means move as a phase-space point does. */
module MeansAsPoints {
  import opened Elementary
  import opened Operations
  import opened Points
  import opened Sums
  import opened PartialUpdate
  import opened GateMatrices
  import opened GaussianPeaks
  import Congruence
  import GateSequences
  import Conditioning

  /** The variables of g have the quadratures of the point as their means. */
  ghost predicate At(re: Vector, n: nat, modes: seq<Quad>) {
    |modes| == n && forall m | 0 <= m < n :: re(m) == modes[m].x && re(m + n) == modes[m].p
  }

  ghost predicate Represents(g: Peak, pt: Point) { At(g.re, g.n, pt.modes) }

  lemma {:induction false} TwoOperated(m: Mat2, idx: seq<nat>, a: int, v: Vector)
    requires |idx| == 2
    ensures Sum(OperatedTerms(Entries2(m), idx, a, v), 2) == Entries2(m)(a, 0) * v(idx[0]) + Entries2(m)(a, 1) * v(idx[1])
  {
    TwoTerms(OperatedTerms(Entries2(m), idx, a, v));
  }

  lemma {:induction false} FourOperated(m: Mat4, idx: seq<nat>, a: int, v: Vector)
    requires |idx| == 4
    ensures Sum(OperatedTerms(Entries4(m), idx, a, v), 4) == Dot4(RowAt(m, a), Vec4(v(idx[0]), v(idx[1]), v(idx[2]), v(idx[3])))
  {
    var f, u := OperatedTerms(Entries4(m), idx, a, v), Vec4(v(idx[0]), v(idx[1]), v(idx[2]), v(idx[3]));
    var r := RowAt(m, a);
    FourTerms(f);
    assert Entries4(m)(a, 0) == r.x0 && Entries4(m)(a, 1) == r.x1 && Entries4(m)(a, 2) == r.p0 && Entries4(m)(a, 3) == r.p1;
    SameFactor(Entries4(m)(a, 0), r.x0, u.x0);
    SameFactor(Entries4(m)(a, 1), r.x1, u.x1);
    SameFactor(Entries4(m)(a, 2), r.p0, u.p0);
    SameFactor(Entries4(m)(a, 3), r.p1, u.p1);
    assert f(0) == Entries4(m)(a, 0) * v(idx[0]) && f(1) == Entries4(m)(a, 1) * v(idx[1]);
    assert f(2) == Entries4(m)(a, 2) * v(idx[2]) && f(3) == Entries4(m)(a, 3) * v(idx[3]);
    hide Entries4, RowAt, OperatedTerms, Sum;
  }

  lemma {:induction false} Component(m: Mat2, q: Quad, x: real, p: real)
    requires x == q.x && p == q.p
    ensures m.a * x + m.b * p == Act2(m, q).x && m.c * x + m.d * p == Act2(m, q).p
  {
    SameFactor(x, q.x, m.a);
    SameFactor(p, q.p, m.b);
    SameFactor(x, q.x, m.c);
    SameFactor(p, q.p, m.d);
  }

  lemma {:induction false} Rows2(m: Mat2, x: real, p: real)
    ensures Entries2(m)(0, 0) * x + Entries2(m)(0, 1) * p == m.a * x + m.b * p
    ensures Entries2(m)(1, 0) * x + Entries2(m)(1, 1) * p == m.c * x + m.d * p
  {
  }

  /** A variable after a one-mode gate. */
  lemma {:induction false} UnaryEntry(m: Mat2, mode: nat, n: nat, re: Vector, modes: seq<Quad>, i: nat)
    requires At(re, n, modes) && mode < n && i < 2 * n
    ensures Row(Embed(Entries2(m), [mode, mode + n]), re, 2 * n, i)
            == if i == mode then Act2(m, modes[mode]).x else if i == mode + n then Act2(m, modes[mode]).p else re(i)
  {
    var idx := [mode, mode + n];
    assert idx[0] == mode && idx[1] == mode + n;
    UpdatedMean(Entries2(m), idx, re, 2 * n, i);
    Component(m, modes[mode], re(mode), re(mode + n));
    hide Row, Embed, OperatedTerms, Sum, Act2;
    if i in idx {
      var a := if i == mode then 0 else 1;
      PositionAt(idx, a);
      TwoOperated(m, idx, a, re);
      Rows2(m, re(mode), re(mode + n));
    }
    hide Entries2;
  }

  lemma {:induction false} UnaryMeans(m: Mat2, mode: nat, n: nat, re: Vector, modes: seq<Quad>)
    requires At(re, n, modes) && mode < n
    ensures At(Congruence.Image(Embed(Entries2(m), [mode, mode + n]), re, 2 * n), n, modes[mode := Act2(m, modes[mode])])
  {
    var image := Congruence.Image(Embed(Entries2(m), [mode, mode + n]), re, 2 * n);
    forall i: nat | i < 2 * n
      ensures image(i) == if i == mode then Act2(m, modes[mode]).x else if i == mode + n then Act2(m, modes[mode]).p else re(i)
    {
      UnaryEntry(m, mode, n, re, modes, i);
    }
    hide Act2, Congruence.Image;
  }

  /** A variable after a two-mode gate. */
  lemma {:induction false} BinaryEntry(m: Mat4, k: nat, l: nat, n: nat, re: Vector, modes: seq<Quad>, i: nat)
    requires At(re, n, modes) && k < n && l < n && k != l && i < 2 * n
    ensures var ab := Act4(m, modes[k], modes[l]);
      Row(Embed(Entries4(m), [k, l, k + n, l + n]), re, 2 * n, i)
      == if i == k then ab.0.x else if i == l then ab.1.x else if i == k + n then ab.0.p else if i == l + n then ab.1.p else re(i)
  {
    var idx := [k, l, k + n, l + n];
    assert idx[0] == k && idx[1] == l && idx[2] == k + n && idx[3] == l + n;
    UpdatedMean(Entries4(m), idx, re, 2 * n, i);
    hide Row, Embed, OperatedTerms, Sum, Dot4;
    if i in idx {
      var a := if i == k then 0 else if i == l then 1 else if i == k + n then 2 else 3;
      PositionAt(idx, a);
      FourOperated(m, idx, a, re);
    }
  }

  lemma {:induction false} BinaryMeans(m: Mat4, k: nat, l: nat, n: nat, re: Vector, modes: seq<Quad>)
    requires At(re, n, modes) && k < n && l < n && k != l
    ensures var ab := Act4(m, modes[k], modes[l]);
      At(Congruence.Image(Embed(Entries4(m), [k, l, k + n, l + n]), re, 2 * n), n, modes[k := ab.0][l := ab.1])
  {
    var ab, image := Act4(m, modes[k], modes[l]), Congruence.Image(Embed(Entries4(m), [k, l, k + n, l + n]), re, 2 * n);
    forall i: nat | i < 2 * n
      ensures image(i) == if i == k then ab.0.x else if i == l then ab.1.x else if i == k + n then ab.0.p else if i == l + n then ab.1.p else re(i)
    {
      BinaryEntry(m, k, l, n, re, modes, i);
    }
    hide Act4, Congruence.Image;
  }

  /** The operation multiplies the means of g by s. */
  ghost predicate MovesBy(f: Functions, pow10: real -> real, kind: Kind, modes: seq<nat>, params: seq<real>, g: Peak, s: Matrix) {
    Operate(f, pow10, kind, modes, params, g).re == Congruence.Image(s, g.re, 2 * g.n)
  }

  /** The operation moves the points of the modes to `next`. */
  ghost predicate MovesTo(f: Functions, kind: Kind, modes: seq<nat>, params: seq<real>, pt: Point, next: seq<Quad>) {
    ApplyGate(f, kind, modes, params, pt).modes == next
  }

  /** Every gate multiplies the means by its matrix, embedded. */
  lemma {:induction false} GateMovesBy(f: Functions, pow10: real -> real, kind: Kind, modes: seq<nat>, params: seq<real>, g: Peak)
    requires IsMatrixGate(kind) && Applicable(kind, modes, params, g.n)
    ensures MovesBy(f, pow10, kind, modes, params, g, Embed(GateMatrix(f, kind, params), Indices(kind, modes, g.n)))
  {
    hide GateMatrix, Indices, Embed, Congruence.Image, Congruence.Transformed, Displaced, Renewed;
  }

  lemma {:induction false} UnaryParts(f: Functions, kind: Kind, modes: seq<nat>, params: seq<real>, n: nat, m: Mat2)
    requires IsUnaryGate(kind) && Applicable(kind, modes, params, n) && m == UnaryMatrix(f, kind, params)
    ensures GateMatrix(f, kind, params) == Entries2(m) && Indices(kind, modes, n) == [modes[0], modes[0] + n]
  {
    hide UnaryMatrix, BinaryMatrix, Entries2, Entries4;
  }

  lemma {:induction false} BinaryParts(f: Functions, kind: Kind, modes: seq<nat>, params: seq<real>, n: nat, m: Mat4)
    requires IsBinaryGate(kind) && Applicable(kind, modes, params, n) && m == BinaryMatrix(f, kind, params)
    ensures GateMatrix(f, kind, params) == Entries4(m) && Indices(kind, modes, n) == [modes[0], modes[1], modes[0] + n, modes[1] + n]
  {
    hide UnaryMatrix, BinaryMatrix, Entries2, Entries4;
  }

  /** The means after the operation are the point after it. */
  ghost predicate Follows(f: Functions, pow10: real -> real, kind: Kind, modes: seq<nat>, params: seq<real>, g: Peak, pt: Point) {
    At(Operate(f, pow10, kind, modes, params, g).re, g.n, ApplyGate(f, kind, modes, params, pt).modes)
  }

  lemma {:induction false} MovesTogether(
    f: Functions, pow10: real -> real, kind: Kind, modes: seq<nat>, params: seq<real>, g: Peak, pt: Point, s: Matrix, next: seq<Quad>)
    requires MovesBy(f, pow10, kind, modes, params, g, s) && MovesTo(f, kind, modes, params, pt, next)
    requires At(Congruence.Image(s, g.re, 2 * g.n), g.n, next)
    ensures Follows(f, pow10, kind, modes, params, g, pt)
  {
    hide Operate, ApplyGate, Congruence.Image, At;
  }

  lemma {:induction false} MovesToIs(f: Functions, kind: Kind, modes: seq<nat>, params: seq<real>, pt: Point, next: seq<Quad>)
    requires ApplyGate(f, kind, modes, params, pt) == pt.(modes := next)
    ensures MovesTo(f, kind, modes, params, pt, next)
  {
    hide ApplyGate;
  }

  lemma {:induction false} UnaryCase(
    f: Functions, pow10: real -> real, kind: Kind, modes: seq<nat>, params: seq<real>, g: Peak, pt: Point, mode: nat, m: Mat2)
    requires At(g.re, g.n, pt.modes) && |pt.modes| == g.n && modes == [mode] && mode < g.n
    requires IsUnaryGate(kind) && IsMatrixGate(kind) && Applicable(kind, modes, params, g.n) && m == UnaryMatrix(f, kind, params)
    ensures Follows(f, pow10, kind, modes, params, g, pt)
  {
    hide *;
    GateMovesBy(f, pow10, kind, modes, params, g);
    UnaryParts(f, kind, modes, params, g.n, m);
    GateSequences.UnaryApplies(f, kind, modes, params, pt);
    MovesToIs(f, kind, modes, params, pt, pt.modes[mode := Act2(m, pt.modes[mode])]);
    UnaryMeans(m, mode, g.n, g.re, pt.modes);
    MovesTogether(f, pow10, kind, modes, params, g, pt, Embed(Entries2(m), [mode, mode + g.n]), pt.modes[mode := Act2(m, pt.modes[mode])]);
  }

  lemma {:induction false} BinaryCase(
    f: Functions, pow10: real -> real, kind: Kind, modes: seq<nat>, params: seq<real>, g: Peak, pt: Point, k: nat, l: nat, m: Mat4)
    requires At(g.re, g.n, pt.modes) && |pt.modes| == g.n && modes == [k, l] && k < g.n && l < g.n && k != l
    requires IsBinaryGate(kind) && IsMatrixGate(kind) && Applicable(kind, modes, params, g.n) && m == BinaryMatrix(f, kind, params)
    ensures Follows(f, pow10, kind, modes, params, g, pt)
  {
    hide *;
    var ab := Act4(m, pt.modes[k], pt.modes[l]);
    GateMovesBy(f, pow10, kind, modes, params, g);
    BinaryParts(f, kind, modes, params, g.n, m);
    GateSequences.BinaryApplies(f, kind, modes, params, pt);
    MovesToIs(f, kind, modes, params, pt, pt.modes[k := ab.0][l := ab.1]);
    BinaryMeans(m, k, l, g.n, g.re, pt.modes);
    MovesTogether(f, pow10, kind, modes, params, g, pt, Embed(Entries4(m), [k, l, k + g.n, l + g.n]), pt.modes[k := ab.0][l := ab.1]);
  }

  lemma {:induction false} DisplacementCase(f: Functions, pow10: real -> real, modes: seq<nat>, params: seq<real>, g: Peak, pt: Point)
    requires At(g.re, g.n, pt.modes) && Applicable(Displacement, modes, params, g.n)
    ensures Follows(f, pow10, Displacement, modes, params, g, pt)
  {
  }

  lemma {:induction false} ReplacementCase(f: Functions, pow10: real -> real, modes: seq<nat>, params: seq<real>, g: Peak, pt: Point)
    requires Represents(g, pt) && pt.supply == [] && Applicable(ReplaceBySqueezedState, modes, params, g.n)
    ensures Follows(f, pow10, ReplaceBySqueezedState, modes, params, g, pt)
  {
    hide Renewed, Resource;
    ReplacedMeans(f, pow10, modes[0], params, g, pt);
  }

  lemma {:induction false} FollowsMeans(f: Functions, pow10: real -> real, kind: Kind, modes: seq<nat>, params: seq<real>, g: Peak, pt: Point)
    requires Follows(f, pow10, kind, modes, params, g, pt)
    ensures Represents(Operate(f, pow10, kind, modes, params, g), ApplyGate(f, kind, modes, params, pt))
  {
    hide Operate, ApplyGate, At;
  }

  lemma {:induction false} ApplicableModes(kind: Kind, modes: seq<nat>, params: seq<real>, n: nat)
    requires Applicable(kind, modes, params, n)
    ensures ArityOk(kind, |params|)
    ensures IsBinaryGate(kind) ==> |modes| == 2 && modes == [modes[0], modes[1]] && modes[0] < n && modes[1] < n && modes[0] != modes[1]
    ensures !IsBinaryGate(kind) ==> |modes| == 1 && modes == [modes[0]] && modes[0] < n
  {
  }

  /** Every gate, displacement and replacement moves the means of a peak as it moves a point, if the
      replaced state is ideal. */
  lemma {:induction false} MeansMoveAsPoints(
    f: Functions, pow10: real -> real, kind: Kind, modes: seq<nat>, params: seq<real>, g: Peak, pt: Point)
    requires Represents(g, pt) && pt.supply == [] && !IsMeasurement(kind)
    ensures Represents(Operate(f, pow10, kind, modes, params, g), ApplyGate(f, kind, modes, params, pt))
  {
    assert |pt.modes| == g.n && At(g.re, g.n, pt.modes);
    assert IsUnaryGate(kind) || IsBinaryGate(kind) || kind == Displacement || kind == ReplaceBySqueezedState;
    assert IsUnaryGate(kind) ==> !IsBinaryGate(kind);
    assert IsUnaryGate(kind) || IsBinaryGate(kind) ==> IsMatrixGate(kind);
    hide *;
    if !Applicable(kind, modes, params, g.n) {
      GateSequences.NotApplicable(f, kind, modes, params, pt);
      Unmoved(f, pow10, kind, modes, params, g);
    } else {
      ApplicableModes(kind, modes, params, g.n);
      if kind == Displacement {
        DisplacementCase(f, pow10, modes, params, g, pt);
      } else if IsUnaryGate(kind) {
        UnaryCase(f, pow10, kind, modes, params, g, pt, modes[0], UnaryMatrix(f, kind, params));
      } else if IsBinaryGate(kind) {
        BinaryCase(f, pow10, kind, modes, params, g, pt, modes[0], modes[1], BinaryMatrix(f, kind, params));
      } else {
        ReplacementCase(f, pow10, modes, params, g, pt);
      }
      FollowsMeans(f, pow10, kind, modes, params, g, pt);
    }
  }

  lemma {:induction false} Unmoved(f: Functions, pow10: real -> real, kind: Kind, modes: seq<nat>, params: seq<real>, g: Peak)
    requires !Applicable(kind, modes, params, g.n)
    ensures Operate(f, pow10, kind, modes, params, g) == g
  {
  }

  lemma {:induction false} ReplacedMeans(f: Functions, pow10: real -> real, mode: nat, params: seq<real>, g: Peak, pt: Point)
    requires Represents(g, pt) && pt.supply == [] && mode < g.n && |params| == 2
    ensures Represents(Renewed(f, pow10(params[0] * 0.1), params[1], mode, g), pt.(modes := pt.modes[mode := Resource(f, params[1], Next(pt.supply))]))
  {
    var c, s := f.cos(params[1]), f.sin(params[1]);
    assert c * 0.0 + -s * 0.0 == 0.0 && s * 0.0 + c * 0.0 == 0.0;
    assert Resource(f, params[1], Next([])) == Quad(0.0, 0.0);
  }

  /** A measurement that finds the mean leaves the other means alone, as reading a point does. */
  lemma {:induction false} MeasuredMeans(mode: nat, coeff: Complex, g: Peak, pt: Point)
    requires Represents(g, pt) && mode < g.n
    ensures Represents(Observed(mode, pt.modes[mode].x, coeff, g), Cleared(mode, pt))
  {
    forall i | 0 <= i < 2 * g.n {
      Conditioning.NoFraction(g.cov(i, mode), g.cov(mode, mode));
    }
    hide Conditioning.Conditional, Conditioning.Fraction;
  }
}
