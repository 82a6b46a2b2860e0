/** One macronode of a machinery circuit, executed on a phase-space point. */
module MachineryPoints {
  import opened Elementary
  import opened Operations
  import opened Points
  import opened Teleportation

  // ----- a few modes of a point -----

  ghost predicate Distinct(ms: seq<nat>) {
    forall i, j | 0 <= i < j < |ms| :: ms[i] != ms[j]
  }

  ghost predicate Fits(pt: Point, ms: seq<nat>) {
    (forall i | 0 <= i < |ms| :: ms[i] < |pt.modes|) && Distinct(ms)
  }

  /** The modes with indices ms. */
  function View(pt: Point, ms: seq<nat>): (v: seq<Quad>)
    requires Fits(pt, ms)
    ensures |v| == |ms| && forall i | 0 <= i < |ms| :: v[i] == pt.modes[ms[i]]
  {
    seq(|ms|, i requires 0 <= i < |ms| => pt.modes[ms[i]])
  }

  /** Same supply, and the same modes outside ms. */
  ghost predicate SameOutside(a: Point, b: Point, ms: seq<nat>) {
    && a.supply == b.supply && |a.modes| == |b.modes|
    && forall m: nat | m < |a.modes| && m !in ms :: a.modes[m] == b.modes[m]
  }

  /** From a to b the viewed modes become v and nothing else changes. */
  ghost predicate Becomes(a: Point, b: Point, ms: seq<nat>, v: seq<Quad>) {
    Fits(a, ms) && Fits(b, ms) && SameOutside(a, b, ms) && View(b, ms) == v
  }

  // ----- the operations of a macronode -----

  /** The operation acts as the given kind with the given parameters. */
  predicate Acts(op: Op, kind: Kind, modes: seq<nat>, params: seq<real>) {
    op.kind == kind && op.modes == modes && (if IsMeasurement(kind) then op.params else op.Effective()) == params
  }

  lemma {:induction false} SetOne(a: Point, b: Point, c: Point, ms: seq<nat>, v: seq<Quad>, i: nat, q: Quad)
    requires Becomes(a, b, ms, v) && i < |ms| && c == b.(modes := b.modes[ms[i] := q])
    ensures Becomes(a, c, ms, v[i := q])
  {
    assert View(c, ms) == v[i := q];
  }

  lemma {:induction false} Displaces(f: Functions, op: Op, a: Point, b: Point, ms: seq<nat>, v: seq<Quad>, i: nat, q: Quad)
    requires Becomes(a, b, ms, v) && i < |ms| && Acts(op, Displacement, [ms[i]], [q.x, q.p])
    ensures Becomes(a, OnPoint(f, op, b), ms, v[i := Plus(v[i], q)])
  {
    SetOne(a, b, OnPoint(f, op, b), ms, v, i, Plus(v[i], q));
  }

  lemma {:induction false} Beam50(f: Functions, a: Quad, b: Quad)
    ensures Act4(BeamSplitter50Matrix(f), a, b) == Beam(f, a, b)
  {
    var r, ax, ap, bx, bp := f.invSqrt2, a.x, a.p, b.x, b.p;
    var (u, v) := Act4(BeamSplitter50Matrix(f), a, b);
    assert u.x == r * (ax - bx) && u.p == r * (ap - bp) && v.x == r * (ax + bx) && v.p == r * (ap + bp);
    assert Beam(f, a, b).0 == u && Beam(f, a, b).1 == v;
  }

  lemma {:induction false} Splits(f: Functions, op: Op, a: Point, b: Point, ms: seq<nat>, v: seq<Quad>, i: nat, j: nat)
    requires Becomes(a, b, ms, v) && i < |ms| && j < |ms| && i != j && Acts(op, BeamSplitter50, [ms[i], ms[j]], [])
    ensures Becomes(a, OnPoint(f, op, b), ms, v[i := Beam(f, v[i], v[j]).0][j := Beam(f, v[i], v[j]).1])
  {
    hide Beam, BeamSplitter50Matrix, Act4;
    Beam50(f, v[i], v[j]);
    var (x, y) := Beam(f, v[i], v[j]);
    var c := b.(modes := b.modes[ms[i] := x]);
    SetOne(a, b, c, ms, v, i, x);
    SetOne(a, c, c.(modes := c.modes[ms[j] := y]), ms, v[i := x], j, y);
    SplitsPoint(f, op, b, ms[i], ms[j], x, y);
  }

  lemma {:induction false} SplitsPoint(f: Functions, op: Op, b: Point, m: nat, l: nat, x: Quad, y: Quad)
    requires m < |b.modes| && l < |b.modes| && m != l && Acts(op, BeamSplitter50, [m, l], [])
    requires (x, y) == Act4(BeamSplitter50Matrix(f), b.modes[m], b.modes[l])
    ensures OnPoint(f, op, b) == b.(modes := b.modes[m := x][l := y])
  {
    hide BeamSplitter50Matrix, Act4;
  }

  /** A measurement at angle theta reads a quadrature and leaves the mode at the origin. */
  lemma {:induction false} Measures(f: Functions, op: Op, a: Point, b: Point, ms: seq<nat>, v: seq<Quad>, i: nat, theta: real)
    requires f.Lawful() && Becomes(a, b, ms, v) && i < |ms| && Acts(op, HomodyneSingleMode, [ms[i]], [theta])
    ensures i < |v| && Reading(f, op, b) == Quadrature(f, theta, v[i])
    ensures Becomes(a, OnPoint(f, op, b), ms, v[i := Quad(0.0, 0.0)])
  {
    MeasuresPoint(f, op, b, ms[i], theta);
    hide *;
    SetOne(a, b, OnPoint(f, op, b), ms, v, i, Quad(0.0, 0.0)) by { ViewAt(a, b, ms, v, i); }
    ViewAt(a, b, ms, v, i);
  }

  lemma {:induction false} ViewAt(a: Point, b: Point, ms: seq<nat>, v: seq<Quad>, i: nat)
    requires Becomes(a, b, ms, v) && i < |ms|
    ensures i < |v| && ms[i] < |b.modes| && v[i] == b.modes[ms[i]]
  {
  }

  /** The position after the rotation is the theta quadrature before it. */
  lemma {:induction false} ReadsQuadrature(f: Functions, theta: real, q: Quad)
    requires f.Lawful()
    ensures Act2(Rotation(f, theta - f.halfPi), q).x == Quadrature(f, theta, q)
  {
    hide Functions.Lawful;
    f.QuarterTurnBack(theta);
  }

  lemma {:induction false} MeasuresPoint(f: Functions, op: Op, b: Point, m: nat, theta: real)
    requires f.Lawful() && m < |b.modes| && Acts(op, HomodyneSingleMode, [m], [theta])
    ensures Reading(f, op, b) == Quadrature(f, theta, b.modes[m])
    ensures OnPoint(f, op, b) == b.(modes := b.modes[m := Quad(0.0, 0.0)])
  {
    hide Functions.Lawful, Quadrature;
    var phi := theta - f.halfPi;
    ReadsQuadrature(f, theta, b.modes[m]);
    hide Act2;
    var r := b.(modes := b.modes[m := Act2(Rotation(f, phi), b.modes[m])]);
    assert BeforeReading(f, op, b) == r;
    assert OnPoint(f, op, b).modes == b.modes[m := Quad(0.0, 0.0)];
  }

  // ----- a whole macronode -----

  /** What a macronode acts with when it is executed: its angles, the displacements of its inputs and
      the displacements that correct its outputs. */
  datatype MacronodeData = MacronodeData(t: MacronodeAngle, d1: Quad, dn: Quad, l1: Quad, ln: Quad)

  /** The operations of a macronode whose micronodes b, d, c, a of k, b of k + 1 and d of k + N are ms. */
  ghost predicate IsBlock(f: Functions, ops: seq<Op>, base: nat, ms: seq<nat>, level: real, data: MacronodeData) {
    && |ms| == 6 && base + 18 <= |ops|
    && Acts(ops[base], Displacement, [ms[0]], [data.d1.x, data.d1.p])
    && Acts(ops[base + 1], Displacement, [ms[1]], [data.dn.x, data.dn.p])
    && Acts(ops[base + 2], BeamSplitter50, [ms[0], ms[1]], [])
    && Acts(ops[base + 3], BeamSplitter50, [ms[3], ms[4]], [])
    && Acts(ops[base + 4], BeamSplitter50, [ms[2], ms[5]], [])
    && Acts(ops[base + 5], BeamSplitter50, [ms[0], ms[3]], [])
    && Acts(ops[base + 6], BeamSplitter50, [ms[1], ms[2]], [])
    && Acts(ops[base + 7], HomodyneSingleMode, [ms[3]], [data.t.a])
    && Acts(ops[base + 8], HomodyneSingleMode, [ms[0]], [data.t.b])
    && Acts(ops[base + 9], HomodyneSingleMode, [ms[2]], [data.t.c])
    && Acts(ops[base + 10], HomodyneSingleMode, [ms[1]], [data.t.d])
    && Acts(ops[base + 11], BeamSplitter50, [ms[5], ms[4]], [])
    && Acts(ops[base + 12], Displacement, [ms[4]], [data.l1.x, data.l1.p])
    && Acts(ops[base + 13], Displacement, [ms[5]], [data.ln.x, data.ln.p])
    && Acts(ops[base + 14], ReplaceBySqueezedState, [ms[0]], [level, f.halfPi])
    && Acts(ops[base + 15], ReplaceBySqueezedState, [ms[1]], [level, f.halfPi])
    && Acts(ops[base + 16], ReplaceBySqueezedState, [ms[2]], [level, 0.0])
    && Acts(ops[base + 17], ReplaceBySqueezedState, [ms[3]], [level, 0.0])
  }

  lemma {:induction false} PointStep(f: Functions, ops: seq<Op>, pt: Point, i: nat)
    requires i < |ops|
    ensures PointAt(f, ops, pt, i + 1) == OnPoint(f, ops[i], PointAt(f, ops, pt, i))
  {
  }

  lemma {:induction false} EntanglesFirst(f: Functions, ops: seq<Op>, pt: Point, base: nat, ms: seq<nat>, level: real, data: MacronodeData, v: seq<Quad>)
    requires IsBlock(f, ops, base, ms, level, data) && |v| == 6
    requires Becomes(PointAt(f, ops, pt, base), PointAt(f, ops, pt, base), ms, v)
    ensures var (vb, vd) := Beam(f, Plus(v[0], data.d1), Plus(v[1], data.dn));
      Becomes(PointAt(f, ops, pt, base), PointAt(f, ops, pt, base + 3), ms, [vb, vd, v[2], v[3], v[4], v[5]])
  {
    hide PointAt, OnPoint, Becomes, Acts, Beam, Plus;
    var a := PointAt(f, ops, pt, base);
    var b, d := Plus(v[0], data.d1), Plus(v[1], data.dn);
    var (vb, vd) := Beam(f, b, d);
    PointStep(f, ops, pt, base);
    Displaces(f, ops[base], a, a, ms, v, 0, data.d1);
    PointStep(f, ops, pt, base + 1);
    Displaces(f, ops[base + 1], a, PointAt(f, ops, pt, base + 1), ms, v[0 := b], 1, data.dn);
    PointStep(f, ops, pt, base + 2);
    Splits(f, ops[base + 2], a, PointAt(f, ops, pt, base + 2), ms, v[0 := b][1 := d], 0, 1);
    assert v[0 := b][1 := d][0 := vb][1 := vd] == [vb, vd, v[2], v[3], v[4], v[5]];
  }

  lemma {:induction false} EntanglesSecond(f: Functions, ops: seq<Op>, pt: Point, base: nat, ms: seq<nat>, level: real, data: MacronodeData, a: Point, v: seq<Quad>)
    requires IsBlock(f, ops, base, ms, level, data) && |v| == 6
    requires Becomes(a, PointAt(f, ops, pt, base + 3), ms, v)
    ensures var (va, vb1) := Beam(f, v[3], v[4]);
      var (vc, vd1) := Beam(f, v[2], v[5]);
      var (wb, wa) := Beam(f, v[0], va);
      var (wd, wc) := Beam(f, v[1], vc);
      Becomes(a, PointAt(f, ops, pt, base + 7), ms, [wb, wd, wc, wa, vb1, vd1])
  {
    hide PointAt, OnPoint, Becomes, Acts, Beam;
    var (va, vb1) := Beam(f, v[3], v[4]);
    var (vc, vd1) := Beam(f, v[2], v[5]);
    var (wb, wa) := Beam(f, v[0], va);
    var (wd, wc) := Beam(f, v[1], vc);
    PointStep(f, ops, pt, base + 3);
    Splits(f, ops[base + 3], a, PointAt(f, ops, pt, base + 3), ms, v, 3, 4);
    var v1 := v[3 := va][4 := vb1];
    PointStep(f, ops, pt, base + 4);
    Splits(f, ops[base + 4], a, PointAt(f, ops, pt, base + 4), ms, v1, 2, 5);
    var v2 := v1[2 := vc][5 := vd1];
    PointStep(f, ops, pt, base + 5);
    Splits(f, ops[base + 5], a, PointAt(f, ops, pt, base + 5), ms, v2, 0, 3);
    var v3 := v2[0 := wb][3 := wa];
    PointStep(f, ops, pt, base + 6);
    Splits(f, ops[base + 6], a, PointAt(f, ops, pt, base + 6), ms, v3, 1, 2);
    assert v3[1 := wd][2 := wc] == [wb, wd, wc, wa, vb1, vd1];
  }

  /** The four values read, and the view after the measurements. */
  lemma {:induction false} MeasuresFour(f: Functions, ops: seq<Op>, pt: Point, base: nat, ms: seq<nat>, level: real, data: MacronodeData, a: Point, v: seq<Quad>)
    requires f.Lawful() && IsBlock(f, ops, base, ms, level, data) && |v| == 6
    requires Becomes(a, PointAt(f, ops, pt, base + 7), ms, v)
    ensures Reading(f, ops[base + 7], PointAt(f, ops, pt, base + 7)) == Quadrature(f, data.t.a, v[3])
    ensures Reading(f, ops[base + 8], PointAt(f, ops, pt, base + 8)) == Quadrature(f, data.t.b, v[0])
    ensures Reading(f, ops[base + 9], PointAt(f, ops, pt, base + 9)) == Quadrature(f, data.t.c, v[2])
    ensures Reading(f, ops[base + 10], PointAt(f, ops, pt, base + 10)) == Quadrature(f, data.t.d, v[1])
    ensures var o := Quad(0.0, 0.0);
      Becomes(a, PointAt(f, ops, pt, base + 11), ms, [o, o, o, o, v[4], v[5]])
  {
    hide PointAt, OnPoint, Becomes, Acts, Functions.Lawful, Reading, Quadrature;
    var o := Quad(0.0, 0.0);
    PointStep(f, ops, pt, base + 7);
    Measures(f, ops[base + 7], a, PointAt(f, ops, pt, base + 7), ms, v, 3, data.t.a);
    PointStep(f, ops, pt, base + 8);
    Measures(f, ops[base + 8], a, PointAt(f, ops, pt, base + 8), ms, v[3 := o], 0, data.t.b);
    PointStep(f, ops, pt, base + 9);
    Measures(f, ops[base + 9], a, PointAt(f, ops, pt, base + 9), ms, v[3 := o][0 := o], 2, data.t.c);
    PointStep(f, ops, pt, base + 10);
    Measures(f, ops[base + 10], a, PointAt(f, ops, pt, base + 10), ms, v[3 := o][0 := o][2 := o], 1, data.t.d);
    assert v[3 := o][0 := o][2 := o][1 := o] == [o, o, o, o, v[4], v[5]];
  }

  lemma {:induction false} Finishes(f: Functions, ops: seq<Op>, pt: Point, base: nat, ms: seq<nat>, level: real, data: MacronodeData, a: Point, v: seq<Quad>)
    requires IsBlock(f, ops, base, ms, level, data) && |v| == 6
    requires Becomes(a, PointAt(f, ops, pt, base + 11), ms, v)
    ensures var (wd1, wb1) := Beam(f, v[5], v[4]);
      Becomes(a, PointAt(f, ops, pt, base + 14), ms, [v[0], v[1], v[2], v[3], Plus(wb1, data.l1), Plus(wd1, data.ln)])
  {
    hide PointAt, OnPoint, Becomes, Acts, Beam, Plus;
    var (wd1, wb1) := Beam(f, v[5], v[4]);
    PointStep(f, ops, pt, base + 11);
    Splits(f, ops[base + 11], a, PointAt(f, ops, pt, base + 11), ms, v, 5, 4);
    var v1 := v[5 := wd1][4 := wb1];
    PointStep(f, ops, pt, base + 12);
    Displaces(f, ops[base + 12], a, PointAt(f, ops, pt, base + 12), ms, v1, 4, data.l1);
    PointStep(f, ops, pt, base + 13);
    Displaces(f, ops[base + 13], a, PointAt(f, ops, pt, base + 13), ms, v1[4 := Plus(wb1, data.l1)], 5, data.ln);
    assert v1[4 := Plus(wb1, data.l1)][5 := Plus(wd1, data.ln)] == [v[0], v[1], v[2], v[3], Plus(wb1, data.l1), Plus(wd1, data.ln)];
  }

  /** Up to the replacements, the operations of a macronode do to the six modes what `Macronode` says,
      read the values it says, and touch no other mode. */
  lemma {:induction false} BlockIsMacronode(f: Functions, ops: seq<Op>, pt: Point, base: nat, ms: seq<nat>, level: real, data: MacronodeData)
    requires f.Lawful() && IsBlock(f, ops, base, ms, level, data) && Fits(PointAt(f, ops, pt, base), ms)
    ensures var v, o := View(PointAt(f, ops, pt, base), ms), Quad(0.0, 0.0);
      var (m, wb1, wd1) := Macronode(f, data.t, Plus(v[0], data.d1), Plus(v[1], data.dn), v[2], v[3], v[4], v[5]);
      && m == Measured(Reading(f, ops[base + 7], PointAt(f, ops, pt, base + 7)), Reading(f, ops[base + 8], PointAt(f, ops, pt, base + 8)),
                       Reading(f, ops[base + 9], PointAt(f, ops, pt, base + 9)), Reading(f, ops[base + 10], PointAt(f, ops, pt, base + 10)))
      && Becomes(PointAt(f, ops, pt, base), PointAt(f, ops, pt, base + 14), ms, [o, o, o, o, Plus(wb1, data.l1), Plus(wd1, data.ln)])
  {
    hide PointAt, Acts, Beam, Plus, Functions.Lawful, Reading, Quadrature, Becomes;
    var a := PointAt(f, ops, pt, base);
    var v := View(a, ms);
    Unchanged(a, ms);
    EntanglesFirst(f, ops, pt, base, ms, level, data, v);
    var (vb, vd) := Beam(f, Plus(v[0], data.d1), Plus(v[1], data.dn));
    var v1 := [vb, vd, v[2], v[3], v[4], v[5]];
    EntanglesSecond(f, ops, pt, base, ms, level, data, a, v1);
    var (va, vb1) := Beam(f, v[3], v[4]);
    var (vc, vd1) := Beam(f, v[2], v[5]);
    var (wb, wa) := Beam(f, vb, va);
    var (wd, wc) := Beam(f, vd, vc);
    var v2, o := [wb, wd, wc, wa, vb1, vd1], Quad(0.0, 0.0);
    MeasuresFour(f, ops, pt, base, ms, level, data, a, v2);
    Finishes(f, ops, pt, base, ms, level, data, a, [o, o, o, o, vb1, vd1]);
  }

  lemma {:induction false} Unchanged(a: Point, ms: seq<nat>)
    requires Fits(a, ms)
    ensures Becomes(a, a, ms, View(a, ms))
  {
  }

  // ----- the replacements -----

  /** Every state still to be brought in is perfectly squeezed. */
  ghost predicate IdealSupply(supply: seq<Quad>) {
    forall i | 0 <= i < |supply| :: supply[i].x == 0.0
  }

  /** Same modes outside ms, same number of modes, and a supply that is still ideal. */
  ghost predicate ReplacedWithin(a: Point, b: Point, ms: set<nat>) {
    && |a.modes| == |b.modes| && IdealSupply(b.supply)
    && forall m: nat | m < |a.modes| && m !in ms :: a.modes[m] == b.modes[m]
  }

  lemma {:induction false} ReplacesOne(f: Functions, op: Op, b: Point, m: nat, level: real, phi: real)
    requires f.Lawful() && m < |b.modes| && IdealSupply(b.supply) && Acts(op, ReplaceBySqueezedState, [m], [level, phi])
    ensures ReplacedWithin(b, OnPoint(f, op, b), {m})
    ensures phi == 0.0 ==> OnPoint(f, op, b).modes[m].x == 0.0
    ensures phi == f.halfPi ==> OnPoint(f, op, b).modes[m].p == 0.0
  {
    hide OnPoint, Resource, Functions.Lawful;
    assert Next(b.supply).x == 0.0 && IdealSupply(Rest(b.supply));
    ReplacePoint(f, op, b, m, level, phi);
    ResourceAtZero(f, Next(b.supply));
  }

  lemma {:induction false} ReplacePoint(f: Functions, op: Op, b: Point, m: nat, level: real, phi: real)
    requires m < |b.modes| && Acts(op, ReplaceBySqueezedState, [m], [level, phi])
    ensures OnPoint(f, op, b) == Point(b.modes[m := Resource(f, phi, Next(b.supply))], Rest(b.supply))
  {
    hide Resource, Next, Rest;
  }

  lemma {:induction false} ResourceAtZero(f: Functions, q: Quad)
    requires f.Lawful() && q.x == 0.0
    ensures Resource(f, 0.0, q).x == 0.0 && Resource(f, f.halfPi, q).p == 0.0
  {
    f.Zero();
    assert f.sin(f.halfPi) == 1.0 && f.cos(f.halfPi) == 0.0;
    hide Functions.Lawful;
  }

  lemma {:induction false} ReplacedTwice(a: Point, b: Point, c: Point, ms: set<nat>, m: nat)
    requires ReplacedWithin(a, b, ms) && ReplacedWithin(b, c, {m})
    ensures ReplacedWithin(a, c, ms + {m})
  {
    forall l: nat | l < |a.modes| && l !in ms + {m} ensures a.modes[l] == c.modes[l] {
      assert l !in ms && l !in {m};
    }
  }

  /** From b to c the first four of the modes ms come back as fresh resource states: p of the first two
      and x of the others are exactly zero.  Nothing else changes. */
  ghost predicate BringsIn(b: Point, c: Point, ms: seq<nat>) {
    && |ms| == 6 && ReplacedWithin(b, c, {ms[0], ms[1], ms[2], ms[3]})
    && ms[0] < |c.modes| && c.modes[ms[0]].p == 0.0 && ms[1] < |c.modes| && c.modes[ms[1]].p == 0.0
    && ms[2] < |c.modes| && c.modes[ms[2]].x == 0.0 && ms[3] < |c.modes| && c.modes[ms[3]].x == 0.0
  }

  /** The four measured modes are replaced. */
  lemma {:induction false} Replaces(f: Functions, ops: seq<Op>, pt: Point, base: nat, ms: seq<nat>, level: real, data: MacronodeData)
    requires f.Lawful() && IsBlock(f, ops, base, ms, level, data) && Fits(PointAt(f, ops, pt, base + 14), ms)
    requires IdealSupply(PointAt(f, ops, pt, base + 14).supply)
    ensures BringsIn(PointAt(f, ops, pt, base + 14), PointAt(f, ops, pt, base + 18), ms)
  {
    hide PointAt, OnPoint, Acts, Functions.Lawful, IdealSupply;
    var p14, p15, p16, p17 :=
      PointAt(f, ops, pt, base + 14), PointAt(f, ops, pt, base + 15), PointAt(f, ops, pt, base + 16), PointAt(f, ops, pt, base + 17);
    var p18 := PointAt(f, ops, pt, base + 18);
    PointStep(f, ops, pt, base + 14);
    ReplacesOne(f, ops[base + 14], p14, ms[0], level, f.halfPi);
    PointStep(f, ops, pt, base + 15);
    ReplacesOne(f, ops[base + 15], p15, ms[1], level, f.halfPi);
    PointStep(f, ops, pt, base + 16);
    ReplacesOne(f, ops[base + 16], p16, ms[2], level, 0.0);
    PointStep(f, ops, pt, base + 17);
    ReplacesOne(f, ops[base + 17], p17, ms[3], level, 0.0);
    ReplacedTwice(p14, p15, p16, {ms[0]}, ms[1]);
    ReplacedTwice(p14, p16, p17, {ms[0]} + {ms[1]}, ms[2]);
    ReplacedTwice(p14, p17, p18, {ms[0]} + {ms[1]} + {ms[2]}, ms[3]);
    assert {ms[0]} + {ms[1]} + {ms[2]} + {ms[3]} == {ms[0], ms[1], ms[2], ms[3]};
    assert ms[0] != ms[1] && ms[0] != ms[2] && ms[0] != ms[3] && ms[1] != ms[2] && ms[1] != ms[3] && ms[2] != ms[3];
  }
}
