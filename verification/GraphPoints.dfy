/** The macronodes of a graph circuit, executed on a phase-space point. */
module GraphPoints {
  import opened Elementary
  import opened Operations
  import opened Points
  import opened Teleportation
  import opened MachineryPoints

  lemma {:induction false} DisplacePoint(f: Functions, op: Op, b: Point, m: nat, q: Quad)
    requires m < |b.modes| && Acts(op, Displacement, [m], [q.x, q.p])
    ensures OnPoint(f, op, b) == b.(modes := b.modes[m := Plus(b.modes[m], q)])
  {
  }

  lemma {:induction false} ManualPoint(f: Functions, op: Op, b: Point, m: nat, l: nat, t: MacronodeAngle)
    requires m < |b.modes| && l < |b.modes| && m != l && Acts(op, Manual, [m, l], [t.a, t.b, t.c, t.d])
    ensures var (x, y) := Act4(ManualMatrix(f, t.a, t.b, t.c, t.d), b.modes[m], b.modes[l]);
      OnPoint(f, op, b) == b.(modes := b.modes[m := x][l := y])
  {
    hide ManualMatrix, Act4;
  }

  /** A macronode with a Manual gate. */
  ghost predicate IsManualGroup(ops: seq<Op>, first: nat, up: nat, left: nat, d1: Quad, dn: Quad, t: MacronodeAngle) {
    && first + 3 <= |ops|
    && Acts(ops[first], Displacement, [up], [d1.x, d1.p])
    && Acts(ops[first + 1], Displacement, [left], [dn.x, dn.p])
    && Acts(ops[first + 2], Manual, [up, left], [t.a, t.b, t.c, t.d])
  }

  lemma {:induction false} ManualGroupRuns(
    f: Functions, ops: seq<Op>, pt: Point, first: nat, up: nat, left: nat, d1: Quad, dn: Quad, t: MacronodeAngle)
    requires IsManualGroup(ops, first, up, left, d1, dn, t)
    requires up != left && up < |PointAt(f, ops, pt, first).modes| && left < |PointAt(f, ops, pt, first).modes|
    ensures var g := PointAt(f, ops, pt, first);
      var (x, y) := Act4(ManualMatrix(f, t.a, t.b, t.c, t.d), Plus(g.modes[up], d1), Plus(g.modes[left], dn));
      PointAt(f, ops, pt, first + 3) == g.(modes := g.modes[up := x][left := y])
  {
    hide PointAt, OnPoint, Acts, ManualMatrix, Act4, Plus;
    var g := PointAt(f, ops, pt, first);
    var b, d := Plus(g.modes[up], d1), Plus(g.modes[left], dn);
    PointStep(f, ops, pt, first);
    DisplacePoint(f, ops[first], g, up, d1);
    PointStep(f, ops, pt, first + 1);
    DisplacePoint(f, ops[first + 1], PointAt(f, ops, pt, first + 1), left, dn);
    PointStep(f, ops, pt, first + 2);
    ManualPoint(f, ops[first + 2], PointAt(f, ops, pt, first + 2), up, left, t);
    var (x, y) := Act4(ManualMatrix(f, t.a, t.b, t.c, t.d), b, d);
    assert g.modes[up := b][left := d][up := x][left := y] == g.modes[up := x][left := y];
  }

  /** A measurement or initialization macronode. */
  ghost predicate IsMeasurementGroup(
    f: Functions, ops: seq<Op>, first: nat, up: nat, left: nat, d1: Quad, dn: Quad, theta: real, level: real)
  {
    && first + 6 <= |ops|
    && Acts(ops[first], Displacement, [up], [d1.x, d1.p])
    && Acts(ops[first + 1], HomodyneSingleMode, [up], [theta])
    && Acts(ops[first + 2], ReplaceBySqueezedState, [up], [level, theta - f.halfPi])
    && Acts(ops[first + 3], Displacement, [left], [dn.x, dn.p])
    && Acts(ops[first + 4], HomodyneSingleMode, [left], [theta])
    && Acts(ops[first + 5], ReplaceBySqueezedState, [left], [level, theta - f.halfPi])
  }

  /** Displace, read, replace: one half of a measurement macronode. */
  lemma {:induction false} HalfRuns(
    f: Functions, ops: seq<Op>, pt: Point, first: nat, m: nat, d: Quad, theta: real, level: real)
    requires f.Lawful() && first + 3 <= |ops| && m < |PointAt(f, ops, pt, first).modes|
    requires Acts(ops[first], Displacement, [m], [d.x, d.p]) && Acts(ops[first + 1], HomodyneSingleMode, [m], [theta])
    requires Acts(ops[first + 2], ReplaceBySqueezedState, [m], [level, theta - f.halfPi])
    ensures var g := PointAt(f, ops, pt, first);
      && Reading(f, ops[first + 1], PointAt(f, ops, pt, first + 1)) == Quadrature(f, theta, Plus(g.modes[m], d))
      && PointAt(f, ops, pt, first + 3) == Point(g.modes[m := Resource(f, theta - f.halfPi, Next(g.supply))], Rest(g.supply))
  {
    hide PointAt, OnPoint, Acts, Resource, Plus, Next, Rest, Functions.Lawful, Reading, Quadrature;
    var g := PointAt(f, ops, pt, first);
    PointStep(f, ops, pt, first);
    DisplacePoint(f, ops[first], g, m, d);
    PointStep(f, ops, pt, first + 1);
    MeasuresPoint(f, ops[first + 1], PointAt(f, ops, pt, first + 1), m, theta);
    PointStep(f, ops, pt, first + 2);
    ReplacePoint(f, ops[first + 2], PointAt(f, ops, pt, first + 2), m, level, theta - f.halfPi);
    var r := Resource(f, theta - f.halfPi, Next(g.supply));
    assert g.modes[m := Plus(g.modes[m], d)][m := Quad(0.0, 0.0)][m := r] == g.modes[m := r];
  }

  lemma {:induction false} MeasurementGroupRuns(
    f: Functions, ops: seq<Op>, pt: Point, first: nat, up: nat, left: nat, d1: Quad, dn: Quad, theta: real, level: real)
    requires f.Lawful() && IsMeasurementGroup(f, ops, first, up, left, d1, dn, theta, level)
    requires up != left && up < |PointAt(f, ops, pt, first).modes| && left < |PointAt(f, ops, pt, first).modes|
    ensures var g := PointAt(f, ops, pt, first);
      && Reading(f, ops[first + 1], PointAt(f, ops, pt, first + 1)) == Quadrature(f, theta, Plus(g.modes[up], d1))
      && Reading(f, ops[first + 4], PointAt(f, ops, pt, first + 4)) == Quadrature(f, theta, Plus(g.modes[left], dn))
      && PointAt(f, ops, pt, first + 6)
         == Point(g.modes[up := Resource(f, theta - f.halfPi, Next(g.supply))][left := Resource(f, theta - f.halfPi, Next(Rest(g.supply)))],
                  Rest(Rest(g.supply)))
  {
    hide PointAt, OnPoint, Acts, Resource, Plus, Next, Rest, Functions.Lawful, Reading, Quadrature;
    HalfRuns(f, ops, pt, first, up, d1, theta, level);
    HalfRuns(f, ops, pt, first + 3, left, dn, theta, level);
  }
}
