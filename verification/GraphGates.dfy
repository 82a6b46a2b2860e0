/** The gates of a graph program: each does what a macronode with certain angles teleports its inputs through. */
module GraphGates {
  import opened Elementary
  import opened Operations
  import opened Points
  import opened Teleportation
  import opened MachineryPoints
  import opened GraphPoints
  import opened GraphProgram
  import GraphResult
  import opened GateAngles
  import opened PairAngles

  /** The number of parameters of a gate of this type. */
  function GateArity(type_: OperationType): Option<nat> {
    match type_
    case PhaseRotationType => Some(1)
    case ShearXInvariantType => Some(1)
    case ShearPInvariantType => Some(1)
    case SqueezingType => Some(1)
    case Squeezing45Type => Some(1)
    case ArbitraryFirst => Some(3)
    case ArbitrarySecond => Some(3)
    case ControlledZType => Some(1)
    case BeamSplitterType => Some(2)
    case TwoModeShearType => Some(2)
    case ManualType => Some(4)
    case _ => None
  }

  predicate IsGate(op: GraphOperation) {
    GateArity(op.type_) == Some(|op.parameters|)
  }

  /** Both pairs of angles apply V(first, second) to the modes. */
  function Both(first: real, second: real): MacronodeAngle { MacronodeAngle(second, first, second, first) }

  /** The angles of the macronode that teleports its inputs through the gate. */
  function AnglesOf(f: Functions, op: GraphOperation): MacronodeAngle
    requires IsGate(op)
  {
    var p, q := op.parameters, f.halfPi / 2.0;
    match op.type_
    case PhaseRotationType => Both(p[0] / 2.0 + f.halfPi, p[0] / 2.0)
    case ShearXInvariantType => Both(f.halfPi, f.atan(p[0]))
    case ShearPInvariantType => Both(f.halfPi - f.atan(p[0]), 0.0)
    case SqueezingType => Both(p[0], -p[0])
    case Squeezing45Type => Both(p[0] + q, q - p[0])
    case ControlledZType => MacronodeAngle(f.atan(-p[0] / 2.0), f.halfPi, f.atan(p[0] / 2.0), f.halfPi)
    case TwoModeShearType => MacronodeAngle(f.atan(p[0] - p[1] / 2.0), f.halfPi, f.atan(p[0] + p[1] / 2.0), f.halfPi)
    case BeamSplitterType =>
      var alpha, beta := (p[1] + f.acos(p[0])) / 2.0, (p[1] - f.acos(p[0])) / 2.0;
      MacronodeAngle(alpha, alpha + f.halfPi, beta, beta + f.halfPi)
    case ArbitraryFirst => AsAngles(FirstAngles(f, p, op.swap))
    case ArbitrarySecond => AsAngles(SecondAngles(f, p, op.swap))
    case ManualType => AsAngles(p)
  }

  function AsAngles(s: seq<real>): MacronodeAngle
    requires |s| == 4
  {
    MacronodeAngle(s[0], s[1], s[2], s[3])
  }

  /** Two different angles in each pair. */
  predicate Accepted(f: Functions, t: MacronodeAngle) {
    !f.EquivModPi(t.a, t.b) && !f.EquivModPi(t.c, t.d)
  }

  // ----- the same gate on both modes -----

  lemma {:induction false} PairRows(m: Mat4, v: Mat2, ax: real, ap: real, bx: real, bp: real)
    requires m == Mat4(Vec4(v.a, 0.0, v.b, 0.0), Vec4(0.0, v.a, 0.0, v.b), Vec4(v.c, 0.0, v.d, 0.0), Vec4(0.0, v.c, 0.0, v.d))
    ensures Apply4(m, Vec4(ax, bx, ap, bp)) == Vec4(v.a * ax + v.b * ap, v.a * bx + v.b * bp, v.c * ax + v.d * ap, v.c * bx + v.d * bp)
  {
  }

  lemma {:induction false} SameOnBoth(v: Mat2)
    ensures OnDifferenceAndSum(v, v) == Mat4(Vec4(v.a, 0.0, v.b, 0.0), Vec4(0.0, v.a, 0.0, v.b), Vec4(v.c, 0.0, v.d, 0.0), Vec4(0.0, v.c, 0.0, v.d))
  {
    var m := OnDifferenceAndSum(v, v);
    HalfEntries(v, v, m);
    hide SumDifferenceMatrix, Scale4;
  }

  /** V on the difference and on the sum of two modes is V on each of them. */
  lemma {:induction false} BothActs(f: Functions, first: real, second: real, a: Quad, b: Quad)
    ensures var t := Both(first, second);
      Act4(ManualMatrix(f, t.a, t.b, t.c, t.d), a, b) == (Act2(V(f, first, second), a), Act2(V(f, first, second), b))
  {
    var v := V(f, first, second);
    hide V, ManualMatrix, Apply4, OnDifferenceAndSum;
    ManualOnBoth(f, second, first, second, first);
    SameOnBoth(v);
    PairRows(OnDifferenceAndSum(v, v), v, a.x, a.p, b.x, b.p);
    var r, l, m := Act4(ManualMatrix(f, second, first, second, first), a, b), Act2(v, a), Act2(v, b);
    assert r.0.x == l.x && r.0.p == l.p && r.1.x == m.x && r.1.p == m.p;
  }

  /** A single-mode gate is V of the two angles. */
  lemma {:induction false} UnaryIsV(f: Functions, op: GraphOperation, kind: Kind)
    requires f.Lawful() && IsGate(op) && ShapeOf(op.type_) == UnaryShape(kind) && Accepted(f, AnglesOf(f, op))
    requires Constructible(f, kind, [0], op.parameters)
    ensures AnglesOf(f, op) == Both(AnglesOf(f, op).b, AnglesOf(f, op).a)
    ensures UnaryMatrix(f, kind, op.parameters) == V(f, AnglesOf(f, op).b, AnglesOf(f, op).a)
  {
    hide f.Lawful, V, UnaryMatrix;
    var p := op.parameters;
    assert p == [p[0]];
    match op.type_ {
      case PhaseRotationType => RotationIsV(f, p[0]); RotationMatrix(f, p[0]);
      case ShearXInvariantType => ShearXIsV(f, p[0]);
      case ShearPInvariantType => ShearPIsV(f, p[0]);
      case SqueezingType => Reversed(f, p[0], -p[0]); SqueezingIsV(f, p[0]);
      case Squeezing45Type => Reversed(f, p[0] + f.halfPi / 2.0, f.halfPi / 2.0 - p[0]); Squeezing45IsV(f, p[0]);
    }
  }

  lemma {:induction false} RotationMatrix(f: Functions, phi: real)
    ensures UnaryMatrix(f, PhaseRotation, [phi]) == Rotation(f, phi)
  {
    hide Rotation;
  }

  lemma {:induction false} Reversed(f: Functions, a: real, b: real)
    requires f.Lawful()
    ensures f.EquivModPi(a, b) <==> f.EquivModPi(b, a)
  {
    f.Negation(a - b);
    assert -(a - b) == b - a;
  }

  /** A two-mode gate is the Manual gate of the angles. */
  lemma {:induction false} BinaryIsManual(f: Functions, op: GraphOperation, kind: Kind)
    requires f.Lawful() && IsGate(op) && ShapeOf(op.type_) == BinaryShape(kind)
    ensures CircuitOpParams(f, op).Some? && ArityOk(kind, |CircuitOpParams(f, op).value|)
    ensures var t := AnglesOf(f, op); BinaryMatrix(f, kind, CircuitOpParams(f, op).value) == ManualMatrix(f, t.a, t.b, t.c, t.d)
  {
    hide f.Lawful, ManualMatrix;
    var p := op.parameters;
    match op.type_ {
      case ControlledZType => assert p == [p[0]]; ControlledZIsManual(f, p[0]);
      case TwoModeShearType => assert p == [p[0], p[1]]; TwoModeShearIsManual(f, p[0], p[1]);
      case BeamSplitterType => assert p == [p[0], p[1]]; BeamSplitterIsManual(f, p[0], p[1]);
      case _ =>
    }
  }

  /** The angles are those of a macronode that teleports; for the two squeezings, when the tangent exists. */
  lemma {:induction false} AcceptedExactly(f: Functions, op: GraphOperation, kind: Kind)
    requires f.Lawful() && IsGate(op)
    requires ShapeOf(op.type_) == UnaryShape(kind) && Constructible(f, kind, [0], op.parameters)
    ensures Accepted(f, AnglesOf(f, op)) <==> (kind in {Squeezing, Squeezing45} ==> f.cos(op.parameters[0]) != 0.0)
  {
    hide f.Lawful, f.EquivModPi;
    var p, q := op.parameters, f.halfPi / 2.0;
    match op.type_ {
      case PhaseRotationType => QuarterApart(f, p[0] / 2.0);
      case ShearXInvariantType => ArcApart(f, p[0]);
      case ShearPInvariantType => ArcApart(f, p[0]);
      case SqueezingType => SqueezingApart(f, p[0], p[0], -p[0]);
      case Squeezing45Type => SqueezingApart(f, p[0], p[0] + q, q - p[0]);
    }
  }

  lemma {:induction false} SqueezingApart(f: Functions, theta: real, a: real, b: real)
    requires f.Lawful() && a - b == 2.0 * theta && !f.EquivModPi(theta, 0.0)
    ensures !f.EquivModPi(b, a) <==> f.cos(theta) != 0.0
  {
    hide *;
    TangentFacts(f, theta);
    Doubled(f, theta, a, b);
    Reversed(f, a, b);
    ZeroProduct(f.sin(theta), f.cos(theta));
  }

  lemma {:induction false} ZeroProduct(s: real, c: real)
    requires s != 0.0
    ensures s * c == 0.0 <==> c == 0.0
  {
  }

  lemma {:induction false} QuarterApart(f: Functions, h: real)
    requires f.Lawful()
    ensures !f.EquivModPi(h, h + f.halfPi) && !f.EquivModPi(h + f.halfPi, h)
  {
    f.Negation(f.halfPi);
    assert h - (h + f.halfPi) == -f.halfPi && (h + f.halfPi) - h == f.halfPi;
  }

  lemma {:induction false} ArcApart(f: Functions, y: real)
    requires f.Lawful()
    ensures !f.EquivModPi(f.atan(y), f.halfPi) && !f.EquivModPi(0.0, f.halfPi - f.atan(y))
  {
    var a := f.atan(y);
    assert f.ArcTangent(y);
    f.QuarterTurnBack(a);
    assert 0.0 - (f.halfPi - a) == a - f.halfPi;
  }

  /** So are the angles of the two-mode gates, except where Manual or Arbitrary gives them itself. */
  lemma {:induction false} PairAccepted(f: Functions, op: GraphOperation)
    requires f.Lawful() && IsGate(op) && op.type_ in {ControlledZType, TwoModeShearType, BeamSplitterType}
    ensures Accepted(f, AnglesOf(f, op))
  {
    hide f.Lawful, f.EquivModPi;
    var t, p := AnglesOf(f, op), op.parameters;
    match op.type_ {
      case ControlledZType => ArcApart(f, -p[0] / 2.0); ArcApart(f, p[0] / 2.0);
      case TwoModeShearType => ArcApart(f, p[0] - p[1] / 2.0); ArcApart(f, p[0] + p[1] / 2.0);
      case BeamSplitterType => QuarterApart(f, t.a); QuarterApart(f, t.c);
    }
  }

  // ----- the group of a gate -----

  /** The circuit operations of a gate, with displacements d1 and dn of its inputs. */
  ghost predicate IsGateGroup(f: Functions, op: GraphOperation, ops: seq<Op>, first: nat, up: nat, left: nat, d1: Quad, dn: Quad)
    requires IsGate(op)
  {
    match ShapeOf(op.type_)
    case UnaryShape(kind) =>
      && first + 4 <= |ops| && Constructible(f, kind, [0], op.parameters)
      && Acts(ops[first], Displacement, [up], [d1.x, d1.p]) && Acts(ops[first + 1], kind, [up], op.parameters)
      && Acts(ops[first + 2], Displacement, [left], [dn.x, dn.p]) && Acts(ops[first + 3], kind, [left], op.parameters)
    case BinaryShape(kind) =>
      && first + 3 <= |ops| && CircuitOpParams(f, op).Some?
      && Acts(ops[first], Displacement, [up], [d1.x, d1.p]) && Acts(ops[first + 1], Displacement, [left], [dn.x, dn.p])
      && Acts(ops[first + 2], kind, [up, left], CircuitOpParams(f, op).value)
    case _ => false
  }

  function GroupLength(type_: OperationType): nat { if ShapeOf(type_).UnaryShape? then 4 else 3 }

  function DisplacementOf(d: Option<Quad>): Quad { if d.Some? then d.value else Quad(0.0, 0.0) }

  /** What the compiler adds for a gate is such a group. */
  lemma {:induction false} GroupIsGateGroup(f: Functions, op: GraphOperation, up: nat, left: nat, level: real)
    requires IsGate(op) && Group(f, op, up, left, level).Some?
    requires forall kind | ShapeOf(op.type_) == UnaryShape(kind) :: Constructible(f, kind, [up], op.parameters)
    ensures |Group(f, op, up, left, level).value| == GroupLength(op.type_)
    ensures IsGateGroup(f, op, Group(f, op, up, left, level).value, 0, up, left, DisplacementOf(op.displacement1), DisplacementOf(op.displacementN))
  {
    hide FirstAngles, SecondAngles;
  }

  lemma {:induction false} UnaryPoint(f: Functions, op: Op, b: Point, m: nat, kind: Kind, params: seq<real>)
    requires m < |b.modes| && IsUnaryGate(kind) && ArityOk(kind, |params|) && Acts(op, kind, [m], params)
    ensures OnPoint(f, op, b) == b.(modes := b.modes[m := Act2(UnaryMatrix(f, kind, params), b.modes[m])])
  {
    hide UnaryMatrix, Act2;
  }

  lemma {:induction false} BinaryPoint(f: Functions, op: Op, b: Point, m: nat, l: nat, kind: Kind, params: seq<real>)
    requires m < |b.modes| && l < |b.modes| && m != l && IsBinaryGate(kind) && ArityOk(kind, |params|) && Acts(op, kind, [m, l], params)
    ensures var (x, y) := Act4(BinaryMatrix(f, kind, params), b.modes[m], b.modes[l]);
      OnPoint(f, op, b) == b.(modes := b.modes[m := x][l := y])
  {
    hide BinaryMatrix, Act4;
  }

  /** Its effect on a point: both inputs are displaced and then go through the Manual gate of the angles. */
  ghost predicate Teleported(f: Functions, t: MacronodeAngle, g: Point, g': Point, up: nat, left: nat, d1: Quad, dn: Quad) {
    && up < |g.modes| && left < |g.modes|
    && var (x, y) := Act4(ManualMatrix(f, t.a, t.b, t.c, t.d), Plus(g.modes[up], d1), Plus(g.modes[left], dn));
      g' == g.(modes := g.modes[up := x][left := y])
  }

  /** Displace and apply, on one mode and then on the other. */
  lemma {:induction false} UnarySteps(
    f: Functions, kind: Kind, p: seq<real>, ops: seq<Op>, pt: Point, first: nat, m: nat, q: Quad)
    requires IsUnaryGate(kind) && ArityOk(kind, |p|) && first + 2 <= |ops| && m < |PointAt(f, ops, pt, first).modes|
    requires Acts(ops[first], Displacement, [m], [q.x, q.p]) && Acts(ops[first + 1], kind, [m], p)
    ensures var g := PointAt(f, ops, pt, first);
      PointAt(f, ops, pt, first + 2) == g.(modes := g.modes[m := Act2(UnaryMatrix(f, kind, p), Plus(g.modes[m], q))])
  {
    var g := PointAt(f, ops, pt, first);
    hide PointAt, OnPoint, Acts, Act2, Plus, UnaryMatrix, IsUnaryGate, ArityOk;
    PointStep(f, ops, pt, first);
    DisplacePoint(f, ops[first], g, m, q);
    PointStep(f, ops, pt, first + 1);
    UnaryPoint(f, ops[first + 1], PointAt(f, ops, pt, first + 1), m, kind, p);
    var x := Act2(UnaryMatrix(f, kind, p), Plus(g.modes[m], q));
    assert g.modes[m := Plus(g.modes[m], q)][m := x] == g.modes[m := x];
  }

  lemma {:induction false} IsTeleported(
    f: Functions, t: MacronodeAngle, g: Point, g': Point, up: nat, left: nat, d1: Quad, dn: Quad, x: Quad, y: Quad)
    requires up < |g.modes| && left < |g.modes| && g' == g.(modes := g.modes[up := x][left := y])
    requires Act4(ManualMatrix(f, t.a, t.b, t.c, t.d), Plus(g.modes[up], d1), Plus(g.modes[left], dn)) == (x, y)
    ensures Teleported(f, t, g, g', up, left, d1, dn)
  {
    hide Act4, ManualMatrix, Plus;
  }

  lemma {:induction false} UnaryMembers(f: Functions, op: GraphOperation, kind: Kind, ops: seq<Op>, first: nat, up: nat, left: nat, d1: Quad, dn: Quad)
    requires IsGate(op) && ShapeOf(op.type_) == UnaryShape(kind) && IsGateGroup(f, op, ops, first, up, left, d1, dn)
    ensures IsUnaryGate(kind) && ArityOk(kind, |op.parameters|) && first + 4 <= |ops| && Constructible(f, kind, [0], op.parameters)
    ensures Acts(ops[first], Displacement, [up], [d1.x, d1.p]) && Acts(ops[first + 1], kind, [up], op.parameters)
    ensures Acts(ops[first + 2], Displacement, [left], [dn.x, dn.p]) && Acts(ops[first + 3], kind, [left], op.parameters)
  {
    hide Constructible, Acts;
  }

  lemma {:induction false} UnaryGroupRuns(
    f: Functions, op: GraphOperation, kind: Kind, ops: seq<Op>, pt: Point, first: nat, up: nat, left: nat, d1: Quad, dn: Quad)
    requires f.Lawful() && IsGate(op) && ShapeOf(op.type_) == UnaryShape(kind) && Accepted(f, AnglesOf(f, op))
    requires IsGateGroup(f, op, ops, first, up, left, d1, dn)
    requires up != left && up < |PointAt(f, ops, pt, first).modes| && left < |PointAt(f, ops, pt, first).modes|
    ensures first + 4 <= |ops|
    ensures Teleported(f, AnglesOf(f, op), PointAt(f, ops, pt, first), PointAt(f, ops, pt, first + 4), up, left, d1, dn)
  {
    hide *;
    UnaryMembers(f, op, kind, ops, first, up, left, d1, dn);
    var t, p, g := AnglesOf(f, op), op.parameters, PointAt(f, ops, pt, first);
    UnaryIsV(f, op, kind);
    UnarySteps(f, kind, p, ops, pt, first, up, d1);
    UnarySteps(f, kind, p, ops, pt, first + 2, left, dn);
    var b, d := Plus(g.modes[up], d1), Plus(g.modes[left], dn);
    BothAct(f, t, b, d);
    IsTeleported(f, t, g, PointAt(f, ops, pt, first + 4), up, left, d1, dn, Act2(V(f, t.b, t.a), b), Act2(V(f, t.b, t.a), d));
  }

  lemma {:induction false} BothAct(f: Functions, t: MacronodeAngle, a: Quad, b: Quad)
    requires t == Both(t.b, t.a)
    ensures Act4(ManualMatrix(f, t.a, t.b, t.c, t.d), a, b) == (Act2(V(f, t.b, t.a), a), Act2(V(f, t.b, t.a), b))
  {
    hide Act4, ManualMatrix, V, Act2;
    BothActs(f, t.b, t.a, a, b);
  }

  lemma {:induction false} BinaryMembers(
    f: Functions, op: GraphOperation, kind: Kind, ops: seq<Op>, first: nat, up: nat, left: nat, d1: Quad, dn: Quad)
    requires IsGate(op) && ShapeOf(op.type_) == BinaryShape(kind) && IsGateGroup(f, op, ops, first, up, left, d1, dn)
    ensures IsBinaryGate(kind) && first + 3 <= |ops| && CircuitOpParams(f, op).Some?
    ensures Acts(ops[first], Displacement, [up], [d1.x, d1.p]) && Acts(ops[first + 1], Displacement, [left], [dn.x, dn.p])
    ensures Acts(ops[first + 2], kind, [up, left], CircuitOpParams(f, op).value)
  {
    hide CircuitOpParams, Acts;
  }

  lemma {:induction false} BinarySteps(
    f: Functions, kind: Kind, p: seq<real>, ops: seq<Op>, pt: Point, first: nat, up: nat, left: nat, d1: Quad, dn: Quad, x: Quad, y: Quad)
    requires IsBinaryGate(kind) && ArityOk(kind, |p|) && first + 3 <= |ops| && up != left
    requires up < |PointAt(f, ops, pt, first).modes| && left < |PointAt(f, ops, pt, first).modes|
    requires Acts(ops[first], Displacement, [up], [d1.x, d1.p]) && Acts(ops[first + 1], Displacement, [left], [dn.x, dn.p])
    requires Acts(ops[first + 2], kind, [up, left], p)
    requires var g := PointAt(f, ops, pt, first); Act4(BinaryMatrix(f, kind, p), Plus(g.modes[up], d1), Plus(g.modes[left], dn)) == (x, y)
    ensures var g := PointAt(f, ops, pt, first); PointAt(f, ops, pt, first + 3) == g.(modes := g.modes[up := x][left := y])
  {
    hide *;
    var g := PointAt(f, ops, pt, first);
    BothDisplaced(f, ops, pt, first, up, left, d1, dn);
    PointStep(f, ops, pt, first + 2);
    BinaryPoint(f, ops[first + 2], PointAt(f, ops, pt, first + 2), up, left, kind, p);
    assert g.modes[up := Plus(g.modes[up], d1)][left := Plus(g.modes[left], dn)][up := x][left := y] == g.modes[up := x][left := y];
  }

  lemma {:induction false} BothDisplaced(f: Functions, ops: seq<Op>, pt: Point, first: nat, up: nat, left: nat, d1: Quad, dn: Quad)
    requires first + 2 <= |ops| && up != left && up < |PointAt(f, ops, pt, first).modes| && left < |PointAt(f, ops, pt, first).modes|
    requires Acts(ops[first], Displacement, [up], [d1.x, d1.p]) && Acts(ops[first + 1], Displacement, [left], [dn.x, dn.p])
    ensures var g := PointAt(f, ops, pt, first);
      PointAt(f, ops, pt, first + 2) == g.(modes := g.modes[up := Plus(g.modes[up], d1)][left := Plus(g.modes[left], dn)])
  {
    hide *;
    PointStep(f, ops, pt, first);
    DisplacePoint(f, ops[first], PointAt(f, ops, pt, first), up, d1);
    PointStep(f, ops, pt, first + 1);
    DisplacePoint(f, ops[first + 1], PointAt(f, ops, pt, first + 1), left, dn);
  }

  lemma {:induction false} BinaryGroupRuns(
    f: Functions, op: GraphOperation, kind: Kind, ops: seq<Op>, pt: Point, first: nat, up: nat, left: nat, d1: Quad, dn: Quad)
    requires f.Lawful() && IsGate(op) && ShapeOf(op.type_) == BinaryShape(kind)
    requires IsGateGroup(f, op, ops, first, up, left, d1, dn)
    requires up != left && up < |PointAt(f, ops, pt, first).modes| && left < |PointAt(f, ops, pt, first).modes|
    ensures first + 3 <= |ops|
    ensures Teleported(f, AnglesOf(f, op), PointAt(f, ops, pt, first), PointAt(f, ops, pt, first + 3), up, left, d1, dn)
  {
    hide *;
    BinaryMembers(f, op, kind, ops, first, up, left, d1, dn);
    var t, g := AnglesOf(f, op), PointAt(f, ops, pt, first);
    BinaryIsManual(f, op, kind);
    var p := CircuitOpParams(f, op).value;
    var r := Act4(BinaryMatrix(f, kind, p), Plus(g.modes[up], d1), Plus(g.modes[left], dn));
    BinarySteps(f, kind, p, ops, pt, first, up, left, d1, dn, r.0, r.1);
    IsTeleported(f, t, g, PointAt(f, ops, pt, first + 3), up, left, d1, dn, r.0, r.1);
  }

  /** Every gate of a graph program does to its inputs what a macronode with its angles teleports them through. */
  lemma {:induction false} GateGroupRuns(
    f: Functions, op: GraphOperation, ops: seq<Op>, pt: Point, first: nat, up: nat, left: nat, d1: Quad, dn: Quad)
    requires f.Lawful() && IsGate(op) && Accepted(f, AnglesOf(f, op)) && IsGateGroup(f, op, ops, first, up, left, d1, dn)
    requires up != left && up < |PointAt(f, ops, pt, first).modes| && left < |PointAt(f, ops, pt, first).modes|
    ensures first + GroupLength(op.type_) <= |ops|
    ensures Teleported(f, AnglesOf(f, op), PointAt(f, ops, pt, first), PointAt(f, ops, pt, first + GroupLength(op.type_)), up, left, d1, dn)
  {
    hide f.Lawful, PointAt, AnglesOf, Accepted, Teleported, Acts, Constructible;
    match ShapeOf(op.type_)
    case UnaryShape(kind) => UnaryGroupRuns(f, op, kind, ops, pt, first, up, left, d1, dn);
    case BinaryShape(kind) => BinaryGroupRuns(f, op, kind, ops, pt, first, up, left, d1, dn);
  }

  // ----- wiring -----

  /** A wiring displaces its two inputs. */
  lemma {:induction false} WiringRuns(
    f: Functions, op: GraphOperation, ops: seq<Op>, pt: Point, first: nat, up: nat, left: nat, level: real)
    requires ShapeOf(op.type_).WiringShape? && Group(f, op, up, left, level).Some?
    requires first + |Group(f, op, up, left, level).value| <= |ops| && ops[first..first + |Group(f, op, up, left, level).value|] == Group(f, op, up, left, level).value
    requires up != left && up < |PointAt(f, ops, pt, first).modes| && left < |PointAt(f, ops, pt, first).modes|
    ensures |Group(f, op, up, left, level).value| == 2
    ensures var g := PointAt(f, ops, pt, first);
      PointAt(f, ops, pt, first + 2)
      == g.(modes := g.modes[up := Plus(g.modes[up], DisplacementOf(op.displacement1))][left := Plus(g.modes[left], DisplacementOf(op.displacementN))])
  {
    hide PointAt, Plus;
    var group := Group(f, op, up, left, level).value;
    assert ops[first] == ops[first..first + 2][0] && ops[first + 1] == ops[first..first + 2][1];
    BothDisplaced(f, ops, pt, first, up, left, DisplacementOf(op.displacement1), DisplacementOf(op.displacementN));
  }

  /** A macronode without a graph operation does nothing. */
  lemma {:induction false} WiredThrough(
    f: Functions, n: nat, sorted: seq<GraphOperation>, level: real, m: nat, ops: seq<Op>, pt: Point, first: nat)
    requires n >= 1 && !HasOp(sorted, m) && |pt.modes| == n + 1 && GroupOf(f, n, sorted, level, m).Some?
    requires first + |GroupOf(f, n, sorted, level, m).value| <= |ops|
    requires ops[first..first + |GroupOf(f, n, sorted, level, m).value|] == GroupOf(f, n, sorted, level, m).value
    ensures |GroupOf(f, n, sorted, level, m).value| == 2 && PointAt(f, ops, pt, first + 2) == PointAt(f, ops, pt, first)
  {
    assert OpFor(sorted, m) == WiringThrough(m);
    hide UpMode, LeftMode, HasOp, OpFor, Group, PointAt;
    GraphResult.ModesDiffer(n, sorted, m);
    var up, left, g := UpMode(n, sorted, m), LeftMode(n, sorted, m), PointAt(f, ops, pt, first);
    WiringRuns(f, WiringThrough(m), ops, pt, first, up, left, level);
    assert Plus(g.modes[up], Quad(0.0, 0.0)) == g.modes[up] && Plus(g.modes[left], Quad(0.0, 0.0)) == g.modes[left];
    assert g.modes[up := g.modes[up]][left := g.modes[left]] == g.modes;
  }
}
