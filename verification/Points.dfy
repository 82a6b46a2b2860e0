/** Phase-space points: every mode has a position and a momentum, and gates act on them linearly. */
module Points {
  import opened Elementary
  import opened Operations
  import opened Engine
  import Resolution

  datatype Quad = Quad(x: real, p: real)

  function Plus(a: Quad, b: Quad): Quad { Quad(a.x + b.x, a.p + b.p) }

  /** `supply` holds the quadratures of the resource states still to be brought in: x is the squeezed
      quadrature, p the other one. */
  datatype Point = Point(modes: seq<Quad>, supply: seq<Quad>)

  function Act2(m: Mat2, q: Quad): Quad {
    Quad(m.a * q.x + m.b * q.p, m.c * q.x + m.d * q.p)
  }

  function Act4(m: Mat4, a: Quad, b: Quad): (Quad, Quad) {
    var v := Apply4(m, Vec4(a.x, b.x, a.p, b.p));
    (Quad(v.x0, v.p0), Quad(v.x1, v.p1))
  }

  predicate Applicable(kind: Kind, modes: seq<nat>, params: seq<real>, n: nat) {
    && |modes| == ModeCount(kind) && ArityOk(kind, |params|)
    && modes[0] < n
    && (IsBinaryGate(kind) ==> modes[1] < n && modes[0] != modes[1])
  }

  /** A squeezed state at angle phi with the given quadratures. */
  function Resource(f: Functions, phi: real, q: Quad): Quad {
    Act2(Rotation(f, phi), q)
  }

  /** The next resource quadratures; the supply never runs out, it ends in ideal zeros. */
  function Next(supply: seq<Quad>): Quad {
    if supply == [] then Quad(0.0, 0.0) else supply[0]
  }

  function Rest(supply: seq<Quad>): seq<Quad> {
    if supply == [] then [] else supply[1..]
  }

  /** A gate, a displacement or a replacement. */
  function ApplyGate(f: Functions, kind: Kind, modes: seq<nat>, params: seq<real>, pt: Point): (r: Point)
    ensures |r.modes| == |pt.modes|
  {
    if !Applicable(kind, modes, params, |pt.modes|) then pt
    else if kind == Displacement then
      pt.(modes := pt.modes[modes[0] := Plus(pt.modes[modes[0]], Quad(params[0], params[1]))])
    else if IsUnaryGate(kind) then
      pt.(modes := pt.modes[modes[0] := Act2(UnaryMatrix(f, kind, params), pt.modes[modes[0]])])
    else if IsBinaryGate(kind) then
      var (a, b) := Act4(BinaryMatrix(f, kind, params), pt.modes[modes[0]], pt.modes[modes[1]]);
      pt.(modes := pt.modes[modes[0] := a][modes[1] := b])
    else if kind == ReplaceBySqueezedState then
      Point(pt.modes[modes[0] := Resource(f, params[1], Next(pt.supply))], Rest(pt.supply))
    else pt
  }

  /** The rotation before a measurement at angle theta. */
  function BeforeReading(f: Functions, op: Op, pt: Point): (r: Point)
    ensures |r.modes| == |pt.modes|
  {
    if op.kind == HomodyneSingleMode && op.params != [] then
      ApplyGate(f, PhaseRotation, [Mode(op)], [op.params[0] - f.halfPi], pt)
    else pt
  }

  /** The x quadrature of a mode. */
  function ReadX(mode: nat, sel: Option<real>, peaks: seq<Point>): real {
    if sel.Some? then sel.value
    else if peaks != [] && mode < |peaks[0].modes| then peaks[0].modes[mode].x
    else 0.0
  }

  /** The measured mode is left at the origin. */
  function Cleared(mode: nat, pt: Point): (r: Point)
    ensures |r.modes| == |pt.modes|
  {
    if mode < |pt.modes| then pt.(modes := pt.modes[mode := Quad(0.0, 0.0)]) else pt
  }

  function PointKernel(f: Functions): Kernel<Point, (), real> {
    Kernel(f.halfPi,
           (kind: Kind, modes: seq<nat>, params: seq<real>, pt: Point) => ApplyGate(f, kind, modes, params, pt),
           (mode: nat, sel: Option<real>, peaks: seq<Point>, rng: ()) => (ReadX(mode, sel, peaks), rng),
           (x: real) => x,
           (mode: nat, x: real, m: nat, pt: Point) => Cleared(mode, pt))
  }

  /** The value an operation reads. */
  function Reading(f: Functions, op: Op, pt: Point): real {
    ReadX(Mode(op), op.Selection(), [BeforeReading(f, op, pt)])
  }

  /** One operation on a point. */
  function OnPoint(f: Functions, op: Op, pt: Point): (r: Point)
    ensures |r.modes| == |pt.modes|
  {
    if IsMeasurement(op.kind) then Cleared(Mode(op), BeforeReading(f, op, pt))
    else ApplyGate(f, op.kind, op.modes, op.Effective(), pt)
  }

  /** The point before operation i. */
  function PointAt(f: Functions, ops: seq<Op>, pt: Point, i: nat): (r: Point)
    requires i <= |ops|
    ensures |r.modes| == |pt.modes|
  {
    if i == 0 then pt else OnPoint(f, ops[i - 1], PointAt(f, ops, pt, i - 1))
  }

  /** e is the state of the run of one point, without feedforward, before operation i. */
  ghost predicate IsPointRun(f: Functions, ops: seq<Op>, pt: Point, e: Exec<Point, ()>, i: nat)
    requires i <= |ops|
  {
    && e.ops == ops
    && e.peaks == [PointAt(f, ops, pt, i)]
    && (forall j: nat :: j in e.measured <==> j < i && IsMeasurement(ops[j].kind))
    && (forall j: nat | j < i && IsMeasurement(ops[j].kind) :: e.measured[j] == Reading(f, ops[j], PointAt(f, ops, pt, j)))
  }

  lemma {:induction false} RunOnPoints(f: Functions, ops: seq<Op>, pt: Point, i: nat)
    requires i <= |ops|
    ensures Run(PointKernel(f), [], Exec([pt], (), ops, map[]), 0, i).Some?
    ensures IsPointRun(f, ops, pt, Run(PointKernel(f), [], Exec([pt], (), ops, map[]), 0, i).value, i)
  {
    hide Step, Steps, OnPoint, Reading, PointKernel;
    if i > 0 {
      var k, s := PointKernel(f), Exec([pt], (), ops, map[]);
      RunOnPoints(f, ops, pt, i - 1);
      RunOneMore(k, [], s, i - 1);
      OnePointStep(f, ops, pt, Run(k, [], s, 0, i - 1).value, i - 1, Run(k, [], s, 0, i).value);
    }
  }

  lemma {:induction false} OnePointStep(f: Functions, ops: seq<Op>, pt: Point, e: Exec<Point, ()>, i: nat, next: Exec<Point, ()>)
    requires i < |ops| && IsPointRun(f, ops, pt, e, i) && Steps(PointKernel(f), [], e, i, next)
    ensures IsPointRun(f, ops, pt, next, i + 1)
  {
    hide Steps, OnPoint, Reading, PointKernel;
    var op, p := ops[i], PointAt(f, ops, pt, i);
    assert PointAt(f, ops, pt, i + 1) == OnPoint(f, op, p);
    if IsMeasurement(op.kind) {
      MeasurePoint(f, op, p, e, i, next);
      forall j: nat | j < i + 1 && IsMeasurement(ops[j].kind)
        ensures next.measured[j] == Reading(f, ops[j], PointAt(f, ops, pt, j))
      {
        if j < i {
          assert e.measured[j] == Reading(f, ops[j], PointAt(f, ops, pt, j));
        }
      }
    } else {
      GatePoint(f, op, p, e, i, next);
    }
  }

  lemma {:induction false} GatePoint(f: Functions, op: Op, p: Point, e: Exec<Point, ()>, i: nat, next: Exec<Point, ()>)
    requires i < |e.ops| && e.ops[i] == op && e.peaks == [p] && !IsMeasurement(op.kind)
    requires Steps(PointKernel(f), [], e, i, next)
    ensures next.ops == e.ops && next.measured == e.measured && next.peaks == [OnPoint(f, op, p)]
  {
    assert ApplyToAll(PointKernel(f), op.kind, op.modes, op.Effective(), [p]) == [OnPoint(f, op, p)];
  }

  lemma {:induction false} MeasurePoint(f: Functions, op: Op, p: Point, e: Exec<Point, ()>, i: nat, next: Exec<Point, ()>)
    requires i < |e.ops| && e.ops[i] == op && e.peaks == [p] && IsMeasurement(op.kind)
    requires Steps(PointKernel(f), [], e, i, next)
    ensures next.ops == e.ops && next.measured == e.measured[i := Reading(f, op, p)] && next.peaks == [OnPoint(f, op, p)]
  {
    var k, v := PointKernel(f), Reading(f, op, p);
    assert Rotated(k, op, e.peaks) == [BeforeReading(f, op, p)];
    assert SelectAll(k, Mode(op), v, [BeforeReading(f, op, p)]) == [OnPoint(f, op, p)];
    Resolution.NothingFires(e.ops, i, e.measured[i := v]);
  }
}
