/** Circuit operations: what an operation object stores and which matrix its constructor builds. */
module Operations {
  import opened Elementary

  datatype Kind =
    | Displacement
    | PhaseRotation
    | Squeezing
    | Squeezing45
    | ShearXInvariant
    | ShearPInvariant
    | Arbitrary
    | BeamSplitter
    | BeamSplitter50
    | BeamSplitterStd
    | ControlledZ
    | TwoModeShear
    | Manual
    | HomodyneSingleModeX
    | HomodyneSingleMode
    | ReplaceBySqueezedState

  predicate IsMeasurement(kind: Kind) {
    kind == HomodyneSingleModeX || kind == HomodyneSingleMode
  }

  predicate IsUnaryGate(kind: Kind) {
    kind in {PhaseRotation, Squeezing, Squeezing45, ShearXInvariant, ShearPInvariant, Arbitrary}
  }

  predicate IsBinaryGate(kind: Kind) {
    kind in {BeamSplitter, BeamSplitter50, BeamSplitterStd, ControlledZ, TwoModeShear, Manual}
  }

  /** Gates whose matrix is computed once, in the constructor. */
  predicate IsMatrixGate(kind: Kind) {
    IsUnaryGate(kind) || IsBinaryGate(kind)
  }

  /** An operation object.  `params` are the fields `GetMutParam` exposes; an absent homodyne
      selection is an absent last parameter.  `built` are the parameters the constructor saw, the
      ones a stored operation matrix was computed from: feedforward changes `params` only. */
  datatype Op = Op(kind: Kind, modes: seq<nat>, params: seq<real>, built: seq<real>) {

    /** The parameters the operation acts with when it is executed. */
    function Effective(): seq<real> {
      if IsMatrixGate(kind) then built else params
    }

    /** The homodyne selection, when there is one. */
    function Selection(): Option<real> {
      if kind == HomodyneSingleModeX && |params| == 1 then Some(params[0])
      else if kind == HomodyneSingleMode && |params| == 2 then Some(params[1])
      else None
    }

    predicate SameShape(that: Op) {
      kind == that.kind && modes == that.modes && built == that.built && |params| == |that.params|
    }
  }

  function Emplace(kind: Kind, modes: seq<nat>, params: seq<real>): Op {
    Op(kind, modes, params, params)
  }

  function ModeCount(kind: Kind): nat {
    if IsBinaryGate(kind) then 2 else 1
  }

  predicate ArityOk(kind: Kind, n: nat) {
    match kind
    case Displacement => n == 2
    case PhaseRotation => n == 1
    case Squeezing => n == 1
    case Squeezing45 => n == 1
    case ShearXInvariant => n == 1
    case ShearPInvariant => n == 1
    case Arbitrary => n == 3
    case BeamSplitter => n == 2
    case BeamSplitter50 => n == 0
    case BeamSplitterStd => n == 2
    case ControlledZ => n == 1
    case TwoModeShear => n == 2
    case Manual => n == 4
    case HomodyneSingleModeX => n <= 1
    case HomodyneSingleMode => n == 1 || n == 2
    case ReplaceBySqueezedState => n == 2
  }

  /** The checks the constructors make: sizes, distinct modes, and the parameter ranges. */
  predicate Constructible(f: Functions, kind: Kind, modes: seq<nat>, params: seq<real>) {
    && |modes| == ModeCount(kind)
    && ArityOk(kind, |params|)
    && (IsBinaryGate(kind) ==> modes[0] != modes[1])
    && (match kind
        case Squeezing => !f.EquivModPi(params[0], 0.0)
        case Squeezing45 => !f.EquivModPi(params[0], 0.0)
        case BeamSplitter => 0.0 <= params[0] <= 1.0
        case Manual => !f.EquivModPi(params[0], params[1]) && !f.EquivModPi(params[2], params[3])
        case _ => true)
  }

  // ----- operation matrices -----

  /** [[a, b], [c, d]]; as a gate it acts on (x, p). */
  datatype Mat2 = Mat2(a: real, b: real, c: real, d: real)

  /** A row or a column, in the order x0, x1, p0, p1 of two modes. */
  datatype Vec4 = Vec4(x0: real, x1: real, p0: real, p1: real)

  /** The rows. */
  datatype Mat4 = Mat4(x0: Vec4, x1: Vec4, p0: Vec4, p1: Vec4)

  /** Division, with an irrelevant value where the constructor has excluded a zero divisor. */
  function Quotient(a: real, b: real): real {
    if b == 0.0 then 0.0 else a / b
  }

  function Mul2(m: Mat2, n: Mat2): Mat2 {
    Mat2(m.a * n.a + m.b * n.c, m.a * n.b + m.b * n.d, m.c * n.a + m.d * n.c, m.c * n.b + m.d * n.d)
  }

  function Transpose2(m: Mat2): Mat2 { Mat2(m.a, m.c, m.b, m.d) }

  function Dot4(u: Vec4, v: Vec4): real {
    u.x0 * v.x0 + u.x1 * v.x1 + u.p0 * v.p0 + u.p1 * v.p1
  }

  /** Matrix times column. */
  function Apply4(m: Mat4, v: Vec4): Vec4 {
    Vec4(Dot4(m.x0, v), Dot4(m.x1, v), Dot4(m.p0, v), Dot4(m.p1, v))
  }

  function Transpose4(m: Mat4): Mat4 {
    Mat4(Vec4(m.x0.x0, m.x1.x0, m.p0.x0, m.p1.x0), Vec4(m.x0.x1, m.x1.x1, m.p0.x1, m.p1.x1),
         Vec4(m.x0.p0, m.x1.p0, m.p0.p0, m.p1.p0), Vec4(m.x0.p1, m.x1.p1, m.p0.p1, m.p1.p1))
  }

  function Mul4(m: Mat4, n: Mat4): Mat4 {
    var t := Transpose4(n);
    Mat4(Apply4(t, m.x0), Apply4(t, m.x1), Apply4(t, m.p0), Apply4(t, m.p1))
  }

  function Scale2(m: Mat2, k: real): Mat2 {
    Mat2(m.a * k, m.b * k, m.c * k, m.d * k)
  }

  function ScaleVec4(v: Vec4, k: real): Vec4 {
    Vec4(v.x0 * k, v.x1 * k, v.p0 * k, v.p1 * k)
  }

  function Scale4(m: Mat4, k: real): Mat4 {
    Mat4(ScaleVec4(m.x0, k), ScaleVec4(m.x1, k), ScaleVec4(m.p0, k), ScaleVec4(m.p1, k))
  }

  /** [[diag, off], [-off, diag]] */
  function Blocks(diag: Mat2, off: Mat2): Mat4 {
    Mat4(Vec4(diag.a, diag.b, off.a, off.b), Vec4(diag.c, diag.d, off.c, off.d),
         Vec4(-off.a, -off.b, diag.a, diag.b), Vec4(-off.c, -off.d, diag.c, diag.d))
  }

  const ZERO2: Mat2 := Mat2(0.0, 0.0, 0.0, 0.0)

  function Rotation(f: Functions, phi: real): Mat2 {
    Mat2(f.cos(phi), -f.sin(phi), f.sin(phi), f.cos(phi))
  }

  function ArbitraryMatrix(f: Functions, alpha: real, beta: real, lambda: real): Mat2 {
    Mul2(Mul2(Rotation(f, alpha), Mat2(f.exp(-lambda), 0.0, 0.0, f.exp(lambda))), Rotation(f, beta))
  }

  /** The beam splitter matrix as a function of the sines and cosines of its two angles. */
  function BeamSplitterBlocks(sp: real, sm: real, cp: real, cm: real): Mat4 {
    Blocks(Mat2(cp * cm, sp * sm, sp * sm, cp * cm), Mat2(-sp * cm, sm * cp, sm * cp, -sp * cm))
  }

  function BeamSplitterMatrix(f: Functions, sqrtR: real, thetaRel: real): Mat4 {
    var alpha := (thetaRel + f.acos(sqrtR)) / 2.0;
    var beta := (thetaRel - f.acos(sqrtR)) / 2.0;
    BeamSplitterBlocks(f.sin(alpha + beta), f.sin(alpha - beta), f.cos(alpha + beta), f.cos(alpha - beta))
  }

  function BeamSplitter50Matrix(f: Functions): Mat4 {
    Blocks(Scale2(Mat2(1.0, -1.0, 1.0, 1.0), f.invSqrt2), ZERO2)
  }

  function BeamSplitterStdMatrix(f: Functions, theta: real, phi: real): Mat4 {
    var st := f.sin(theta);
    var sp := f.sin(phi);
    var ct := f.cos(theta);
    var cp := f.cos(phi);
    Blocks(Mat2(ct, -st * cp, st * cp, ct), Mat2(0.0, -st * sp, -st * sp, 0.0))
  }

  function VMatrix(c1: real, s1: real, c2: real, s2: real, det: real): Mat2 {
    Scale2(Mul2(Mat2(c2, c1, s2, s1), Mat2(s1, c1, s2, c2)), Quotient(-1.0, det))
  }

  /** `Manual::V(theta_1, theta_2)`. */
  function V(f: Functions, theta1: real, theta2: real): Mat2 {
    VMatrix(f.cos(theta1), f.sin(theta1), f.cos(theta2), f.sin(theta2), f.sin(theta2 - theta1))
  }

  /** A 2x2 matrix acting on (x0, p0). */
  function OnMode0(v: Mat2): Mat4 {
    Mat4(Vec4(v.a, 0.0, v.b, 0.0), Vec4(0.0, 1.0, 0.0, 0.0), Vec4(v.c, 0.0, v.d, 0.0), Vec4(0.0, 0.0, 0.0, 1.0))
  }

  /** A 2x2 matrix acting on (x1, p1). */
  function OnMode1(v: Mat2): Mat4 {
    Mat4(Vec4(1.0, 0.0, 0.0, 0.0), Vec4(0.0, v.a, 0.0, v.b), Vec4(0.0, 0.0, 1.0, 0.0), Vec4(0.0, v.c, 0.0, v.d))
  }

  const DOWN: Mat4 := Blocks(Mat2(1.0, -1.0, 1.0, 1.0), ZERO2)
  const UP: Mat4 := Blocks(Mat2(1.0, 1.0, -1.0, 1.0), ZERO2)

  function ManualMatrix(f: Functions, a: real, b: real, c: real, d: real): Mat4 {
    Scale4(Mul4(Mul4(Mul4(UP, OnMode0(V(f, b, a))), OnMode1(V(f, d, c))), DOWN), 0.5)
  }

  /** The matrix `SetMatrix` of a single-mode gate computes. */
  function UnaryMatrix(f: Functions, kind: Kind, p: seq<real>): Mat2
    requires IsUnaryGate(kind) && ArityOk(kind, |p|)
  {
    match kind
    case PhaseRotation => Rotation(f, p[0])
    case Squeezing => var t := f.tan(p[0]); Mat2(0.0, Quotient(1.0, t), -t, 0.0)
    case Squeezing45 =>
      var t := f.tan(p[0]);
      var d := (t + Quotient(1.0, t)) / 2.0;
      var od := (Quotient(1.0, t) - t) / 2.0;
      Mat2(d, od, od, d)
    case ShearXInvariant => Mat2(1.0, 0.0, 2.0 * p[0], 1.0)
    case ShearPInvariant => Mat2(1.0, 2.0 * p[0], 0.0, 1.0)
    case Arbitrary => ArbitraryMatrix(f, p[0], p[1], p[2])
  }

  /** The matrix `SetMatrix` of a two-mode gate computes. */
  function BinaryMatrix(f: Functions, kind: Kind, p: seq<real>): Mat4
    requires IsBinaryGate(kind) && ArityOk(kind, |p|)
  {
    match kind
    case BeamSplitter => BeamSplitterMatrix(f, p[0], p[1])
    case BeamSplitter50 => BeamSplitter50Matrix(f)
    case BeamSplitterStd => BeamSplitterStdMatrix(f, p[0], p[1])
    case ControlledZ =>
      Mat4(Vec4(1.0, 0.0, 0.0, 0.0), Vec4(0.0, 1.0, 0.0, 0.0), Vec4(0.0, p[0], 1.0, 0.0), Vec4(p[0], 0.0, 0.0, 1.0))
    case TwoModeShear =>
      Mat4(Vec4(1.0, 0.0, 0.0, 0.0), Vec4(0.0, 1.0, 0.0, 0.0),
           Vec4(2.0 * p[0], p[1], 1.0, 0.0), Vec4(p[1], 2.0 * p[0], 0.0, 1.0))
    case Manual => ManualMatrix(f, p[0], p[1], p[2], p[3])
  }
}
