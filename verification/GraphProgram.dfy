/** Graph programs and the circuit operations each of their macronodes stands for. */
module GraphProgram {
  import opened Arithmetic
  import opened Elementary
  import opened Operations
  import opened Points

  datatype OperationType =
    | UnspecifiedType
    | Measurement
    | Initialization
    | PhaseRotationType
    | ShearXInvariantType
    | ShearPInvariantType
    | SqueezingType
    | Squeezing45Type
    | ArbitraryFirst
    | ArbitrarySecond
    | ControlledZType
    | BeamSplitterType
    | TwoModeShearType
    | ManualType
    | Wiring

  datatype GraphOperation = GraphOperation(
    type_: OperationType,
    macronode: nat,
    swap: bool,
    parameters: seq<real>,
    displacement1: Option<Quad>,
    displacementN: Option<Quad>,
    readout: bool)

  datatype GraphFF = GraphFF(function_: nat, fromMacronode: nat, fromBd: nat, toMacronode: nat, toParameter: nat)

  datatype Graph = Graph(
    n: nat,
    steps: nat,
    operations: seq<GraphOperation>,
    nlffs: seq<GraphFF>,
    functions: seq<seq<real> -> real>)
  {
    function Total(): nat { n * steps }

    predicate Valid() {
      n >= 1 && forall i | 0 <= i < |nlffs| :: nlffs[i].function_ < |functions|
    }
  }

  /** There are as many macronodes as fit in the steps. */
  lemma {:induction false} TotalExactly(g: Graph, k: nat)
    requires g.n >= 1
    ensures k < g.Total() <==> k / g.n < g.steps
  {
    StepsTimes(g.n, g.steps, k);
  }

  // ----- operations sorted by macronode -----

  ghost predicate Sorted(ops: seq<GraphOperation>) {
    forall i, j | 0 <= i < j < |ops| :: ops[i].macronode <= ops[j].macronode
  }

  lemma {:induction false} Inserted(s: seq<GraphOperation>, x: GraphOperation, j: nat)
    requires Sorted(s) && j <= |s|
    requires forall l | 0 <= l < j :: s[l].macronode <= x.macronode
    requires j < |s| ==> x.macronode <= s[j].macronode
    ensures Sorted(s[..j] + [x] + s[j..]) && multiset(s[..j] + [x] + s[j..]) == multiset(s) + multiset{x}
  {
    assert s == s[..j] + s[j..];
    assert multiset(s) == multiset(s[..j]) + multiset(s[j..]);
  }

  method Insert(s: seq<GraphOperation>, x: GraphOperation) returns (r: seq<GraphOperation>)
    requires Sorted(s)
    ensures Sorted(r) && multiset(r) == multiset(s) + multiset{x}
  {
    var j := 0;
    while j < |s| && s[j].macronode <= x.macronode
      invariant 0 <= j <= |s| && forall l | 0 <= l < j :: s[l].macronode <= x.macronode
    {
      j := j + 1;
    }
    Inserted(s, x, j);
    r := s[..j] + [x] + s[j..];
  }

  /** What `std::sort` by macronode does. */
  method SortByMacronode(ops: seq<GraphOperation>) returns (r: seq<GraphOperation>)
    ensures Sorted(r) && multiset(r) == multiset(ops)
  {
    r := [];
    for i := 0 to |ops|
      invariant Sorted(r) && multiset(r) == multiset(ops[..i])
    {
      assert ops[..i + 1] == ops[..i] + [ops[i]];
      r := Insert(r, ops[i]);
    }
    assert ops[..|ops|] == ops;
  }

  ghost predicate DistinctMacronodes(ops: seq<GraphOperation>) {
    forall i, j | 0 <= i < |ops| && 0 <= j < |ops| && i != j :: ops[i].macronode != ops[j].macronode
  }

  lemma {:induction false} SameHead(a: seq<GraphOperation>, b: seq<GraphOperation>)
    requires a != [] && b != []
    requires Sorted(a) && Sorted(b) && multiset(a) == multiset(b) && DistinctMacronodes(a)
    ensures a[0] == b[0]
  {
    assert a[0] in multiset(b) && b[0] in multiset(a);
    var i :| 0 <= i < |a| && a[i] == b[0];
    var j :| 0 <= j < |b| && b[j] == a[0];
    assert a[0].macronode <= a[i].macronode;
    assert b[0].macronode <= b[j].macronode;
  }

  lemma {:induction false} SameTails(a: seq<GraphOperation>, b: seq<GraphOperation>)
    requires a != [] && b != [] && a[0] == b[0] && multiset(a) == multiset(b)
    ensures multiset(a[1..]) == multiset(b[1..])
  {
    assert a == [a[0]] + a[1..] && b == [b[0]] + b[1..];
    assert multiset(a[1..]) == multiset(a) - multiset{a[0]} && multiset(b[1..]) == multiset(b) - multiset{b[0]};
  }

  lemma {:induction false} TailSorted(a: seq<GraphOperation>)
    requires a != [] && Sorted(a)
    ensures Sorted(a[1..]) && (DistinctMacronodes(a) ==> DistinctMacronodes(a[1..]))
  {
  }

  /** With distinct macronodes there is only one result of sorting, so everyone who sorts agrees. */
  lemma {:induction false} SortedUnique(a: seq<GraphOperation>, b: seq<GraphOperation>)
    requires Sorted(a) && Sorted(b) && multiset(a) == multiset(b) && DistinctMacronodes(a)
    ensures a == b
  {
    assert |multiset(a)| == |a| && |multiset(b)| == |b|;
    hide Sorted, DistinctMacronodes;
    if a != [] {
      SameHead(a, b);
      SameTails(a, b);
      TailSorted(a);
      TailSorted(b);
      SortedUnique(a[1..], b[1..]);
      assert a == [a[0]] + a[1..] && b == [b[0]] + b[1..];
    }
  }

  // ----- the operation of each macronode -----

  /** The index of the next graph operation when the loop over macronodes reaches m. */
  function OpIndex(sorted: seq<GraphOperation>, m: nat): (i: nat)
    ensures i <= |sorted|
  {
    if m == 0 then 0
    else
      var i := OpIndex(sorted, m - 1);
      if i < |sorted| && sorted[i].macronode == m - 1 then i + 1 else i
  }

  predicate HasOp(sorted: seq<GraphOperation>, m: nat) {
    OpIndex(sorted, m) < |sorted| && sorted[OpIndex(sorted, m)].macronode == m
  }

  function WiringThrough(m: nat): GraphOperation {
    GraphOperation(Wiring, m, false, [], Some(Quad(0.0, 0.0)), Some(Quad(0.0, 0.0)), false)
  }

  /** The operation of macronode m; a macronode without one is wired through. */
  function OpFor(sorted: seq<GraphOperation>, m: nat): (op: GraphOperation)
    ensures op.macronode == m
  {
    if HasOp(sorted, m) then sorted[OpIndex(sorted, m)] else WiringThrough(m)
  }

  lemma {:induction false} OpIndexCounts(sorted: seq<GraphOperation>, m: nat)
    requires Sorted(sorted) && DistinctMacronodes(sorted)
    ensures forall i | 0 <= i < OpIndex(sorted, m) :: sorted[i].macronode < m
    ensures forall i | OpIndex(sorted, m) <= i < |sorted| :: sorted[i].macronode >= m
  {
    if m > 0 {
      OpIndexCounts(sorted, m - 1);
    }
  }

  /** After two operations for one macronode the loop finds no operation any more, and wires every later
      macronode through. */
  lemma {:induction false} DuplicateBlocks(sorted: seq<GraphOperation>, i: nat, m: nat)
    requires Sorted(sorted) && i + 1 < |sorted| && sorted[i].macronode == sorted[i + 1].macronode < m
    ensures OpIndex(sorted, m) <= i + 1 && !HasOp(sorted, m) && OpFor(sorted, m) == WiringThrough(m)
  {
    if m == sorted[i].macronode + 1 {
      Consumed(sorted, m - 1);
    } else {
      DuplicateBlocks(sorted, i, m - 1);
    }
  }

  lemma {:induction false} Consumed(sorted: seq<GraphOperation>, m: nat)
    ensures forall i | 0 <= i < OpIndex(sorted, m) :: sorted[i].macronode < m
  {
    if m > 0 {
      Consumed(sorted, m - 1);
    }
  }

  /** Every graph operation is the operation of its macronode. */
  lemma {:induction false} NoneIsSkipped(sorted: seq<GraphOperation>, i: nat)
    requires Sorted(sorted) && DistinctMacronodes(sorted) && i < |sorted|
    ensures HasOp(sorted, sorted[i].macronode) && OpFor(sorted, sorted[i].macronode) == sorted[i]
  {
    var m := sorted[i].macronode;
    OpIndexCounts(sorted, m);
    assert OpIndex(sorted, m) <= i;
    assert sorted[OpIndex(sorted, m)].macronode <= m;
  }

  // ----- parameters -----

  function FirstAngles(f: Functions, p: seq<real>, swap: bool): seq<real>
    requires |p| == 3
  {
    var minus, plus := p[1] - f.atan(f.exp(p[2])), p[1] + f.atan(f.exp(p[2]));
    if swap then [plus, minus, minus, plus] else [minus, plus, minus, plus]
  }

  function SecondAngles(f: Functions, p: seq<real>, swap: bool): seq<real>
    requires |p| == 3
  {
    var minus, plus := 0.5 * (p[0] - p[1]) - 0.5 * f.halfPi, 0.5 * (p[0] - p[1]) + 0.5 * f.halfPi;
    if swap then [minus, plus, plus, minus] else [plus, minus, plus, minus]
  }

  /** `CalcCircuitOpParams`; None where it throws. */
  function CircuitOpParams(f: Functions, op: GraphOperation): Option<seq<real>> {
    match op.type_
    case ArbitraryFirst => if |op.parameters| == 3 then Some(FirstAngles(f, op.parameters, op.swap)) else None
    case ArbitrarySecond => if |op.parameters| == 3 then Some(SecondAngles(f, op.parameters, op.swap)) else None
    case _ => Some(op.parameters)
  }

  function DisplacementParams(d: Option<Quad>): seq<real> {
    if d.Some? then [d.value.x, d.value.p] else [0.0, 0.0]
  }

  // ----- groups of circuit operations -----

  datatype Shape = UnaryShape(kind: Kind) | BinaryShape(kind: Kind) | MeasurementShape | WiringShape | Unsupported

  function ShapeOf(type_: OperationType): Shape {
    match type_
    case PhaseRotationType => UnaryShape(PhaseRotation)
    case ShearXInvariantType => UnaryShape(ShearXInvariant)
    case ShearPInvariantType => UnaryShape(ShearPInvariant)
    case SqueezingType => UnaryShape(Squeezing)
    case Squeezing45Type => UnaryShape(Squeezing45)
    case ArbitraryFirst => BinaryShape(Manual)
    case ArbitrarySecond => BinaryShape(Manual)
    case ControlledZType => BinaryShape(ControlledZ)
    case BeamSplitterType => BinaryShape(BeamSplitter)
    case TwoModeShearType => BinaryShape(TwoModeShear)
    case ManualType => BinaryShape(Manual)
    case Wiring => WiringShape
    case Measurement => MeasurementShape
    case Initialization => MeasurementShape
    case UnspecifiedType => Unsupported
  }

  /** The operations a graph operation adds; level is the squeezing level of measurements. */
  function Group(f: Functions, op: GraphOperation, up: nat, left: nat, level: real): Option<seq<Op>> {
    var params := CircuitOpParams(f, op);
    var d1 := Emplace(Displacement, [up], DisplacementParams(op.displacement1));
    var dn := Emplace(Displacement, [left], DisplacementParams(op.displacementN));
    if params.None? then None
    else
      match ShapeOf(op.type_)
      case UnaryShape(kind) => Some([d1, Emplace(kind, [up], params.value), dn, Emplace(kind, [left], params.value)])
      case BinaryShape(kind) => Some([d1, dn, Emplace(kind, [up, left], params.value)])
      case WiringShape => Some([d1, dn])
      case MeasurementShape =>
        if |params.value| != 1 then None
        else
          var theta := params.value[0];
          Some([d1, Emplace(HomodyneSingleMode, [up], [theta]), Emplace(ReplaceBySqueezedState, [up], [level, theta - f.halfPi]),
                dn, Emplace(HomodyneSingleMode, [left], [theta]), Emplace(ReplaceBySqueezedState, [left], [level, theta - f.halfPi])])
      case Unsupported => None
  }

  /** `CountOperations`; None where it throws. */
  function CountOperations(type_: OperationType): Option<nat> {
    match type_
    case PhaseRotationType => Some(4)
    case ShearXInvariantType => Some(4)
    case ShearPInvariantType => Some(4)
    case SqueezingType => Some(4)
    case Squeezing45Type => Some(4)
    case ArbitraryFirst => Some(3)
    case ArbitrarySecond => Some(3)
    case ControlledZType => Some(3)
    case BeamSplitterType => Some(3)
    case TwoModeShearType => Some(3)
    case ManualType => Some(3)
    case Wiring => Some(2)
    case Initialization => Some(6)
    case Measurement => Some(6)
    case UnspecifiedType => None
  }

  /** The decoder's own count agrees with what the compiler adds. */
  lemma {:induction false} CountsAgree(f: Functions, op: GraphOperation, up: nat, left: nat, level: real)
    requires Group(f, op, up, left, level).Some?
    ensures CountOperations(op.type_) == Some(|Group(f, op, up, left, level).value|)
    ensures forall j | 0 <= j < |Group(f, op, up, left, level).value| ::
              IsMeasurement(Group(f, op, up, left, level).value[j].kind) <==> ShapeOf(op.type_).MeasurementShape? && j in {1, 4}
  {
  }

  // ----- routing -----

  /** `input_modes` before macronode m: the first is the mode coming from up, the others come from left. */
  function InputModes(n: nat, sorted: seq<GraphOperation>, m: nat): (r: seq<nat>)
    requires n >= 1
    ensures |r| == n + 1
  {
    if m == 0 then seq(n + 1, i => i)
    else
      var modes := InputModes(n, sorted, m - 1);
      if OpFor(sorted, m - 1).swap then
        var l := (m - 1) % n + 1;
        modes[0 := modes[l]][l := modes[0]]
      else modes
  }

  /** `input_modes` is always a permutation of 0 .. n. */
  lemma {:induction false} InputModesPermute(n: nat, sorted: seq<GraphOperation>, m: nat)
    requires n >= 1
    ensures forall i | 0 <= i <= n :: InputModes(n, sorted, m)[i] <= n
    ensures forall i, j | 0 <= i < j <= n :: InputModes(n, sorted, m)[i] != InputModes(n, sorted, m)[j]
    ensures multiset(InputModes(n, sorted, m)) == multiset(seq(n + 1, i => i))
  {
    if m > 0 {
      InputModesPermute(n, sorted, m - 1);
      var before, l := InputModes(n, sorted, m - 1), (m - 1) % n + 1;
      SwapKeeps(before, l);
    }
  }

  lemma {:induction false} SwapKeeps(s: seq<nat>, l: nat)
    requires 0 < l < |s|
    ensures multiset(s[0 := s[l]][l := s[0]]) == multiset(s)
  {
  }

  function UpMode(n: nat, sorted: seq<GraphOperation>, m: nat): nat
    requires n >= 1
  {
    InputModes(n, sorted, m)[0]
  }

  function LeftMode(n: nat, sorted: seq<GraphOperation>, m: nat): nat
    requires n >= 1
  {
    InputModes(n, sorted, m)[m % n + 1]
  }

  /** What comes from up at the next macronode: what macronode m sends down, exchanged with what came from
      left if its operation swaps. */
  lemma {:induction false} UpRouting(n: nat, sorted: seq<GraphOperation>, m: nat)
    requires n >= 1
    ensures UpMode(n, sorted, 0) == 0
    ensures UpMode(n, sorted, m + 1) == if OpFor(sorted, m).swap then LeftMode(n, sorted, m) else UpMode(n, sorted, m)
  {
    hide OpFor;
  }

  /** No macronode between m and m + d uses the slot macronode m left its other mode in. */
  lemma {:induction false} SlotWaits(n: nat, sorted: seq<GraphOperation>, m: nat, d: nat)
    requires n >= 1 && 1 <= d <= n
    ensures InputModes(n, sorted, m + d)[m % n + 1] == if OpFor(sorted, m).swap then UpMode(n, sorted, m) else LeftMode(n, sorted, m)
  {
    hide OpFor;
    if d > 1 {
      SlotWaits(n, sorted, m, d - 1);
      DifferentSlot(n, m, d - 1);
    }
  }

  lemma {:induction false} SameSlot(n: nat, m: nat)
    requires n >= 1
    ensures (m + n) % n == m % n
  {
    var q, r := m / n, m % n;
    assert m == n * q + r;
    assert n * (q + 1) == n * q + n;
    Remainder(n, m + n, q + 1, r);
  }

  lemma {:induction false} DifferentSlot(n: nat, m: nat, d: nat)
    requires n >= 1 && 1 <= d < n
    ensures (m + d) % n != m % n
  {
    var q, r := m / n, m % n;
    assert m == n * q + r;
    if r + d < n {
      Remainder(n, m + d, q, r + d);
    } else {
      assert n * (q + 1) == n * q + n;
      Remainder(n, m + d, q + 1, r + d - n);
    }
  }

  /** What comes from left n macronodes later: the mode macronode m sends to the right, exchanged with the one
      that came from up if its operation swaps. */
  lemma {:induction false} LeftRouting(n: nat, sorted: seq<GraphOperation>, m: nat)
    requires n >= 1
    ensures LeftMode(n, sorted, m + n) == if OpFor(sorted, m).swap then UpMode(n, sorted, m) else LeftMode(n, sorted, m)
  {
    SameSlot(n, m);
    hide OpFor, InputModes;
    SlotWaits(n, sorted, m, n);
  }

  /** A macronode without a graph operation keeps its two modes apart: up goes down and left goes right. */
  lemma {:induction false} WithoutOperation(n: nat, sorted: seq<GraphOperation>, m: nat)
    requires n >= 1 && !HasOp(sorted, m)
    ensures UpMode(n, sorted, m + 1) == UpMode(n, sorted, m) && LeftMode(n, sorted, m + n) == LeftMode(n, sorted, m)
  {
    assert !OpFor(sorted, m).swap;
    hide OpFor, HasOp, UpMode, LeftMode;
    UpRouting(n, sorted, m);
    LeftRouting(n, sorted, m);
  }

  /** A slot that no macronode has used yet holds the mode of its own number. */
  lemma {:induction false} SlotUnused(n: nat, sorted: seq<GraphOperation>, m: nat, l: nat)
    requires n >= 1 && m < l <= n
    ensures InputModes(n, sorted, m)[l] == l
  {
    hide OpFor;
    if m > 0 {
      SlotUnused(n, sorted, m - 1, l);
      Remainder(n, m - 1, 0, m - 1);
    }
  }

  /** The first n macronodes take the modes 1, ..., n from left. */
  lemma {:induction false} FirstFromLeft(n: nat, sorted: seq<GraphOperation>, m: nat)
    requires n >= 1 && m < n
    ensures LeftMode(n, sorted, m) == m + 1
  {
    SlotUnused(n, sorted, m, m + 1);
    assert m % n == m;
  }

  /** The operations of macronode m. */
  function GroupOf(f: Functions, n: nat, sorted: seq<GraphOperation>, level: real, m: nat): Option<seq<Op>>
    requires n >= 1
  {
    Group(f, OpFor(sorted, m), UpMode(n, sorted, m), LeftMode(n, sorted, m), level)
  }

  /** Every macronode before m compiles: the parameters fit and no constructor refuses them. */
  predicate GroupsOk(f: Functions, n: nat, sorted: seq<GraphOperation>, level: real, m: nat)
    requires n >= 1
  {
    forall l | 0 <= l < m :: GroupOk(f, n, sorted, level, l)
  }

  predicate GroupOk(f: Functions, n: nat, sorted: seq<GraphOperation>, level: real, m: nat)
    requires n >= 1
  {
    var g := GroupOf(f, n, sorted, level, m);
    g.Some? && forall j | 0 <= j < |g.value| :: Constructible(f, g.value[j].kind, g.value[j].modes, g.value[j].params)
  }

  /** The operations of the first m macronodes. */
  function GraphOps(f: Functions, n: nat, sorted: seq<GraphOperation>, level: real, m: nat): seq<Op>
    requires n >= 1 && GroupsOk(f, n, sorted, level, m)
  {
    if m == 0 then []
    else
      assert GroupOk(f, n, sorted, level, m - 1);
      GraphOps(f, n, sorted, level, m - 1) + GroupOf(f, n, sorted, level, m - 1).value
  }

  /** The index of the first operation of macronode m. */
  function First(sorted: seq<GraphOperation>, m: nat): nat {
    if m == 0 then 0
    else
      var count := CountOperations(OpFor(sorted, m - 1).type_);
      First(sorted, m - 1) + (if count.Some? then count.value else 0)
  }

  lemma {:induction false} FirstIsLength(f: Functions, n: nat, sorted: seq<GraphOperation>, level: real, m: nat)
    requires n >= 1 && GroupsOk(f, n, sorted, level, m)
    ensures |GraphOps(f, n, sorted, level, m)| == First(sorted, m)
  {
    if m > 0 {
      FirstIsLength(f, n, sorted, level, m - 1);
      assert GroupOk(f, n, sorted, level, m - 1);
      CountsAgree(f, OpFor(sorted, m - 1), UpMode(n, sorted, m - 1), LeftMode(n, sorted, m - 1), level);
    }
  }
}
