/** What nonlinear feedforward of a graph program reads and writes, in terms of the modes its operations act on. */
module GraphFeeding {
  import opened Elementary
  import opened Operations
  import opened Engine
  import opened CircuitObject
  import opened Resolution
  import opened GraphProgram
  import opened GraphFeedForward
  import opened GraphCircuitBuilder
  import opened GraphResult
  import opened GraphRuns

  // ----- the operations of a macronode -----

  function ModesOfMember(shape: Shape, j: nat, up: nat, left: nat): seq<nat> {
    match shape
    case UnaryShape(_) => if j < 2 then [up] else [left]
    case BinaryShape(_) => if j == 0 then [up] else if j == 1 then [left] else [up, left]
    case MeasurementShape => if j < 3 then [up] else [left]
    case _ => if j == 0 then [up] else [left]
  }

  lemma {:induction false} MemberModes(f: Functions, op: GraphOperation, up: nat, left: nat, level: real, j: nat)
    requires Group(f, op, up, left, level).Some? && j < GroupSize(ShapeOf(op.type_))
    ensures j < |Group(f, op, up, left, level).value|
    ensures Group(f, op, up, left, level).value[j].modes == ModesOfMember(ShapeOf(op.type_), j, up, left)
  {
  }

  ghost predicate InMacronode(sorted: seq<GraphOperation>, m: nat, i: nat) {
    First(sorted, m) <= i < First(sorted, m + 1)
  }

  /** Operation j of macronode m: its kind and its modes. */
  lemma {:induction false} MemberIs(f: Functions, g: Graph, sorted: seq<GraphOperation>, level: real, m: nat, j: nat)
    requires g.Valid() && GroupsOk(f, g.n, sorted, level, g.Total()) && m < g.Total()
    ensures InMacronode(sorted, m, First(sorted, m) + j) <==> j < GroupSize(ShapeOf(OpFor(sorted, m).type_))
    ensures InMacronode(sorted, m, First(sorted, m) + j) ==>
              var shape, i := ShapeOf(OpFor(sorted, m).type_), First(sorted, m) + j;
              && i < |Ops(f, g, sorted, level)| && Ops(f, g, sorted, level)[i].kind == KindOfMember(shape, j)
              && Ops(f, g, sorted, level)[i].modes == ModesOfMember(shape, j, UpMode(g.n, sorted, m), LeftMode(g.n, sorted, m))
  {
    hide OpFor, UpMode, LeftMode, Group, AllConstructible, GroupSize, KindOfMember, ModesOfMember, ShapeOf, First, ParamCount;
    var op, up, left := OpFor(sorted, m), UpMode(g.n, sorted, m), LeftMode(g.n, sorted, m);
    GroupOkMeans(f, g.n, sorted, level, m);
    assert GroupOk(f, g.n, sorted, level, m);
    SizeIsStep(sorted, m, f, up, left, level);
    if j < GroupSize(ShapeOf(op.type_)) {
      MacronodeMember(f, g, sorted, level, m, j);
      MemberModes(f, op, up, left, level, j);
      GraphOpsAt(f, g.n, sorted, level, g.Total(), m, j);
    }
  }

  // ----- the target parameters -----

  /** Parameter `param` of an operation of this kind on these modes is what parameter q of a graph operation
      means: the gate's own parameter, the angle of a measurement and of the replacement after it, or (from 4
      on) x and p of the displacement of the up mode and x and p of the displacement of the left mode. */
  predicate Names(kind: Kind, modes: seq<nat>, up: nat, left: nat, q: nat, param: nat) {
    if q < 4 then
      kind != Displacement && param == (if kind == HomodyneSingleMode then 0 else if kind == ReplaceBySqueezedState then 1 else q)
    else kind == Displacement && modes == [if q < 6 then up else left] && param == q % 2
  }

  ghost predicate IsTarget(g: Graph, sorted: seq<GraphOperation>, ops: seq<Op>, m: nat, q: nat, t: ParamIdx)
    requires g.Valid()
  {
    && InMacronode(sorted, m, t.op) && t.op < |ops|
    && Names(ops[t.op].kind, ops[t.op].modes, UpMode(g.n, sorted, m), LeftMode(g.n, sorted, m), q, t.param)
  }

  function TargetList(shape: Shape, first: nat, q: nat): seq<ParamIdx> {
    if q < 4 then
      match shape
      case UnaryShape(_) => [ParamIdx(first + 1, q), ParamIdx(first + 3, q)]
      case BinaryShape(_) => [ParamIdx(first + 2, q)]
      case MeasurementShape => [ParamIdx(first + 1, 0), ParamIdx(first + 2, 1), ParamIdx(first + 4, 0), ParamIdx(first + 5, 1)]
      case _ => []
    else if q < 6 then [ParamIdx(first, q - 4)]
    else [ParamIdx(first + (match shape case UnaryShape(_) => 2 case MeasurementShape => 3 case _ => 1), q - 6)]
  }

  lemma {:induction false} TargetsAre(g: Graph, sorted: seq<GraphOperation>, i: nat)
    requires i < |g.nlffs| && Resolves(g, sorted, i)
    ensures var nlff := g.nlffs[i];
      && nlff.toMacronode < g.Total() && nlff.toParameter < 8
      && Targets(g, sorted, i) == TargetList(ShapeOf(OpFor(sorted, nlff.toMacronode).type_), First(sorted, nlff.toMacronode), nlff.toParameter)
  {
    hide OpFor, First, SourceOp;
    assert Records(sorted, g.Total())[g.nlffs[i].toMacronode] == RecordOf(sorted, g.nlffs[i].toMacronode);
  }

  lemma {:induction false} ListNames(type_: OperationType, first: nat, q: nat, j: nat, param: nat, up: nat, left: nat)
    requires j < GroupSize(ShapeOf(type_)) && q < 8 && up != left
    ensures var shape := ShapeOf(type_);
      ParamIdx(first + j, param) in TargetList(shape, first, q)
      <==> Names(KindOfMember(shape, j), ModesOfMember(shape, j, up, left), up, left, q, param)
  {
  }

  lemma {:induction false} ListWithin(type_: OperationType, first: nat, q: nat, t: ParamIdx)
    requires q < 8 && t in TargetList(ShapeOf(type_), first, q)
    ensures first <= t.op < first + GroupSize(ShapeOf(type_))
  {
  }

  /** The parameters a nonlinear feedforward resolves to are exactly the ones its target means. */
  lemma {:induction false} TargetsExactly(f: Functions, g: Graph, sorted: seq<GraphOperation>, level: real, i: nat, t: ParamIdx)
    requires g.Valid() && GroupsOk(f, g.n, sorted, level, g.Total()) && i < |g.nlffs| && Resolves(g, sorted, i)
    ensures t in Targets(g, sorted, i) <==> IsTarget(g, sorted, Ops(f, g, sorted, level), g.nlffs[i].toMacronode, g.nlffs[i].toParameter, t)
  {
    hide OpFor, UpMode, LeftMode, GroupSize, KindOfMember, ModesOfMember, ShapeOf, First, GroupsOk, Ops, Names, TargetList, Resolves, Targets, Graph.Valid;
    var m, q := g.nlffs[i].toMacronode, g.nlffs[i].toParameter;
    TargetsAre(g, sorted, i);
    var type_, first, up, left := OpFor(sorted, m).type_, First(sorted, m), UpMode(g.n, sorted, m), LeftMode(g.n, sorted, m);
    OneSize(g);
    ModesDiffer(g.n, sorted, m);
    if t in TargetList(ShapeOf(type_), first, q) {
      ListWithin(type_, first, q, t);
    }
    if first <= t.op {
      MemberIs(f, g, sorted, level, m, t.op - first);
      if t.op - first < GroupSize(ShapeOf(type_)) {
        ListNames(type_, first, q, t.op - first, t.param, up, left);
      }
    }
  }

  lemma {:induction false} OneSize(g: Graph)
    requires g.Valid()
    ensures g.n >= 1
  {
  }

  // ----- the source -----

  /** The measurement of macronode m on the mode that comes from up (for 0) or from left. */
  ghost predicate IsSource(g: Graph, sorted: seq<GraphOperation>, ops: seq<Op>, m: nat, fromBd: nat, s: nat)
    requires g.Valid()
  {
    && InMacronode(sorted, m, s) && s < |ops| && IsMeasurement(ops[s].kind)
    && ops[s].modes == [if fromBd == 0 then UpMode(g.n, sorted, m) else LeftMode(g.n, sorted, m)]
  }

  lemma {:induction false} MeasurementMember(shape: Shape, j: nat, up: nat, left: nat, m: nat)
    requires shape.MeasurementShape? && j < 6 && up != left && m in {up, left}
    ensures IsMeasurement(KindOfMember(shape, j)) && ModesOfMember(shape, j, up, left) == [m] <==> j == if m == up then 1 else 4
  {
  }

  lemma {:induction false} SourceExactly(f: Functions, g: Graph, sorted: seq<GraphOperation>, level: real, i: nat, s: nat)
    requires g.Valid() && GroupsOk(f, g.n, sorted, level, g.Total()) && i < |g.nlffs| && Resolves(g, sorted, i)
    ensures s == Source(g, sorted, i) <==> IsSource(g, sorted, Ops(f, g, sorted, level), g.nlffs[i].fromMacronode, g.nlffs[i].fromBd, s)
  {
    hide OpFor, UpMode, LeftMode, KindOfMember, ModesOfMember, ShapeOf, First, GroupsOk, Ops, Resolves, Source, Graph.Valid;
    var m := g.nlffs[i].fromMacronode;
    SourceRecord(g, sorted, i);
    var first, up, left := First(sorted, m), UpMode(g.n, sorted, m), LeftMode(g.n, sorted, m);
    OneSize(g);
    ModesDiffer(g.n, sorted, m);
    if first <= s {
      MemberIs(f, g, sorted, level, m, s - first);
      if s - first < 6 {
        MeasurementMember(ShapeOf(OpFor(sorted, m).type_), s - first, up, left, if g.nlffs[i].fromBd == 0 then up else left);
      }
    }
  }

  // ----- every run -----

  /** Parameter t ends as the function of the value measured by operation s, a quarter turn back in a replacement. */
  ghost predicate Passes(f: Functions, ops: seq<Op>, measured: map<nat, real>, func: seq<real> -> real, s: nat, t: ParamIdx) {
    && s in measured && HasParam(ops, t)
    && Param(ops, t) == func([measured[s]]) - (if ops[t.op].kind == ReplaceBySqueezedState then f.halfPi else 0.0)
  }

  lemma {:induction false} OnePasses(
    f: Functions, g: Graph, sorted: seq<GraphOperation>, level: real, ffs: seq<FeedForward>, fin: seq<Op>, measured: map<nat, real>, i: nat, t: ParamIdx)
    requires g.Valid() && GraphCompiles(f, g, sorted, level) && IsGraphFFs(f, g, sorted, level, ffs)
    requires LeftBy(Ops(f, g, sorted, level), ffs, fin, measured)
    requires i < |g.nlffs| && Resolves(g, sorted, i) && !Stored(g, sorted, i) && t in Targets(g, sorted, i)
    ensures Passes(f, fin, measured, Func(g, i), Source(g, sorted, i), t)
  {
    hide GraphCompiles, IsGraphFFs, LeftBy, Resolves, Stored, Targets, Source, Func, GroupsOk, GraphOps;
    CompiledMeans(f, g, sorted, level);
    var ops := Ops(f, g, sorted, level);
    var j :| 0 <= j < |Targets(g, sorted, i)| && Targets(g, sorted, i)[j] == t;
    DirectLeaves(f, g, sorted, level, ffs, fin, measured, i, j);
    LeftByShapes(ops, ffs, fin, measured);
    assert ops[t.op].SameShape(fin[t.op]);
  }

  /** In every run of the circuit of a graph program, whatever the state, every parameter that a nonlinear
      feedforward means ends as its function of the value measured, in its source macronode, on the mode it
      names.  (Parameters of Arbitrary operations enter their Manual gates instead, see `ManualAnglesFollow`.) */
  lemma {:induction false} FeedsMeaning<Peak, Rng, Sample>(
    kernel: Kernel<Peak, Rng, Sample>, f: Functions, g: Graph, sorted: seq<GraphOperation>, level: real, ffs: seq<FeedForward>, s: Exec<Peak, Rng>,
    i: nat, source: nat, t: ParamIdx)
    requires g.Valid() && GraphCompiles(f, g, sorted, level) && IsGraphFFs(f, g, sorted, level, ffs)
    requires Forward(g) && TargetsFit(g, sorted) && ParametersExist(g, sorted)
    requires s.ops == Ops(f, g, sorted, level) && s.measured == map[] && i < |g.nlffs| && !Stored(g, sorted, i)
    requires IsSource(g, sorted, s.ops, g.nlffs[i].fromMacronode, g.nlffs[i].fromBd, source)
    requires IsTarget(g, sorted, s.ops, g.nlffs[i].toMacronode, g.nlffs[i].toParameter, t)
    ensures Execute(kernel, ffs, s).Some?
    ensures Passes(f, Final(kernel, ffs, s).ops, Final(kernel, ffs, s).measured, g.functions[g.nlffs[i].function_], source, t)
  {
    hide *;
    CompiledMeans(f, g, sorted, level);
    OneResolves(g, sorted, i);
    GraphWellFormed(f, g, sorted, level, ffs);
    FinalParameters(kernel, ffs, s);
    SourceExactly(f, g, sorted, level, i, source);
    TargetsExactly(f, g, sorted, level, i, t);
    OnePasses(f, g, sorted, level, ffs, Final(kernel, ffs, s).ops, Final(kernel, ffs, s).measured, i, t);
    FuncIs(g, i);
  }

  lemma {:induction false} OneResolves(g: Graph, sorted: seq<GraphOperation>, i: nat)
    requires AllResolve(g, sorted, |g.nlffs|) && i < |g.nlffs|
    ensures Resolves(g, sorted, i)
  {
    hide Resolves;
  }

  lemma {:induction false} FuncIs(g: Graph, i: nat)
    requires g.Valid() && i < |g.nlffs|
    ensures g.nlffs[i].function_ < |g.functions| && Func(g, i) == g.functions[g.nlffs[i].function_]
  {
  }

  /** The value a nonlinear feedforward reads from a readout macronode is the one the decoder reports: m_b for
      0, m_d otherwise. */
  lemma {:induction false} ReadsReported(
    f: Functions, g: Graph, sorted: seq<GraphOperation>, level: real, table: map<nat, Info>, measured: map<nat, real>,
    values: map<nat, MacronodeMeasuredValue>, i: nat, source: nat)
    requires g.Valid() && GroupsOk(f, g.n, sorted, level, g.Total()) && IsOpMap(sorted, g.Total(), table)
    requires forall j: nat :: j in measured <==> j < |Ops(f, g, sorted, level)| && IsMeasurement(Ops(f, g, sorted, level)[j].kind)
    requires Collected(table, measured, measured.Keys, values)
    requires i < |g.nlffs| && Resolves(g, sorted, i) && IsReadout(sorted, g.nlffs[i].fromMacronode)
    requires IsSource(g, sorted, Ops(f, g, sorted, level), g.nlffs[i].fromMacronode, g.nlffs[i].fromBd, source)
    ensures g.nlffs[i].fromMacronode in values && source in measured
    ensures var v := values[g.nlffs[i].fromMacronode];
      measured[source] == if g.nlffs[i].fromBd == 0 then v.mB else v.mD
  {
    hide First, GroupsOk, GraphOps, IsReadout, IsOpMap, Collected, Resolves, Source, IsSource, OpFor;
    OneSize(g);
    SourceExactly(f, g, sorted, level, i, source);
    SourceRecord(g, sorted, i);
    ReportsReadouts(f, g.n, sorted, level, g.Total(), table, measured, values, g.nlffs[i].fromMacronode);
  }
}
