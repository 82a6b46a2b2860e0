/** What the feedforward of graph programs does in every run of their circuits. */
module GraphRuns {
  import opened Elementary
  import opened Operations
  import opened Engine
  import opened CircuitObject
  import opened Resolution
  import opened GraphProgram
  import opened GraphFeedForward
  import opened GraphCircuitBuilder
  import opened GraphResult

  // ----- the feedforwards, one by one -----

  ghost predicate IsDirect(f: Functions, g: Graph, sorted: seq<GraphOperation>, ops: seq<Op>, ff: FeedForward, i: nat, j: nat)
    requires g.Valid()
  {
    i < |g.nlffs| && Resolves(g, sorted, i) && !Stored(g, sorted, i) && j < |Targets(g, sorted, i)| && ff == FFTo(f, g, sorted, ops, i, j)
  }

  lemma {:induction false} DirectsAre(f: Functions, g: Graph, sorted: seq<GraphOperation>, ops: seq<Op>, i: nat, n: nat) returns (l: nat, j: nat)
    requires g.Valid() && i <= |g.nlffs| && AllResolve(g, sorted, i) && n < |Directs(f, g, sorted, ops, i)|
    ensures l < i && IsDirect(f, g, sorted, ops, Directs(f, g, sorted, ops, i)[n], l, j)
  {
    hide Resolves, Stored, FFTo, Targets;
    var front := Directs(f, g, sorted, ops, i - 1);
    if n < |front| {
      l, j := DirectsAre(f, g, sorted, ops, i - 1, n);
    } else {
      l, j := i - 1, n - |front|;
    }
  }

  lemma {:induction false} DirectIsThere(f: Functions, g: Graph, sorted: seq<GraphOperation>, ops: seq<Op>, i: nat, l: nat, j: nat)
    requires g.Valid() && l < i <= |g.nlffs| && AllResolve(g, sorted, i) && !Stored(g, sorted, l)
    requires Resolves(g, sorted, l) && j < |Targets(g, sorted, l)|
    ensures FFTo(f, g, sorted, ops, l, j) in Directs(f, g, sorted, ops, i)
  {
    hide Resolves, Stored, FFTo, Targets;
    if l < i - 1 {
      DirectIsThere(f, g, sorted, ops, i - 1, l, j);
    } else {
      assert Direct(f, g, sorted, ops, l)[j] == FFTo(f, g, sorted, ops, l, j);
    }
  }

  /** One of the four feedforwards into the Manual gate of an Arbitrary operation. */
  ghost predicate IsManual(f: Functions, sorted: seq<GraphOperation>, ff: FeedForward, m: nat, list: seq<Pending>, a: nat) {
    var op := OpFor(sorted, m);
    a < 4 && |op.parameters| == 3 && list != [] && !Irrelevant(list, op.type_ == ArbitraryFirst)
    && ff == ManualFF(f, list, op.parameters, op.type_ == ArbitraryFirst, op.swap, First(sorted, m) + 2, a)
  }

  lemma {:induction false} ManualsAre(f: Functions, sorted: seq<GraphOperation>, order: seq<nat>, lists: seq<seq<Pending>>, n: nat)
    returns (i: nat, a: nat)
    requires |order| == |lists| && n < |ManualList(f, sorted, order, lists)|
    ensures i < |order| && IsManual(f, sorted, ManualList(f, sorted, order, lists)[n], order[i], lists[i], a)
  {
    hide OpFor, First, ManualFF, Irrelevant;
    var e := |order| - 1;
    var front := ManualList(f, sorted, order[..e], lists[..e]);
    if n < |front| {
      i, a := ManualsAre(f, sorted, order[..e], lists[..e], n);
    } else {
      i, a := e, n - |front|;
    }
  }

  lemma {:induction false} ManualIsThere(f: Functions, sorted: seq<GraphOperation>, order: seq<nat>, lists: seq<seq<Pending>>, i: nat, a: nat)
    requires |order| == |lists| && i < |order| && a < 4 && |OpFor(sorted, order[i]).parameters| == 3
    requires lists[i] != [] && !Irrelevant(lists[i], OpFor(sorted, order[i]).type_ == ArbitraryFirst)
    ensures var op := OpFor(sorted, order[i]);
      ManualFF(f, lists[i], op.parameters, op.type_ == ArbitraryFirst, op.swap, First(sorted, order[i]) + 2, a) in ManualList(f, sorted, order, lists)
  {
    hide OpFor, First, ManualFF, Irrelevant;
    var e := |order| - 1;
    if i < e {
      ManualIsThere(f, sorted, order[..e], lists[..e], i, a);
    } else {
      var op := OpFor(sorted, order[i]);
      assert ManualFFsFor(f, sorted, order[e], lists[e])[a]
             == ManualFF(f, lists[i], op.parameters, op.type_ == ArbitraryFirst, op.swap, First(sorted, order[i]) + 2, a);
    }
  }

  // ----- well-formed and causal -----

  /** Every nonlinear feedforward leads to a later macronode. */
  predicate Forward(g: Graph) {
    forall i | 0 <= i < |g.nlffs| :: g.nlffs[i].fromMacronode < g.nlffs[i].toMacronode
  }

  function ArityOf(kind: Kind): nat {
    match kind
    case ControlledZ => 1
    case BeamSplitter => 2
    case TwoModeShear => 2
    case Manual => 4
    case _ => 1
  }

  /** The parameter a nonlinear feedforward writes exists in the operation of its target macronode. */
  predicate ParameterExists(sorted: seq<GraphOperation>, nlff: GraphFF) {
    nlff.toParameter >= 4
    || (match ShapeOf(OpFor(sorted, nlff.toMacronode).type_)
        case UnaryShape(kind) => nlff.toParameter < ArityOf(kind)
        case BinaryShape(kind) => nlff.toParameter < ArityOf(kind)
        case _ => true)
  }

  predicate ParametersExist(g: Graph, sorted: seq<GraphOperation>) {
    forall i | 0 <= i < |g.nlffs| :: ParameterExists(sorted, g.nlffs[i])
  }

  /** Parameters of the j-th operation of a group. */
  lemma {:induction false} GroupArity(f: Functions, op: GraphOperation, up: nat, left: nat, level: real)
    requires Group(f, op, up, left, level).Some? && AllConstructible(f, Group(f, op, up, left, level).value)
    ensures var g := Group(f, op, up, left, level).value;
      match ShapeOf(op.type_)
      case UnaryShape(kind) =>
        |g| == 4 && |g[0].params| == |g[2].params| == 2 && |g[1].params| == |g[3].params| == ArityOf(kind)
      case BinaryShape(kind) => |g| == 3 && |g[0].params| == |g[1].params| == 2 && |g[2].params| == ArityOf(kind)
      case MeasurementShape =>
        |g| == 6 && |g[0].params| == |g[3].params| == 2 && |g[1].params| == |g[4].params| == 1 && |g[2].params| == |g[5].params| == 2
        && g[1].kind == g[4].kind == HomodyneSingleMode && g[2].kind == g[5].kind == ReplaceBySqueezedState
      case _ => |g| == 2 && |g[0].params| == |g[1].params| == 2
  {
    var g := Group(f, op, up, left, level).value;
    match ShapeOf(op.type_) {
      case UnaryShape(kind) => assert OpConstructible(f, g[1]) && OpConstructible(f, g[3]);
      case BinaryShape(kind) => assert OpConstructible(f, g[2]);
      case _ =>
    }
    hide AllConstructible;
  }

  ghost function Ops(f: Functions, g: Graph, sorted: seq<GraphOperation>, level: real): seq<Op>
    requires g.Valid() && GroupsOk(f, g.n, sorted, level, g.Total())
  {
    GraphOps(f, g.n, sorted, level, g.Total())
  }

  function GroupSize(shape: Shape): nat {
    match shape
    case UnaryShape(_) => 4
    case BinaryShape(_) => 3
    case MeasurementShape => 6
    case _ => 2
  }

  /** The number of parameters of operation j of a group. */
  function ParamCount(shape: Shape, j: nat): nat {
    match shape
    case UnaryShape(kind) => if j in {1, 3} then ArityOf(kind) else 2
    case BinaryShape(kind) => if j == 2 then ArityOf(kind) else 2
    case MeasurementShape => if j in {1, 4} then 1 else 2
    case _ => 2
  }

  function KindOfMember(shape: Shape, j: nat): Kind {
    match shape
    case UnaryShape(kind) => if j in {1, 3} then kind else Displacement
    case BinaryShape(kind) => if j == 2 then kind else Displacement
    case MeasurementShape => if j in {1, 4} then HomodyneSingleMode else if j in {2, 5} then ReplaceBySqueezedState else Displacement
    case _ => Displacement
  }

  lemma {:induction false} GroupMember(f: Functions, op: GraphOperation, up: nat, left: nat, level: real, j: nat)
    requires Group(f, op, up, left, level).Some? && AllConstructible(f, Group(f, op, up, left, level).value)
    requires j < GroupSize(ShapeOf(op.type_))
    ensures var g, shape := Group(f, op, up, left, level).value, ShapeOf(op.type_);
      |g| == GroupSize(shape) && |g[j].params| == ParamCount(shape, j) && g[j].kind == KindOfMember(shape, j)
  {
    GroupArity(f, op, up, left, level);
    hide AllConstructible, ArityOf;
  }

  /** Operation j of macronode m. */
  lemma {:induction false} MacronodeMember(f: Functions, g: Graph, sorted: seq<GraphOperation>, level: real, m: nat, j: nat)
    requires g.Valid() && GroupsOk(f, g.n, sorted, level, g.Total()) && m < g.Total()
    requires j < GroupSize(ShapeOf(OpFor(sorted, m).type_))
    ensures var shape := ShapeOf(OpFor(sorted, m).type_);
      && First(sorted, m) + j < First(sorted, m + 1) && First(sorted, m) + j < |Ops(f, g, sorted, level)|
      && |Ops(f, g, sorted, level)[First(sorted, m) + j].params| == ParamCount(shape, j)
      && Ops(f, g, sorted, level)[First(sorted, m) + j].kind == KindOfMember(shape, j)
  {
    hide OpFor, UpMode, LeftMode, Group, AllConstructible, GroupSize, ParamCount, KindOfMember, ShapeOf, First;
    var op, up, left := OpFor(sorted, m), UpMode(g.n, sorted, m), LeftMode(g.n, sorted, m);
    GroupOkMeans(f, g.n, sorted, level, m);
    assert GroupOk(f, g.n, sorted, level, m);
    GroupMember(f, op, up, left, level, j);
    GraphOpsAt(f, g.n, sorted, level, g.Total(), m, j);
    SizeIsStep(sorted, m, f, up, left, level);
  }

  lemma {:induction false} SizeIsStep(sorted: seq<GraphOperation>, m: nat, f: Functions, up: nat, left: nat, level: real)
    requires Group(f, OpFor(sorted, m), up, left, level).Some?
    ensures First(sorted, m + 1) == First(sorted, m) + GroupSize(ShapeOf(OpFor(sorted, m).type_))
  {
    hide OpFor;
  }

  lemma {:induction false} SourceIsMeasurement(f: Functions, g: Graph, sorted: seq<GraphOperation>, level: real, i: nat)
    requires g.Valid() && GroupsOk(f, g.n, sorted, level, g.Total()) && i < |g.nlffs| && Resolves(g, sorted, i)
    ensures var s, from := Source(g, sorted, i), g.nlffs[i].fromMacronode;
      && from < g.Total() && ShapeOf(OpFor(sorted, from).type_).MeasurementShape?
      && s == First(sorted, from) + (if g.nlffs[i].fromBd == 0 then 1 else 4) && s < First(sorted, from + 1)
      && s < |Ops(f, g, sorted, level)| && IsMeasurement(Ops(f, g, sorted, level)[s].kind)
  {
    hide Resolves, Source, OpFor, GroupsOk, Ops, First;
    SourceRecord(g, sorted, i);
    MacronodeMember(f, g, sorted, level, g.nlffs[i].fromMacronode, if g.nlffs[i].fromBd == 0 then 1 else 4);
  }

  lemma {:induction false} SourceRecord(g: Graph, sorted: seq<GraphOperation>, i: nat)
    requires i < |g.nlffs| && Resolves(g, sorted, i)
    ensures var from := g.nlffs[i].fromMacronode;
      && from < g.Total() && ShapeOf(OpFor(sorted, from).type_).MeasurementShape?
      && Source(g, sorted, i) == First(sorted, from) + (if g.nlffs[i].fromBd == 0 then 1 else 4)
  {
    hide OpFor, First, TargetParams;
  }

  /** The parameter a target names is there exactly when the operation has such a parameter. */
  lemma {:induction false} TargetExists(f: Functions, g: Graph, sorted: seq<GraphOperation>, level: real, i: nat, j: nat)
    requires g.Valid() && GroupsOk(f, g.n, sorted, level, g.Total()) && i < |g.nlffs| && Resolves(g, sorted, i)
    requires j < |Targets(g, sorted, i)|
    ensures HasParam(Ops(f, g, sorted, level), Targets(g, sorted, i)[j]) <==> ParameterExists(sorted, g.nlffs[i])
  {
    hide Resolves, Targets, OpFor, Ops, First, GroupsOk, ArityOf, ShapeOf;
    var m := g.nlffs[i].toMacronode;
    TargetInMacronode(g, sorted, i);
    TargetOffset(g, sorted, i, j);
    MacronodeMember(f, g, sorted, level, m, Targets(g, sorted, i)[j].op - First(sorted, m));
  }

  lemma {:induction false} TargetInMacronode(g: Graph, sorted: seq<GraphOperation>, i: nat)
    requires i < |g.nlffs| && Resolves(g, sorted, i)
    ensures g.nlffs[i].toMacronode < g.Total()
  {
  }

  /** The operation of its macronode, and the parameter, a target names. */
  lemma {:induction false} TargetOffset(g: Graph, sorted: seq<GraphOperation>, i: nat, j: nat)
    requires i < |g.nlffs| && Resolves(g, sorted, i) && j < |Targets(g, sorted, i)|
    ensures var t, q := Targets(g, sorted, i)[j], g.nlffs[i].toParameter;
      var first := First(sorted, g.nlffs[i].toMacronode);
      match ShapeOf(OpFor(sorted, g.nlffs[i].toMacronode).type_)
      case UnaryShape(_) =>
        (q < 4 && t.op - first in {1, 3} && t.param == q) || (4 <= q && t.op - first in {0, 2} && t.param < 2)
      case BinaryShape(_) => (q < 4 && t.op - first == 2 && t.param == q) || (4 <= q && t.op - first in {0, 1} && t.param < 2)
      case MeasurementShape =>
        (q < 4 && ((t.op - first in {1, 4} && t.param == 0) || (t.op - first in {2, 5} && t.param == 1)))
        || (4 <= q && t.op - first in {0, 3} && t.param < 2)
      case _ => 4 <= q && t.op - first in {0, 1} && t.param < 2
  {
    hide OpFor, First, SourceOp;
    var m := g.nlffs[i].toMacronode;
    assert Records(sorted, g.Total())[m] == RecordOf(sorted, m);
  }

  /** A direct feedforward: well formed exactly when its parameter exists, and causal when it leads forward. */
  lemma {:induction false} DirectFits(f: Functions, g: Graph, sorted: seq<GraphOperation>, level: real, ff: FeedForward, i: nat, j: nat)
    requires g.Valid() && GroupsOk(f, g.n, sorted, level, g.Total()) && IsDirect(f, g, sorted, Ops(f, g, sorted, level), ff, i, j)
    ensures WellFormedFF(Ops(f, g, sorted, level), ff) <==> ParameterExists(sorted, g.nlffs[i])
    ensures g.nlffs[i].fromMacronode < g.nlffs[i].toMacronode ==> ff.sources != [] && MaxSource(ff.sources) < ff.target.op
  {
    hide Resolves, Stored, Source, Targets, Ops, First, GroupsOk, FuncFor, ParameterExists, OpFor;
    SourceIsMeasurement(f, g, sorted, level, i);
    TargetExists(f, g, sorted, level, i, j);
    if g.nlffs[i].fromMacronode < g.nlffs[i].toMacronode {
      TargetAfter(f, g, sorted, level, i, j);
    }
  }

  lemma {:induction false} TargetAfter(f: Functions, g: Graph, sorted: seq<GraphOperation>, level: real, i: nat, j: nat)
    requires g.Valid() && GroupsOk(f, g.n, sorted, level, g.Total()) && i < |g.nlffs| && Resolves(g, sorted, i) && j < |Targets(g, sorted, i)|
    requires g.nlffs[i].fromMacronode < g.nlffs[i].toMacronode
    ensures Source(g, sorted, i) < First(sorted, g.nlffs[i].toMacronode) <= Targets(g, sorted, i)[j].op
  {
    hide Resolves, Source, Targets, First, GroupsOk, OpFor;
    SourceIsMeasurement(f, g, sorted, level, i);
    AllSupported(f, g, sorted, level);
    TargetsWithin(g, sorted, i, j);
    FirstGrows(sorted, g.nlffs[i].fromMacronode + 1, g.nlffs[i].toMacronode);
  }

  lemma {:induction false} ManualFits(f: Functions, g: Graph, sorted: seq<GraphOperation>, level: real, ff: FeedForward, m: nat, list: seq<Pending>, a: nat)
    requires g.Valid() && GroupsOk(f, g.n, sorted, level, g.Total()) && AllResolve(g, sorted, |g.nlffs|) && Forward(g)
    requires Visits(g, sorted, m, list) && IsManual(f, sorted, ff, m, list, a)
    ensures WellFormedFF(Ops(f, g, sorted, level), ff) && MaxSource(ff.sources) < ff.target.op
  {
    hide Resolves, Ops, First, GroupsOk, ManualFunc, OpFor, Irrelevant, Visits, Forward;
    assert m < g.Total() && IsArbitrary(sorted, m) by { VisitedArbitrary(g, sorted, m, list); }
    MacronodeMember(f, g, sorted, level, m, 2);
    forall s | s in ff.sources
      ensures s < |Ops(f, g, sorted, level)| && IsMeasurement(Ops(f, g, sorted, level)[s].kind) && s < First(sorted, m)
    {
      var j :| 0 <= j < |list| && s == list[j].source;
      PendingSource(f, g, sorted, level, m, list, j);
    }
  }

  lemma {:induction false} VisitedArbitrary(g: Graph, sorted: seq<GraphOperation>, m: nat, list: seq<Pending>)
    requires g.Valid() && AllResolve(g, sorted, |g.nlffs|) && Visits(g, sorted, m, list)
    ensures m < g.Total() && IsArbitrary(sorted, m)
  {
  }

  lemma {:induction false} PendingSource(f: Functions, g: Graph, sorted: seq<GraphOperation>, level: real, m: nat, list: seq<Pending>, j: nat)
    requires g.Valid() && GroupsOk(f, g.n, sorted, level, g.Total()) && AllResolve(g, sorted, |g.nlffs|) && Forward(g)
    requires Visits(g, sorted, m, list) && j < |list|
    ensures list[j].source < |Ops(f, g, sorted, level)| && IsMeasurement(Ops(f, g, sorted, level)[list[j].source].kind)
    ensures list[j].source < First(sorted, m)
  {
    hide Resolves, Stored, Source, Ops, First, GroupsOk, OpFor, PendingFor, IsArbitrary;
    SameMembers(list, PendingFor(g, sorted, m, |g.nlffs|));
    PendingComesFrom(g, sorted, m, |g.nlffs|, list[j]);
    var l :| 0 <= l < |g.nlffs| && IsPendingOf(g, sorted, m, l, list[j]);
    SourceIsMeasurement(f, g, sorted, level, l);
    FirstGrows(sorted, g.nlffs[l].fromMacronode + 1, m);
  }

  lemma {:induction false} EachFits(f: Functions, g: Graph, sorted: seq<GraphOperation>, level: real, ffs: seq<FeedForward>, n: nat)
    requires g.Valid() && GraphCompiles(f, g, sorted, level) && IsGraphFFs(f, g, sorted, level, ffs) && Forward(g) && n < |ffs|
    ensures ffs[n].sources != [] && MaxSource(ffs[n].sources) < ffs[n].target.op
    ensures ParametersExist(g, sorted) ==> WellFormedFF(Ops(f, g, sorted, level), ffs[n])
  {
    hide *;
    var order, lists := Visiting(f, g, sorted, level, ffs);
    var split := SplitFFs(f, g, sorted, level, ffs, order, lists);
    if n < split {
      var i, j := DirectsAre(f, g, sorted, Ops(f, g, sorted, level), |g.nlffs|, n);
      DirectFits(f, g, sorted, level, ffs[n], i, j);
      IsForward(g, sorted, i);
    } else {
      var i, a := ManualsAre(f, sorted, order, lists, n - split);
      VisitAt(g, sorted, order, lists, i);
      ManualFits(f, g, sorted, level, ffs[n], order[i], lists[i], a);
      HasSource(Ops(f, g, sorted, level), ffs[n]);
    }
  }

  lemma {:induction false} HasSource(ops: seq<Op>, ff: FeedForward)
    requires WellFormedFF(ops, ff)
    ensures ff.sources != []
  {
  }

  lemma {:induction false} IsForward(g: Graph, sorted: seq<GraphOperation>, i: nat)
    requires Forward(g) && i < |g.nlffs|
    ensures g.nlffs[i].fromMacronode < g.nlffs[i].toMacronode
    ensures ParametersExist(g, sorted) ==> ParameterExists(sorted, g.nlffs[i])
  {
    hide ParameterExists;
  }

  /** A missing parameter makes the circuit ill-formed, unless the feedforward writes nothing at all. */
  lemma {:induction false} MissingParameter(f: Functions, g: Graph, sorted: seq<GraphOperation>, level: real, ffs: seq<FeedForward>, i: nat)
    requires g.Valid() && GraphCompiles(f, g, sorted, level) && IsGraphFFs(f, g, sorted, level, ffs) && TargetsFit(g, sorted)
    requires i < |g.nlffs| && !ParameterExists(sorted, g.nlffs[i])
    ensures !WellFormed(Ops(f, g, sorted, level), ffs)
  {
    hide GroupsOk, Directs, ManualList, AllResolve, WellFormedFF, First, OpFor, VisitsAll, Visits, FFTo, IsVisit;
    var order, lists :| FromVisit(f, g, sorted, level, ffs, order, lists);
    ResolveBoth(g, sorted, i);
    HasTarget(g, sorted, i);
    hide Resolves, Stored, ParameterExists, Targets, TargetsFit;
    DirectIsThere(f, g, sorted, Ops(f, g, sorted, level), |g.nlffs|, i, 0);
    var ff := FFTo(f, g, sorted, Ops(f, g, sorted, level), i, 0);
    DirectFits(f, g, sorted, level, ff, i, 0);
    assert ff in ffs;
  }

  lemma {:induction false} HasTarget(g: Graph, sorted: seq<GraphOperation>, i: nat)
    requires i < |g.nlffs| && Resolves(g, sorted, i) && !ParameterExists(sorted, g.nlffs[i]) && TargetsFit(g, sorted)
    ensures !Stored(g, sorted, i) && |Targets(g, sorted, i)| > 0
  {
    hide OpFor, First, SourceOp;
    assert Records(sorted, g.Total())[g.nlffs[i].toMacronode] == RecordOf(sorted, g.nlffs[i].toMacronode);
  }

  /** The feedforwards of a graph circuit always lead forward when those of the program do, and they are
      well formed exactly when every parameter the program names exists. */
  lemma {:induction false} GraphWellFormed(f: Functions, g: Graph, sorted: seq<GraphOperation>, level: real, ffs: seq<FeedForward>)
    requires g.Valid() && GraphCompiles(f, g, sorted, level) && IsGraphFFs(f, g, sorted, level, ffs) && Forward(g) && TargetsFit(g, sorted)
    ensures Causal(ffs)
    ensures WellFormed(Ops(f, g, sorted, level), ffs) <==> ParametersExist(g, sorted)
  {
    hide GroupsOk, WellFormedFF, ParameterExists, Forward, TargetsFit, DirectsOk, ManualsOk, FromVisit, Ops;
    forall n | 0 <= n < |ffs| ensures ffs[n].sources != [] && MaxSource(ffs[n].sources) < ffs[n].target.op {
      EachFits(f, g, sorted, level, ffs, n);
    }
    if ParametersExist(g, sorted) {
      forall n | 0 <= n < |ffs| ensures WellFormedFF(Ops(f, g, sorted, level), ffs[n]) {
        EachFits(f, g, sorted, level, ffs, n);
      }
    } else {
      var i :| 0 <= i < |g.nlffs| && !ParameterExists(sorted, g.nlffs[i]);
      MissingParameter(f, g, sorted, level, ffs, i);
    }
  }

  // ----- feedforward into measurements -----

  /** A feedforward into a measurement macronode comes from a nonlinear feedforward to its angle. */
  lemma {:induction false} WhoWritesMeasurement(
    f: Functions, g: Graph, sorted: seq<GraphOperation>, level: real, ffs: seq<FeedForward>, m: nat, n: nat)
    returns (i: nat)
    requires g.Valid() && GraphCompiles(f, g, sorted, level) && IsGraphFFs(f, g, sorted, level, ffs) && n < |ffs|
    requires m < g.Total() && ShapeOf(OpFor(sorted, m).type_).MeasurementShape?
    requires ffs[n].target.op >= First(sorted, m) && ffs[n].target.op - First(sorted, m) in {1, 2, 4, 5}
    ensures i < |g.nlffs| && Resolves(g, sorted, i) && !Stored(g, sorted, i)
    ensures g.nlffs[i].toMacronode == m && g.nlffs[i].toParameter < 4 && ffs[n].target in Targets(g, sorted, i)
  {
    hide *;
    var order, lists := Visiting(f, g, sorted, level, ffs);
    AllSupported(f, g, sorted, level);
    MeasurementEnds(sorted, m);
    var split := SplitFFs(f, g, sorted, level, ffs, order, lists);
    if n < split {
      var j;
      i, j := DirectsAre(f, g, sorted, Ops(f, g, sorted, level), |g.nlffs|, n);
      DirectTarget(f, g, sorted, Ops(f, g, sorted, level), ffs[n], i, j);
      TargetsWithin(g, sorted, i, j);
      if g.nlffs[i].toMacronode != m {
        MacronodesApart(sorted, g.nlffs[i].toMacronode, m, ffs[n].target.op, ffs[n].target.op);
      }
      TargetOffset(g, sorted, i, j);
    } else {
      var l, a := ManualsAre(f, sorted, order, lists, n - split);
      ManualTargets(f, sorted, ffs[n], order[l], lists[l], a);
      VisitAt(g, sorted, order, lists, l);
      VisitedArbitrary(g, sorted, order[l], lists[l]);
      ManualWithin(sorted, order[l]);
      ArbitraryIsBinary(sorted, order[l]);
      MacronodesApart(sorted, order[l], m, ffs[n].target.op, ffs[n].target.op);
    }
  }

  lemma {:induction false} VisitAt(g: Graph, sorted: seq<GraphOperation>, order: seq<nat>, lists: seq<seq<Pending>>, l: nat)
    requires g.Valid() && AllResolve(g, sorted, |g.nlffs|) && IsVisit(g, sorted, order, lists) && l < |order|
    ensures |order| == |lists| && Visits(g, sorted, order[l], lists[l])
  {
    hide Visits, AllResolve;
  }

  lemma {:induction false} ArbitraryIsBinary(sorted: seq<GraphOperation>, m: nat)
    requires IsArbitrary(sorted, m)
    ensures ShapeOf(OpFor(sorted, m).type_) == BinaryShape(Manual)
  {
    hide OpFor;
  }

  /** Direct feedforwards come first. */
  lemma {:induction false} SplitFFs(
    f: Functions, g: Graph, sorted: seq<GraphOperation>, level: real, ffs: seq<FeedForward>, order: seq<nat>, lists: seq<seq<Pending>>)
    returns (split: nat)
    requires g.Valid() && GraphCompiles(f, g, sorted, level) && FromVisit(f, g, sorted, level, ffs, order, lists)
    ensures GroupsOk(f, g.n, sorted, level, g.Total()) && AllResolve(g, sorted, |g.nlffs|) && |order| == |lists|
    ensures split == |Directs(f, g, sorted, Ops(f, g, sorted, level), |g.nlffs|)|
    ensures |ffs| == split + |ManualList(f, sorted, order, lists)|
    ensures forall n | 0 <= n < |ffs| ::
              ffs[n] == if n < split then Directs(f, g, sorted, Ops(f, g, sorted, level), |g.nlffs|)[n]
                        else ManualList(f, sorted, order, lists)[n - split]
  {
    hide Directs, ManualList, VisitsAll, GraphOps, GroupsOk, AllResolve, Visits;
    split := |Directs(f, g, sorted, Ops(f, g, sorted, level), |g.nlffs|)|;
  }

  lemma {:induction false} DirectTarget(f: Functions, g: Graph, sorted: seq<GraphOperation>, ops: seq<Op>, ff: FeedForward, i: nat, j: nat)
    requires g.Valid() && IsDirect(f, g, sorted, ops, ff, i, j)
    ensures i < |g.nlffs| && Resolves(g, sorted, i) && !Stored(g, sorted, i)
    ensures j < |Targets(g, sorted, i)| && ff.target == Targets(g, sorted, i)[j]
  {
    hide Resolves, Targets, Stored;
  }

  lemma {:induction false} ManualTargets(f: Functions, sorted: seq<GraphOperation>, ff: FeedForward, m: nat, list: seq<Pending>, a: nat)
    requires IsManual(f, sorted, ff, m, list, a)
    ensures ff.target == ParamIdx(First(sorted, m) + 2, a)
  {
    hide First, OpFor, ManualFunc, Irrelevant;
  }

  lemma {:induction false} MeasurementEnds(sorted: seq<GraphOperation>, m: nat)
    requires ShapeOf(OpFor(sorted, m).type_).MeasurementShape?
    ensures First(sorted, m + 1) == First(sorted, m) + 6
  {
    hide OpFor;
  }

  /** The four targets of a nonlinear feedforward to the angle of a measurement macronode. */
  lemma {:induction false} MeasurementTargets(g: Graph, sorted: seq<GraphOperation>, i: nat)
    requires i < |g.nlffs| && Resolves(g, sorted, i) && g.nlffs[i].toParameter < 4
    requires ShapeOf(OpFor(sorted, g.nlffs[i].toMacronode).type_).MeasurementShape?
    ensures var first := First(sorted, g.nlffs[i].toMacronode);
      Targets(g, sorted, i) == [ParamIdx(first + 1, 0), ParamIdx(first + 2, 1), ParamIdx(first + 4, 0), ParamIdx(first + 5, 1)]
  {
    hide OpFor, First, SourceOp;
    assert Records(sorted, g.Total())[g.nlffs[i].toMacronode] == RecordOf(sorted, g.nlffs[i].toMacronode);
  }

  /** The value nonlinear feedforward i computes. */
  function FedValue(g: Graph, sorted: seq<GraphOperation>, i: nat, measured: map<nat, real>): real
    requires g.Valid() && i < |g.nlffs| && Resolves(g, sorted, i) && Source(g, sorted, i) in measured
  {
    Func(g, i)([measured[Source(g, sorted, i)]])
  }

  /** A direct feedforward leaves its value, a quarter turn back in a replacement. */
  lemma {:induction false} DirectLeaves(
    f: Functions, g: Graph, sorted: seq<GraphOperation>, level: real, ffs: seq<FeedForward>, fin: seq<Op>, measured: map<nat, real>, i: nat, j: nat)
    requires g.Valid() && GraphCompiles(f, g, sorted, level) && IsGraphFFs(f, g, sorted, level, ffs)
    requires LeftBy(Ops(f, g, sorted, level), ffs, fin, measured)
    requires i < |g.nlffs| && Resolves(g, sorted, i) && !Stored(g, sorted, i) && j < |Targets(g, sorted, i)|
    ensures Source(g, sorted, i) in measured && HasParam(fin, Targets(g, sorted, i)[j])
    ensures Param(fin, Targets(g, sorted, i)[j]) ==
              FedValue(g, sorted, i, measured)
              - (if KindOf(Ops(f, g, sorted, level), Targets(g, sorted, i)[j]) == ReplaceBySqueezedState then f.halfPi else 0.0)
  {
    hide GroupsOk, Directs, ManualList, First, OpFor, VisitsAll, IsVisit, Resolves, Stored, Targets, Source, SameShapes;
    var order, lists :| FromVisit(f, g, sorted, level, ffs, order, lists);
    var ops := Ops(f, g, sorted, level);
    DirectIsThere(f, g, sorted, ops, |g.nlffs|, i, j);
    var ff := FFTo(f, g, sorted, ops, i, j);
    assert ff in ffs;
    var n :| 0 <= n < |ffs| && ffs[n] == ff;
    assert Values([Source(g, sorted, i)], measured) == [measured[Source(g, sorted, i)]];
  }

  /** The two measurements of the macronode whose operations start at first have the same angle, and the
      replacement after each is at that angle minus pi/2. */
  ghost predicate QuarterTurnBehind(f: Functions, ops: seq<Op>, first: nat) {
    && HasParam(ops, ParamIdx(first + 1, 0)) && HasParam(ops, ParamIdx(first + 2, 1))
    && HasParam(ops, ParamIdx(first + 4, 0)) && HasParam(ops, ParamIdx(first + 5, 1))
    && Param(ops, ParamIdx(first + 1, 0)) == Param(ops, ParamIdx(first + 4, 0))
    && Param(ops, ParamIdx(first + 2, 1)) == Param(ops, ParamIdx(first + 1, 0)) - f.halfPi
    && Param(ops, ParamIdx(first + 5, 1)) == Param(ops, ParamIdx(first + 4, 0)) - f.halfPi
  }

  /** In every run, each replacement of a measurement macronode stays a quarter turn behind the
      measurement it follows, and both measurements keep the same angle, nonlinear feedforward or not. */
  lemma {:induction false} ReplacementFollowsMeasurement(
    f: Functions, g: Graph, sorted: seq<GraphOperation>, level: real, ffs: seq<FeedForward>, fin: seq<Op>, measured: map<nat, real>, m: nat)
    requires g.Valid() && GraphCompiles(f, g, sorted, level) && IsGraphFFs(f, g, sorted, level, ffs)
    requires LeftBy(Ops(f, g, sorted, level), ffs, fin, measured)
    requires m < g.Total() && ShapeOf(OpFor(sorted, m).type_).MeasurementShape?
    ensures QuarterTurnBehind(f, fin, First(sorted, m))
  {
    assert GroupsOk(f, g.n, sorted, level, g.Total());
    hide *;
    if n :| 0 <= n < |ffs| && ffs[n].target.op >= First(sorted, m) && ffs[n].target.op - First(sorted, m) in {1, 2, 4, 5} {
      var i := WhoWritesMeasurement(f, g, sorted, level, ffs, m, n);
      FedMeasurement(f, g, sorted, level, ffs, fin, measured, i);
    } else {
      UnfedMeasurement(f, g, sorted, level, ffs, fin, measured, m);
    }
  }

  lemma {:induction false} FedMeasurement(
    f: Functions, g: Graph, sorted: seq<GraphOperation>, level: real, ffs: seq<FeedForward>, fin: seq<Op>, measured: map<nat, real>, i: nat)
    requires g.Valid() && GraphCompiles(f, g, sorted, level) && IsGraphFFs(f, g, sorted, level, ffs)
    requires LeftBy(Ops(f, g, sorted, level), ffs, fin, measured)
    requires i < |g.nlffs| && Resolves(g, sorted, i) && !Stored(g, sorted, i) && g.nlffs[i].toParameter < 4
    requires ShapeOf(OpFor(sorted, g.nlffs[i].toMacronode).type_).MeasurementShape?
    ensures QuarterTurnBehind(f, fin, First(sorted, g.nlffs[i].toMacronode))
  {
    hide First, OpFor, LeftBy, IsGraphFFs, GroupsOk, DirectsOk, ManualsOk, Ops, Resolves, Stored, Targets, Source, FedValue, HasParam, Param;
    var m := g.nlffs[i].toMacronode;
    TargetInMacronode(g, sorted, i);
    MeasurementTargets(g, sorted, i);
    MacronodeMember(f, g, sorted, level, m, 1);
    DirectLeaves(f, g, sorted, level, ffs, fin, measured, i, 0);
    MacronodeMember(f, g, sorted, level, m, 2);
    DirectLeaves(f, g, sorted, level, ffs, fin, measured, i, 1);
    MacronodeMember(f, g, sorted, level, m, 4);
    DirectLeaves(f, g, sorted, level, ffs, fin, measured, i, 2);
    MacronodeMember(f, g, sorted, level, m, 5);
    DirectLeaves(f, g, sorted, level, ffs, fin, measured, i, 3);
  }

  lemma {:induction false} UnfedMeasurement(
    f: Functions, g: Graph, sorted: seq<GraphOperation>, level: real, ffs: seq<FeedForward>, fin: seq<Op>, measured: map<nat, real>, m: nat)
    requires g.Valid() && GroupsOk(f, g.n, sorted, level, g.Total()) && LeftBy(Ops(f, g, sorted, level), ffs, fin, measured)
    requires m < g.Total() && ShapeOf(OpFor(sorted, m).type_).MeasurementShape?
    requires forall n | 0 <= n < |ffs| && ffs[n].target.op >= First(sorted, m) :: ffs[n].target.op - First(sorted, m) !in {1, 2, 4, 5}
    ensures QuarterTurnBehind(f, fin, First(sorted, m))
  {
    hide First, OpFor, LeftBy, GroupsOk, Ops;
    MeasurementAsBuilt(f, g, sorted, level, m);
    var ops, first := Ops(f, g, sorted, level), First(sorted, m);
    NotWritten(ops, ffs, fin, measured, ParamIdx(first + 1, 0));
    NotWritten(ops, ffs, fin, measured, ParamIdx(first + 2, 1));
    NotWritten(ops, ffs, fin, measured, ParamIdx(first + 4, 0));
    NotWritten(ops, ffs, fin, measured, ParamIdx(first + 5, 1));
  }

  lemma {:induction false} NotWritten(ops: seq<Op>, ffs: seq<FeedForward>, fin: seq<Op>, measured: map<nat, real>, t: ParamIdx)
    requires LeftBy(ops, ffs, fin, measured) && HasParam(ops, t) && forall n | 0 <= n < |ffs| :: ffs[n].target != t
    ensures HasParam(fin, t) && Param(fin, t) == Param(ops, t)
  {
    ShapesKeepParams(ops, fin, t);
    hide SameShapes;
  }

  lemma {:induction false} MeasurementAsBuilt(f: Functions, g: Graph, sorted: seq<GraphOperation>, level: real, m: nat)
    requires g.Valid() && GroupsOk(f, g.n, sorted, level, g.Total()) && m < g.Total() && ShapeOf(OpFor(sorted, m).type_).MeasurementShape?
    ensures |OpFor(sorted, m).parameters| == 1
    ensures var ops, first, theta := Ops(f, g, sorted, level), First(sorted, m), OpFor(sorted, m).parameters[0];
      && first + 5 < |ops| && ops[first + 1].params == [theta] && ops[first + 4].params == [theta]
      && ops[first + 2].params == [level, theta - f.halfPi] && ops[first + 5].params == [level, theta - f.halfPi]
  {
    hide First, OpFor, GroupOf, GroupOk;
    MeasurementGroup(f, g.n, sorted, level, m);
    GraphOpsAt(f, g.n, sorted, level, g.Total(), m, 1);
    GraphOpsAt(f, g.n, sorted, level, g.Total(), m, 2);
    GraphOpsAt(f, g.n, sorted, level, g.Total(), m, 4);
    GraphOpsAt(f, g.n, sorted, level, g.Total(), m, 5);
  }

  lemma {:induction false} MeasurementGroup(f: Functions, n: nat, sorted: seq<GraphOperation>, level: real, m: nat)
    requires n >= 1 && GroupOk(f, n, sorted, level, m) && ShapeOf(OpFor(sorted, m).type_).MeasurementShape?
    ensures |OpFor(sorted, m).parameters| == 1
    ensures var theta, up, left := OpFor(sorted, m).parameters[0], UpMode(n, sorted, m), LeftMode(n, sorted, m);
      GroupOf(f, n, sorted, level, m) == Some([
        Emplace(Displacement, [up], DisplacementParams(OpFor(sorted, m).displacement1)),
        Emplace(HomodyneSingleMode, [up], [theta]), Emplace(ReplaceBySqueezedState, [up], [level, theta - f.halfPi]),
        Emplace(Displacement, [left], DisplacementParams(OpFor(sorted, m).displacementN)),
        Emplace(HomodyneSingleMode, [left], [theta]), Emplace(ReplaceBySqueezedState, [left], [level, theta - f.halfPi])])
  {
    hide OpFor, UpMode, LeftMode, Constructible, DisplacementParams;
  }

  // ----- feedforward into Arbitrary operations -----

  /** The nonlinear feedforward that writes parameter q of the Arbitrary operation of macronode m. */
  ghost predicate Feeds(g: Graph, sorted: seq<GraphOperation>, m: nat, q: nat, i: int) {
    0 <= i < |g.nlffs| && Stored(g, sorted, i) && g.nlffs[i].toMacronode == m && g.nlffs[i].toParameter == q
  }

  /** v is parameter q of the Arbitrary operation of macronode m, fed forward if it is. */
  ghost predicate FedParameter(g: Graph, sorted: seq<GraphOperation>, m: nat, measured: map<nat, real>, q: nat, v: real)
    requires g.Valid() && AllResolve(g, sorted, |g.nlffs|) && q < |OpFor(sorted, m).parameters|
  {
    && (forall i | Feeds(g, sorted, m, q, i) ::
          Resolves(g, sorted, i) && Source(g, sorted, i) in measured && v == FedValue(g, sorted, i, measured))
    && ((forall i :: !Feeds(g, sorted, m, q, i)) ==> v == OpFor(sorted, m).parameters[q])
  }

  /** p are the parameters of the Arbitrary operation of macronode m with the fed-forward values put in. */
  ghost predicate FedForward(g: Graph, sorted: seq<GraphOperation>, m: nat, measured: map<nat, real>, p: seq<real>)
    requires g.Valid() && AllResolve(g, sorted, |g.nlffs|)
  {
    |p| == |OpFor(sorted, m).parameters| && forall q: nat | q < |p| :: FedParameter(g, sorted, m, measured, q, p[q])
  }

  lemma {:induction false} UpdatedParameter(
    g: Graph, sorted: seq<GraphOperation>, m: nat, list: seq<Pending>, measured: map<nat, real>, args: seq<real>, q: nat)
    requires g.Valid() && AllResolve(g, sorted, |g.nlffs|) && TargetsFit(g, sorted) && Visits(g, sorted, m, list)
    requires q < |OpFor(sorted, m).parameters|
    requires Readable(SourcesOfPending(list), measured) && args == Values(SourcesOfPending(list), measured)
    ensures FedParameter(g, sorted, m, measured, q, Updated(OpFor(sorted, m).parameters, list, args, |list|)[q])
  {
    hide Resolves, Source, OpFor, PendingFor, Clean, Func, Updated, IsArbitrary;
    PendingIsClean(g, sorted, m, |g.nlffs|);
    SameMembers(list, PendingFor(g, sorted, m, |g.nlffs|));
    CleanByIndex(list);
    var initial := OpFor(sorted, m).parameters;
    var v := Updated(initial, list, args, |list|)[q];
    UpdatedAt(initial, list, args, |list|, q);
    forall i | Feeds(g, sorted, m, q, i)
      ensures Resolves(g, sorted, i) && Source(g, sorted, i) in measured && v == FedValue(g, sorted, i, measured)
    {
      var x := Pending(Source(g, sorted, i), g.nlffs[i].toParameter, Func(g, i));
      assert IsPendingOf(g, sorted, m, i, x);
      PendingComesFrom(g, sorted, m, |g.nlffs|, x);
      var j :| 0 <= j < |list| && list[j] == x;
      assert SourcesOfPending(list)[j] == x.source;
    }
    if forall i :: !Feeds(g, sorted, m, q, i) {
      forall l | 0 <= l < |list| ensures list[l].param != q {
        PendingComesFrom(g, sorted, m, |g.nlffs|, list[l]);
        var i :| 0 <= i < |g.nlffs| && IsPendingOf(g, sorted, m, i, list[l]);
        assert Feeds(g, sorted, m, list[l].param, i);
      }
    }
  }

  /** What the loop over the stored feedforwards computes. */
  lemma {:induction false} UpdatedIsFedForward(
    g: Graph, sorted: seq<GraphOperation>, m: nat, list: seq<Pending>, measured: map<nat, real>, args: seq<real>)
    requires g.Valid() && AllResolve(g, sorted, |g.nlffs|) && TargetsFit(g, sorted) && Visits(g, sorted, m, list)
    requires Readable(SourcesOfPending(list), measured) && args == Values(SourcesOfPending(list), measured)
    ensures FedForward(g, sorted, m, measured, Updated(OpFor(sorted, m).parameters, list, args, |list|))
  {
    hide AllResolve, OpFor, Updated, FedParameter, TargetsFit, Visits;
    var p := Updated(OpFor(sorted, m).parameters, list, args, |list|);
    forall q: nat | q < |p| ensures FedParameter(g, sorted, m, measured, q, p[q]) {
      UpdatedParameter(g, sorted, m, list, measured, args, q);
    }
  }

  /** The parameters of the Manual gate at the end. */
  function ManualParams(ops: seq<Op>, target: nat): seq<real> {
    if target < |ops| then ops[target].params else []
  }

  lemma {:induction false} ArbitraryAsBuilt(f: Functions, g: Graph, sorted: seq<GraphOperation>, level: real, m: nat)
    requires g.Valid() && GroupsOk(f, g.n, sorted, level, g.Total()) && m < g.Total() && IsArbitrary(sorted, m)
    ensures var op := OpFor(sorted, m);
      && |op.parameters| == 3 && First(sorted, m) + 2 < |Ops(f, g, sorted, level)|
      && Ops(f, g, sorted, level)[First(sorted, m) + 2].params == ManualAngles(f, op.parameters, op.type_ == ArbitraryFirst, op.swap)
  {
    hide First, OpFor, GroupOf, GroupOk, FirstAngles, SecondAngles;
    ArbitraryGroup(f, g.n, sorted, level, m);
    GraphOpsAt(f, g.n, sorted, level, g.Total(), m, 2);
  }

  lemma {:induction false} ArbitraryGroup(f: Functions, n: nat, sorted: seq<GraphOperation>, level: real, m: nat)
    requires n >= 1 && GroupOk(f, n, sorted, level, m) && IsArbitrary(sorted, m)
    ensures |OpFor(sorted, m).parameters| == 3
    ensures var op := OpFor(sorted, m);
      GroupOf(f, n, sorted, level, m).Some? && |GroupOf(f, n, sorted, level, m).value| == 3
      && GroupOf(f, n, sorted, level, m).value[2].params == ManualAngles(f, op.parameters, op.type_ == ArbitraryFirst, op.swap)
  {
    hide OpFor, UpMode, LeftMode, Constructible, DisplacementParams, FirstAngles, SecondAngles;
  }

  lemma {:induction false} Visiting(f: Functions, g: Graph, sorted: seq<GraphOperation>, level: real, ffs: seq<FeedForward>)
    returns (order: seq<nat>, lists: seq<seq<Pending>>)
    requires g.Valid() && GraphCompiles(f, g, sorted, level) && IsGraphFFs(f, g, sorted, level, ffs)
    ensures GroupsOk(f, g.n, sorted, level, g.Total()) && AllResolve(g, sorted, |g.nlffs|)
    ensures FromVisit(f, g, sorted, level, ffs, order, lists)
    ensures IsVisit(g, sorted, order, lists) && VisitsAll(g, sorted, order)
  {
    hide GroupsOk, AllResolve, IsVisit, VisitsAll, Directs, ManualList;
    order, lists :| FromVisit(f, g, sorted, level, ffs, order, lists);
  }

  /** The list visited for macronode m, empty when nothing is stored for it. */
  lemma {:induction false} VisitOf(g: Graph, sorted: seq<GraphOperation>, order: seq<nat>, lists: seq<seq<Pending>>, m: nat)
    returns (list: seq<Pending>, n: nat)
    requires g.Valid() && AllResolve(g, sorted, |g.nlffs|) && IsVisit(g, sorted, order, lists) && VisitsAll(g, sorted, order)
    requires m < g.Total() && IsArbitrary(sorted, m)
    ensures Visits(g, sorted, m, list) && |order| == |lists|
    ensures list != [] ==> n < |order| && order[n] == m && lists[n] == list
    ensures list == [] ==> forall i | 0 <= i < |order| && order[i] == m :: lists[i] == []
  {
    hide AllResolve, PendingFor, IsArbitrary;
    n := 0;
    if m in order {
      n :| 0 <= n < |order| && order[n] == m;
      list := lists[n];
    } else {
      list := [];
      assert PendingFor(g, sorted, m, |g.nlffs|) == [];
    }
  }

  lemma {:induction false} SourcesMeasured(g: Graph, sorted: seq<GraphOperation>, m: nat, list: seq<Pending>, measured: map<nat, real>)
    requires g.Valid() && AllResolve(g, sorted, |g.nlffs|) && Visits(g, sorted, m, list)
    requires forall i | 0 <= i < |g.nlffs| && Resolves(g, sorted, i) :: Source(g, sorted, i) in measured
    ensures Readable(SourcesOfPending(list), measured)
  {
    hide Resolves, Source, PendingFor, Stored, Func, IsArbitrary;
    SameMembers(list, PendingFor(g, sorted, m, |g.nlffs|));
    forall s | s in SourcesOfPending(list) ensures s in measured {
      var j :| 0 <= j < |list| && SourcesOfPending(list)[j] == s;
      PendingComesFrom(g, sorted, m, |g.nlffs|, list[j]);
      var i :| 0 <= i < |g.nlffs| && IsPendingOf(g, sorted, m, i, list[j]);
    }
  }

  /** Who writes the Manual gate of macronode m. */
  lemma {:induction false} WhoWritesManual(
    f: Functions, g: Graph, sorted: seq<GraphOperation>, level: real, ffs: seq<FeedForward>,
    order: seq<nat>, lists: seq<seq<Pending>>, m: nat, n: nat)
    returns (l: nat, a: nat)
    requires g.Valid() && GraphCompiles(f, g, sorted, level) && FromVisit(f, g, sorted, level, ffs, order, lists) && n < |ffs|
    requires m < g.Total() && IsArbitrary(sorted, m) && ffs[n].target.op == First(sorted, m) + 2
    ensures l < |order| && order[l] == m && IsManual(f, sorted, ffs[n], m, lists[l], a) && ffs[n].target.param == a
  {
    hide GroupsOk, Directs, ManualList, AllResolve, First, OpFor, VisitsAll, Resolves, PendingFor, IsManual, IsArbitrary;
    AllSupported(f, g, sorted, level);
    var directs := Directs(f, g, sorted, Ops(f, g, sorted, level), |g.nlffs|);
    DirectMissesManual(f, g, sorted, Ops(f, g, sorted, level), |g.nlffs|, m);
    assert forall l | 0 <= l < |directs| :: ffs[l] == directs[l];
    assert n >= |directs|;
    l, a := ManualsAre(f, sorted, order, lists, n - |directs|);
    ManualTargets(f, sorted, ffs[n], order[l], lists[l], a);
    assert Visits(g, sorted, order[l], lists[l]);
    ManualWithin(sorted, order[l]);
    ManualWithin(sorted, m);
    if order[l] != m {
      MacronodesApart(sorted, order[l], m, ffs[n].target.op, ffs[n].target.op);
    }
  }

  lemma {:induction false} OnceInOrder(g: Graph, sorted: seq<GraphOperation>, order: seq<nat>, lists: seq<seq<Pending>>, i: nat, j: nat)
    requires g.Valid() && AllResolve(g, sorted, |g.nlffs|) && IsVisit(g, sorted, order, lists)
    requires i < |order|
    ensures j < |order| && order[i] == order[j] ==> i == j
  {
    hide AllResolve, Visits;
  }

  lemma {:induction false} NotFedManual(
    f: Functions, g: Graph, sorted: seq<GraphOperation>, level: real, ffs: seq<FeedForward>, fin: seq<Op>, measured: map<nat, real>,
    order: seq<nat>, lists: seq<seq<Pending>>, m: nat, list: seq<Pending>, n: nat)
    requires g.Valid() && GraphCompiles(f, g, sorted, level) && FromVisit(f, g, sorted, level, ffs, order, lists)
    requires LeftBy(Ops(f, g, sorted, level), ffs, fin, measured)
    requires m < g.Total() && IsArbitrary(sorted, m)
    requires list != [] ==> n < |order| && order[n] == m && lists[n] == list
    requires list == [] ==> forall i | 0 <= i < |order| && order[i] == m :: lists[i] == []
    requires AllResolve(g, sorted, |g.nlffs|) && IsVisit(g, sorted, order, lists) && GroupsOk(f, g.n, sorted, level, g.Total())
    requires |order| == |lists| && (list == [] || Irrelevant(list, OpFor(sorted, m).type_ == ArbitraryFirst))
    ensures First(sorted, m) + 2 < |Ops(f, g, sorted, level)|
    ensures ManualParams(fin, First(sorted, m) + 2) == Ops(f, g, sorted, level)[First(sorted, m) + 2].params
  {
    hide *;
    var ops, target := Ops(f, g, sorted, level), First(sorted, m) + 2;
    ArbitraryAsBuilt(f, g, sorted, level, m);
    forall l | 0 <= l < |ffs| ensures ffs[l].target.op != target {
      if ffs[l].target.op == target {
        var i, a := WhoWritesManual(f, g, sorted, level, ffs, order, lists, m, l);
        OnceInOrder(g, sorted, order, lists, i, n);
        ManualIsFed(f, sorted, ffs[l], m, lists[i], a);
        assert false;
      }
    }
    MeansUntouched(ffs, target);
    UntouchedParams(ops, ffs, fin, measured, target);
  }

  lemma {:induction false} MeansUntouched(ffs: seq<FeedForward>, target: nat)
    requires forall l | 0 <= l < |ffs| :: ffs[l].target.op != target
    ensures Untouched(ffs, target)
  {
  }

  lemma {:induction false} ManualIsFed(f: Functions, sorted: seq<GraphOperation>, ff: FeedForward, m: nat, list: seq<Pending>, a: nat)
    requires IsManual(f, sorted, ff, m, list, a)
    ensures list != [] && !Irrelevant(list, OpFor(sorted, m).type_ == ArbitraryFirst)
  {
    hide Irrelevant, OpFor, ManualFF;
  }

  lemma {:induction false} UntouchedParams(ops: seq<Op>, ffs: seq<FeedForward>, fin: seq<Op>, measured: map<nat, real>, target: nat)
    requires LeftBy(ops, ffs, fin, measured) && target < |ops| && Untouched(ffs, target)
    ensures ManualParams(fin, target) == ops[target].params
  {
    assert ops[target].SameShape(fin[target]);
    hide SameShapes;
    forall q | 0 <= q < |ops[target].params| ensures fin[target].params[q] == ops[target].params[q] {
      NotWritten(ops, ffs, fin, measured, ParamIdx(target, q));
    }
  }

  /** The angles after feeding forward the values in the list. */
  function FedAngles(f: Functions, sorted: seq<GraphOperation>, m: nat, list: seq<Pending>, measured: map<nat, real>): seq<real>
    requires Readable(SourcesOfPending(list), measured) && |OpFor(sorted, m).parameters| == 3
  {
    var op, args := OpFor(sorted, m), Values(SourcesOfPending(list), measured);
    ManualAngles(f, Updated(op.parameters, list, args, |list|), op.type_ == ArbitraryFirst, op.swap)
  }

  ghost predicate Holds(ops: seq<Op>, t: ParamIdx, v: real) {
    HasParam(ops, t) && Param(ops, t) == v
  }

  lemma {:induction false} FedManual(
    f: Functions, g: Graph, sorted: seq<GraphOperation>, level: real, ffs: seq<FeedForward>, fin: seq<Op>, measured: map<nat, real>,
    order: seq<nat>, lists: seq<seq<Pending>>, n: nat)
    requires g.Valid() && GraphCompiles(f, g, sorted, level) && FromVisit(f, g, sorted, level, ffs, order, lists)
    requires LeftBy(Ops(f, g, sorted, level), ffs, fin, measured) && n < |order| == |lists| && IsArbitrary(sorted, order[n]) && order[n] < g.Total()
    requires lists[n] != [] && !Irrelevant(lists[n], OpFor(sorted, order[n]).type_ == ArbitraryFirst)
    requires Readable(SourcesOfPending(lists[n]), measured) && |OpFor(sorted, order[n]).parameters| == 3
    requires GroupsOk(f, g.n, sorted, level, g.Total())
    ensures ManualParams(fin, First(sorted, order[n]) + 2) == FedAngles(f, sorted, order[n], lists[n], measured)
  {
    hide *;
    var m, list := order[n], lists[n];
    var ops, target, angles := Ops(f, g, sorted, level), First(sorted, m) + 2, FedAngles(f, sorted, m, list, measured);
    ArbitraryAsBuilt(f, g, sorted, level, m);
    LeftByShapes(ops, ffs, fin, measured);
    FourFed(f, sorted, m, list, measured);
    FourAngles(f, OpFor(sorted, m).parameters, OpFor(sorted, m).type_ == ArbitraryFirst, OpFor(sorted, m).swap);
    forall a: nat | a < 4 ensures Holds(fin, ParamIdx(target, a), angles[a]) {
      FedAngle(f, g, sorted, level, ffs, fin, measured, order, lists, n, a);
    }
    FourParams(ops, fin, target, angles);
  }

  lemma {:induction false} FourFed(f: Functions, sorted: seq<GraphOperation>, m: nat, list: seq<Pending>, measured: map<nat, real>)
    requires Readable(SourcesOfPending(list), measured) && |OpFor(sorted, m).parameters| == 3
    ensures |FedAngles(f, sorted, m, list, measured)| == 4
  {
    hide OpFor, Updated;
  }

  lemma {:induction false} FourParams(ops: seq<Op>, fin: seq<Op>, target: nat, angles: seq<real>)
    requires SameShapes(ops, fin) && target < |ops| && |ops[target].params| == |angles| == 4
    requires forall a: nat | a < 4 :: Holds(fin, ParamIdx(target, a), angles[a])
    ensures ManualParams(fin, target) == angles
  {
    assert ops[target].SameShape(fin[target]);
    forall a: nat | a < 4 ensures fin[target].params[a] == angles[a] {
      assert Holds(fin, ParamIdx(target, a), angles[a]);
    }
  }

  lemma {:induction false} LeftByMember(ops: seq<Op>, ffs: seq<FeedForward>, fin: seq<Op>, measured: map<nat, real>, ff: FeedForward)
    requires LeftBy(ops, ffs, fin, measured) && ff in ffs
    ensures Readable(ff.sources, measured) && HasParam(fin, ff.target) && Param(fin, ff.target) == ff.func(Values(ff.sources, measured))
  {
    hide SameShapes;
  }

  lemma {:induction false} FedAngle(
    f: Functions, g: Graph, sorted: seq<GraphOperation>, level: real, ffs: seq<FeedForward>, fin: seq<Op>, measured: map<nat, real>,
    order: seq<nat>, lists: seq<seq<Pending>>, n: nat, a: nat)
    requires g.Valid() && GraphCompiles(f, g, sorted, level) && FromVisit(f, g, sorted, level, ffs, order, lists)
    requires GroupsOk(f, g.n, sorted, level, g.Total())
    requires LeftBy(Ops(f, g, sorted, level), ffs, fin, measured) && n < |order| == |lists| && a < 4
    requires lists[n] != [] && !Irrelevant(lists[n], OpFor(sorted, order[n]).type_ == ArbitraryFirst)
    requires Readable(SourcesOfPending(lists[n]), measured) && |OpFor(sorted, order[n]).parameters| == 3
    ensures |FedAngles(f, sorted, order[n], lists[n], measured)| == 4
    ensures Holds(fin, ParamIdx(First(sorted, order[n]) + 2, a), FedAngles(f, sorted, order[n], lists[n], measured)[a])
  {
    hide *;
    FourFed(f, sorted, order[n], lists[n], measured);
    var m, list := order[n], lists[n];
    var op := OpFor(sorted, m);
    var ff := ManualFF(f, list, op.parameters, op.type_ == ArbitraryFirst, op.swap, First(sorted, m) + 2, a);
    ManualIsThere(f, sorted, order, lists, n, a);
    ManualMember(f, g, sorted, level, ffs, order, lists, ff);
    LeftByMember(Ops(f, g, sorted, level), ffs, fin, measured, ff);
    ManualFFValue(f, sorted, m, list, a, measured);
    MeansHolds(fin, ff.target, FedAngles(f, sorted, m, list, measured)[a]);
  }

  lemma {:induction false} MeansHolds(ops: seq<Op>, t: ParamIdx, v: real)
    requires HasParam(ops, t) && Param(ops, t) == v
    ensures Holds(ops, t, v)
  {
  }

  lemma {:induction false} ManualMember(
    f: Functions, g: Graph, sorted: seq<GraphOperation>, level: real, ffs: seq<FeedForward>, order: seq<nat>, lists: seq<seq<Pending>>, ff: FeedForward)
    requires g.Valid() && GraphCompiles(f, g, sorted, level) && FromVisit(f, g, sorted, level, ffs, order, lists)
    requires |order| == |lists| && ff in ManualList(f, sorted, order, lists)
    ensures ff in ffs
  {
    hide Directs, ManualList, IsVisit, VisitsAll, GraphOps, GroupsOk;
  }

  lemma {:induction false} FourAngles(f: Functions, p: seq<real>, isFirst: bool, swap: bool)
    requires |p| == 3
    ensures |ManualAngles(f, p, isFirst, swap)| == 4
  {
  }

  lemma {:induction false} ManualFFValue(f: Functions, sorted: seq<GraphOperation>, m: nat, list: seq<Pending>, a: nat, measured: map<nat, real>)
    requires |OpFor(sorted, m).parameters| == 3 && a < 4 && Readable(SourcesOfPending(list), measured)
    ensures var op := OpFor(sorted, m);
      var ff := ManualFF(f, list, op.parameters, op.type_ == ArbitraryFirst, op.swap, First(sorted, m) + 2, a);
      ff.target == ParamIdx(First(sorted, m) + 2, a) && ff.sources == SourcesOfPending(list)
      && |FedAngles(f, sorted, m, list, measured)| == 4
      && ff.func(Values(ff.sources, measured)) == FedAngles(f, sorted, m, list, measured)[a]
  {
    hide FirstAngles, SecondAngles, OpFor, First, Updated;
    FourFed(f, sorted, m, list, measured);
    HasSources(list);
  }

  lemma {:induction false} FedAnglesAre(f: Functions, sorted: seq<GraphOperation>, m: nat, list: seq<Pending>, measured: map<nat, real>)
    requires Readable(SourcesOfPending(list), measured) && |OpFor(sorted, m).parameters| == 3 && |SourcesOfPending(list)| == |list|
    ensures var op, args := OpFor(sorted, m), Values(SourcesOfPending(list), measured);
      FedAngles(f, sorted, m, list, measured)
      == ManualAngles(f, Updated(op.parameters, list, args, |list|), op.type_ == ArbitraryFirst, op.swap)
  {
    hide OpFor, Updated, ManualAngles;
  }

  /** In every run, the Manual gate of an Arbitrary operation ends up with the angles that belong to the
      fed-forward parameters.  Leaving out the lone parameter that does not enter the angles is sound.
      (The gate itself keeps the matrix it was built with.) */
  lemma {:induction false} ManualAnglesFollow(
    f: Functions, g: Graph, sorted: seq<GraphOperation>, level: real, ffs: seq<FeedForward>, fin: seq<Op>, measured: map<nat, real>, m: nat)
    returns (p: seq<real>)
    requires g.Valid() && GraphCompiles(f, g, sorted, level) && IsGraphFFs(f, g, sorted, level, ffs) && TargetsFit(g, sorted)
    requires LeftBy(Ops(f, g, sorted, level), ffs, fin, measured)
    requires forall i | 0 <= i < |g.nlffs| && Resolves(g, sorted, i) :: Source(g, sorted, i) in measured
    requires m < g.Total() && IsArbitrary(sorted, m)
    ensures |p| == 3 && FedForward(g, sorted, m, measured, p)
    ensures ManualParams(fin, First(sorted, m) + 2)
            == ManualAngles(f, p, OpFor(sorted, m).type_ == ArbitraryFirst, OpFor(sorted, m).swap)
  {
    hide *;
    var order, lists := Visiting(f, g, sorted, level, ffs);
    ArbitraryAsBuilt(f, g, sorted, level, m);
    var list, n := VisitOf(g, sorted, order, lists, m);
    SourcesMeasured(g, sorted, m, list, measured);
    var args, op := Values(SourcesOfPending(list), measured), OpFor(sorted, m);
    HasSources(list);
    UpdatedIsFedForward(g, sorted, m, list, measured, args);
    p := Updated(op.parameters, list, args, |list|);
    if list == [] || Irrelevant(list, op.type_ == ArbitraryFirst) {
      NotFedManual(f, g, sorted, level, ffs, fin, measured, order, lists, m, list, n);
      if list == [] {
        NothingUpdated(op.parameters, args);
      } else {
        IrrelevantIsIrrelevant(f, list, op.parameters, op.type_ == ArbitraryFirst, op.swap, args);
      }
    } else {
      FedManual(f, g, sorted, level, ffs, fin, measured, order, lists, n);
      FedAnglesAre(f, sorted, m, list, measured);
    }
  }

  lemma {:induction false} NothingUpdated(initial: seq<real>, args: seq<real>)
    ensures Updated(initial, [], args, 0) == initial
  {
  }

  // ----- every run -----

  /** The Manual gate of the Arbitrary operation of macronode m holds the angles of its fed-forward parameters. */
  ghost predicate FollowsArbitrary(f: Functions, g: Graph, sorted: seq<GraphOperation>, fin: seq<Op>, measured: map<nat, real>, m: nat)
    requires g.Valid() && AllResolve(g, sorted, |g.nlffs|)
  {
    exists p :: |p| == 3 && FedForward(g, sorted, m, measured, p)
                && ManualParams(fin, First(sorted, m) + 2) == ManualAngles(f, p, OpFor(sorted, m).type_ == ArbitraryFirst, OpFor(sorted, m).swap)
  }

  lemma {:induction false} SourceHasValue(
    f: Functions, g: Graph, sorted: seq<GraphOperation>, level: real, measured: map<nat, real>, i: nat)
    requires g.Valid() && GroupsOk(f, g.n, sorted, level, g.Total()) && i < |g.nlffs| && Resolves(g, sorted, i)
    requires forall j: nat :: j in measured <==> j < |Ops(f, g, sorted, level)| && IsMeasurement(Ops(f, g, sorted, level)[j].kind)
    ensures Source(g, sorted, i) in measured
  {
    hide GroupsOk, Resolves, Source, Ops, OpFor, First;
    SourceIsMeasurement(f, g, sorted, level, i);
  }

  lemma {:induction false} CompiledMeans(f: Functions, g: Graph, sorted: seq<GraphOperation>, level: real)
    requires g.Valid() && GraphCompiles(f, g, sorted, level)
    ensures GroupsOk(f, g.n, sorted, level, g.Total()) && AllResolve(g, sorted, |g.nlffs|)
  {
    hide GroupsOk, AllResolve;
  }

  /** A run of a compiled graph program, on any kind of state, never throws; and at its end (so also when
      they are executed) replacements follow their measurements and Manual gates their Arbitrary operations. */
  lemma {:induction false} GraphRun<Peak, Rng, Sample>(
    kernel: Kernel<Peak, Rng, Sample>, f: Functions, g: Graph, sorted: seq<GraphOperation>, level: real, ffs: seq<FeedForward>, s: Exec<Peak, Rng>)
    requires g.Valid() && GraphCompiles(f, g, sorted, level) && IsGraphFFs(f, g, sorted, level, ffs)
    requires Forward(g) && TargetsFit(g, sorted) && ParametersExist(g, sorted)
    requires s.ops == Ops(f, g, sorted, level) && s.measured == map[]
    ensures AllResolve(g, sorted, |g.nlffs|) && Execute(kernel, ffs, s).Some?
    ensures forall m: nat | m < g.Total() && ShapeOf(OpFor(sorted, m).type_).MeasurementShape? ::
              QuarterTurnBehind(f, Final(kernel, ffs, s).ops, First(sorted, m))
    ensures forall m: nat | m < g.Total() && IsArbitrary(sorted, m) ::
              FollowsArbitrary(f, g, sorted, Final(kernel, ffs, s).ops, Final(kernel, ffs, s).measured, m)
    ensures forall i: nat | i < |s.ops| :: ExecutedAsFinal(kernel, ffs, s, i)
  {
    hide *;
    CompiledMeans(f, g, sorted, level);
    GraphWellFormed(f, g, sorted, level, ffs);
    FinalParameters(kernel, ffs, s);
    var fin := Final(kernel, ffs, s);
    forall i: nat | i < |g.nlffs| && Resolves(g, sorted, i) ensures Source(g, sorted, i) in fin.measured {
      SourceHasValue(f, g, sorted, level, fin.measured, i);
    }
    forall m: nat | m < g.Total() && ShapeOf(OpFor(sorted, m).type_).MeasurementShape?
      ensures QuarterTurnBehind(f, fin.ops, First(sorted, m))
    {
      ReplacementFollowsMeasurement(f, g, sorted, level, ffs, fin.ops, fin.measured, m);
    }
    forall m: nat | m < g.Total() && IsArbitrary(sorted, m)
      ensures FollowsArbitrary(f, g, sorted, fin.ops, fin.measured, m)
    {
      var p := ManualAnglesFollow(f, g, sorted, level, ffs, fin.ops, fin.measured, m);
      MeansFollows(f, g, sorted, fin.ops, fin.measured, m, p);
    }
    AllExecutedAsFinal(kernel, ffs, s);
  }

  lemma {:induction false} MeansFollows(
    f: Functions, g: Graph, sorted: seq<GraphOperation>, fin: seq<Op>, measured: map<nat, real>, m: nat, p: seq<real>)
    requires g.Valid() && AllResolve(g, sorted, |g.nlffs|) && |p| == 3 && FedForward(g, sorted, m, measured, p)
    requires ManualParams(fin, First(sorted, m) + 2) == ManualAngles(f, p, OpFor(sorted, m).type_ == ArbitraryFirst, OpFor(sorted, m).swap)
    ensures FollowsArbitrary(f, g, sorted, fin, measured, m)
  {
    hide AllResolve, FedForward, ManualParams, ManualAngles, OpFor, First;
  }
}
