/** Which nonlinear feedforward of a graph program can influence a run of its circuit. */
module GraphInfluence {
  import opened Elementary
  import opened Operations
  import opened Engine
  import opened GraphProgram
  import opened GraphFeedForward
  import opened GraphCircuitBuilder
  import opened GraphRuns
  import opened Influence
  import opened Reuse

  /** It leads to a parameter of a gate: not to a displacement, and not to the angle of a measurement. */
  predicate IntoGate(sorted: seq<GraphOperation>, nlff: GraphFF) {
    nlff.toParameter < 4 && !ShapeOf(OpFor(sorted, nlff.toMacronode).type_).MeasurementShape?
  }

  function Ungated(sorted: seq<GraphOperation>, nlffs: seq<GraphFF>): (r: seq<GraphFF>)
    ensures |r| <= |nlffs|
  {
    if nlffs == [] then []
    else
      var last := nlffs[|nlffs| - 1];
      Ungated(sorted, nlffs[..|nlffs| - 1]) + if IntoGate(sorted, last) then [] else [last]
  }

  /** The program without its nonlinear feedforward into gates. */
  function UngatedGraph(sorted: seq<GraphOperation>, g: Graph): Graph {
    g.(nlffs := Ungated(sorted, g.nlffs))
  }

  /** How many of the first i nonlinear feedforwards are left. */
  function Kept(sorted: seq<GraphOperation>, g: Graph, i: nat): nat
    requires i <= |g.nlffs|
  {
    |Ungated(sorted, g.nlffs[..i])|
  }

  lemma {:induction false} KeptStep(sorted: seq<GraphOperation>, g: Graph, i: nat)
    requires i < |g.nlffs|
    ensures Ungated(sorted, g.nlffs[..i + 1]) == Ungated(sorted, g.nlffs[..i]) + if IntoGate(sorted, g.nlffs[i]) then [] else [g.nlffs[i]]
    ensures Kept(sorted, g, i + 1) == Kept(sorted, g, i) + if IntoGate(sorted, g.nlffs[i]) then 0 else 1
  {
    hide IntoGate;
    assert g.nlffs[..i + 1][..i] == g.nlffs[..i];
  }

  lemma {:induction false} KeptPrefix(sorted: seq<GraphOperation>, g: Graph, i: nat)
    requires i <= |g.nlffs|
    ensures Ungated(sorted, g.nlffs[..i]) <= Ungated(sorted, g.nlffs)
    decreases |g.nlffs| - i
  {
    hide IntoGate;
    if i < |g.nlffs| {
      KeptStep(sorted, g, i);
      KeptPrefix(sorted, g, i + 1);
    } else {
      assert g.nlffs[..i] == g.nlffs;
    }
  }

  /** Where nonlinear feedforward i is in the smaller program. */
  lemma {:induction false} KeptAt(sorted: seq<GraphOperation>, g: Graph, i: nat)
    requires i < |g.nlffs|
    ensures Kept(sorted, g, |g.nlffs|) == |UngatedGraph(sorted, g).nlffs|
    ensures Kept(sorted, g, i) <= |UngatedGraph(sorted, g).nlffs|
    ensures !IntoGate(sorted, g.nlffs[i]) ==>
              Kept(sorted, g, i) < |UngatedGraph(sorted, g).nlffs| && UngatedGraph(sorted, g).nlffs[Kept(sorted, g, i)] == g.nlffs[i]
  {
    hide IntoGate, Ungated;
    KeptStep(sorted, g, i);
    KeptPrefix(sorted, g, i);
    KeptPrefix(sorted, g, i + 1);
    assert g.nlffs[..|g.nlffs|] == g.nlffs;
  }

  lemma {:induction false} KeptFrom(sorted: seq<GraphOperation>, nlffs: seq<GraphFF>)
    ensures forall nlff | nlff in Ungated(sorted, nlffs) :: nlff in nlffs && !IntoGate(sorted, nlff)
  {
    hide IntoGate;
    if nlffs != [] {
      KeptFrom(sorted, nlffs[..|nlffs| - 1]);
    }
  }

  lemma {:induction false} UngatedValid(sorted: seq<GraphOperation>, g: Graph)
    requires g.Valid()
    ensures UngatedGraph(sorted, g).Valid()
  {
    hide IntoGate;
    KeptFrom(sorted, g.nlffs);
    var r := UngatedGraph(sorted, g).nlffs;
    forall i | 0 <= i < |r| ensures r[i].function_ < |g.functions| {
      assert r[i] in g.nlffs;
    }
  }

  /** The same nonlinear feedforward in two programs with the same macronodes and functions. */
  lemma {:induction false} SameFF(
    f: Functions, g: Graph, g': Graph, sorted: seq<GraphOperation>, ops: seq<Op>, i: nat, i': nat)
    requires g.Valid() && g'.Valid() && g.n == g'.n && g.steps == g'.steps && g.functions == g'.functions
    requires i < |g.nlffs| && i' < |g'.nlffs| && g.nlffs[i] == g'.nlffs[i'] && Resolves(g, sorted, i)
    ensures Resolves(g', sorted, i') && Stored(g', sorted, i') == Stored(g, sorted, i)
    ensures Targets(g', sorted, i') == Targets(g, sorted, i)
    ensures Direct(f, g', sorted, ops, i') == Direct(f, g, sorted, ops, i)
    ensures forall j | 0 <= j < |Targets(g, sorted, i)| :: FFTo(f, g', sorted, ops, i', j) == FFTo(f, g, sorted, ops, i, j)
  {
    assert g.Total() == g'.Total();
    hide Records, SourceOp, TargetParams, FuncFor, KindOf, IsArbitrary;
    assert Direct(f, g', sorted, ops, i') == Direct(f, g, sorted, ops, i);
  }

  /** What remains of the first i direct feedforwards. */
  ghost predicate Remain(f: Functions, g: Graph, sorted: seq<GraphOperation>, ops: seq<Op>, i: nat)
    requires g.Valid() && i <= |g.nlffs| && AllResolve(g, sorted, i)
  {
    var g', i' := UngatedGraph(sorted, g), Kept(sorted, g, i);
    && g'.Valid() && i' <= |g'.nlffs| && AllResolve(g', sorted, i')
    && (forall ff | ff in Directs(f, g', sorted, ops, i') :: ff in Directs(f, g, sorted, ops, i))
    && (UniqueTargets(Directs(f, g, sorted, ops, i)) ==> UniqueTargets(Directs(f, g', sorted, ops, i')))
  }

  lemma {:induction false} DirectsRemain(f: Functions, g: Graph, sorted: seq<GraphOperation>, ops: seq<Op>, i: nat)
    requires g.Valid() && i <= |g.nlffs| && AllResolve(g, sorted, i)
    ensures Remain(f, g, sorted, ops, i)
  {
    var g' := UngatedGraph(sorted, g);
    hide IntoGate, Ungated, Direct, Resolves, UniqueTargets, UngatedGraph;
    UngatedValid(sorted, g);
    if i == 0 {
      NothingKept(sorted, g);
      assert Directs(f, g', sorted, ops, 0) == Directs(f, g, sorted, ops, 0);
    } else {
      DirectsRemain(f, g, sorted, ops, i - 1);
      KeptStep(sorted, g, i - 1);
      KeptAt(sorted, g, i - 1);
      var before, more := Directs(f, g, sorted, ops, i - 1), Direct(f, g, sorted, ops, i - 1);
      var i' := Kept(sorted, g, i - 1);
      assert Directs(f, g, sorted, ops, i) == before + more;
      if IntoGate(sorted, g.nlffs[i - 1]) {
        if UniqueTargets(before + more) {
          UniqueParts(before, more, before);
        }
      } else {
        SameMacronodes(sorted, g);
        SameFF(f, g, g', sorted, ops, i - 1, i');
        assert Directs(f, g', sorted, ops, i' + 1) == Directs(f, g', sorted, ops, i') + more;
        if UniqueTargets(before + more) {
          UniqueParts(before, more, Directs(f, g', sorted, ops, i'));
        }
      }
    }
  }

  lemma {:induction false} SameMacronodes(sorted: seq<GraphOperation>, g: Graph)
    ensures var g' := UngatedGraph(sorted, g); g.n == g'.n && g.steps == g'.steps && g.functions == g'.functions && g.operations == g'.operations
  {
  }

  lemma {:induction false} NothingKept(sorted: seq<GraphOperation>, g: Graph)
    ensures Kept(sorted, g, 0) == 0
  {
  }

  lemma {:induction false} UniqueParts(a: seq<FeedForward>, b: seq<FeedForward>, part: seq<FeedForward>)
    requires UniqueTargets(a + b) && forall ff | ff in part :: ff in a
    ensures UniqueTargets(a)
    ensures UniqueTargets(part) ==> UniqueTargets(part + b)
  {
    var all := a + b;
    forall m, n | 0 <= m < n < |a| ensures a[m].target != a[n].target {
      assert all[m].target != all[n].target;
    }
    if UniqueTargets(part) {
      forall m, n | 0 <= m < n < |part + b| ensures (part + b)[m].target != (part + b)[n].target {
        if m < |part| <= n {
          assert part[m] in a;
          var l :| 0 <= l < |a| && a[l] == part[m];
          assert all[l].target != all[|a| + n - |part|].target;
        } else if |part| <= m {
          assert all[|a| + m - |part|].target != all[|a| + n - |part|].target;
        }
      }
    }
  }

  /** Nothing is stored for an Arbitrary operation of the smaller program. */
  lemma {:induction false} NothingStored(g: Graph, sorted: seq<GraphOperation>, m: nat)
    requires g.Valid() && UngatedGraph(sorted, g).Valid() && AllResolve(UngatedGraph(sorted, g), sorted, |UngatedGraph(sorted, g).nlffs|)
    ensures PendingFor(UngatedGraph(sorted, g), sorted, m, |UngatedGraph(sorted, g).nlffs|) == []
  {
    var g' := UngatedGraph(sorted, g);
    var list := PendingFor(g', sorted, m, |g'.nlffs|);
    KeptFrom(sorted, g.nlffs);
    hide Resolves, Source, Func, PendingFor, OpFor, Ungated;
    if list != [] {
      PendingComesFrom(g', sorted, m, |g'.nlffs|, list[0]);
      var l :| 0 <= l < |g'.nlffs| && IsPendingOf(g', sorted, m, l, list[0]);
      ArbitraryIsBinary(sorted, g'.nlffs[l].toMacronode);
      assert g'.nlffs[l] in Ungated(sorted, g.nlffs);
    }
  }

  /** The smaller program still compiles. */
  lemma {:induction false} UngatedCompiles(f: Functions, g: Graph, sorted: seq<GraphOperation>, level: real)
    requires g.Valid() && GraphCompiles(f, g, sorted, level)
    ensures UngatedGraph(sorted, g).Valid() && GraphCompiles(f, UngatedGraph(sorted, g), sorted, level)
    ensures Ops(f, UngatedGraph(sorted, g), sorted, level) == Ops(f, g, sorted, level)
  {
    var g' := UngatedGraph(sorted, g);
    hide GroupsOk, AllResolve, Directs, PendingFor, GraphOps, UniqueTargets, Ungated;
    UngatedValid(sorted, g);
    DirectsRemain(f, g, sorted, GraphOps(f, g.n, sorted, level, g.Total()), |g.nlffs|);
    AllKept(sorted, g);
    forall m: nat | m < g'.Total() ensures PendingFor(g', sorted, m, |g'.nlffs|) == [] {
      NothingStored(g, sorted, m);
    }
  }

  lemma {:induction false} AllKept(sorted: seq<GraphOperation>, g: Graph)
    ensures Kept(sorted, g, |g.nlffs|) == |UngatedGraph(sorted, g).nlffs|
  {
    assert g.nlffs[..|g.nlffs|] == g.nlffs;
    hide Ungated;
  }

  ghost predicate AreFFsOf(f: Functions, g: Graph, sorted: seq<GraphOperation>, level: real, ffs: seq<FeedForward>) {
    g.Valid() && GraphCompiles(f, g, sorted, level) && IsGraphFFs(f, g, sorted, level, ffs)
  }

  /** The feedforwards of the smaller program are direct feedforwards of the whole one. */
  lemma {:induction false} FewerFFs(f: Functions, g: Graph, sorted: seq<GraphOperation>, level: real, ffs: seq<FeedForward>, ffs': seq<FeedForward>)
    requires AreFFsOf(f, g, sorted, level, ffs) && AreFFsOf(f, UngatedGraph(sorted, g), sorted, level, ffs')
    ensures forall ff | ff in ffs' :: ff in ffs
  {
    hide *;
    var g' := UngatedGraph(sorted, g);
    Compiled(f, g, sorted, level, ffs);
    Compiled(f, g', sorted, level, ffs');
    var order, lists := Visiting(f, g, sorted, level, ffs);
    var split := SplitFFs(f, g, sorted, level, ffs, order, lists);
    var order', lists' := Visiting(f, g', sorted, level, ffs');
    var split' := SplitFFs(f, g', sorted, level, ffs', order', lists');
    SameMacronodes(sorted, g);
    SameOps(f, g, g', sorted, level);
    var ops := Ops(f, g, sorted, level);
    forall n | 0 <= n < |ffs'| ensures ffs'[n] in ffs {
      if n < split' {
        InDirects(f, g, sorted, ops, ffs'[n], n);
        var l :| 0 <= l < split && Directs(f, g, sorted, ops, |g.nlffs|)[l] == ffs'[n];
        assert ffs[l] == ffs'[n];
      } else {
        var i, a := ManualsAre(f, sorted, order', lists', n - split');
        VisitAt(g', sorted, order', lists', i);
        NothingStored(g, sorted, order'[i]);
        NotManual(f, g', sorted, ffs'[n], order'[i], lists'[i], a);
      }
    }
  }

  lemma {:induction false} NotManual(f: Functions, g: Graph, sorted: seq<GraphOperation>, ff: FeedForward, m: nat, list: seq<Pending>, a: nat)
    requires g.Valid() && AllResolve(g, sorted, |g.nlffs|) && Visits(g, sorted, m, list) && PendingFor(g, sorted, m, |g.nlffs|) == []
    ensures !IsManual(f, sorted, ff, m, list, a)
  {
    hide PendingFor, AllResolve, ManualFF, OpFor, First, IsArbitrary;
    assert multiset(list) == multiset([]);
    assert |list| == |multiset(list)| == 0;
  }

  lemma {:induction false} Compiled(f: Functions, g: Graph, sorted: seq<GraphOperation>, level: real, ffs: seq<FeedForward>)
    requires AreFFsOf(f, g, sorted, level, ffs)
    ensures g.Valid() && GraphCompiles(f, g, sorted, level) && IsGraphFFs(f, g, sorted, level, ffs) && UniqueTargets(ffs)
    ensures GroupsOk(f, g.n, sorted, level, g.Total()) && AllResolve(g, sorted, |g.nlffs|)
  {
    hide GroupsOk, AllResolve, UniqueTargets, FromVisit;
  }

  lemma {:induction false} SameOps(f: Functions, g: Graph, g': Graph, sorted: seq<GraphOperation>, level: real)
    requires g.Valid() && g'.Valid() && g.n == g'.n && g.steps == g'.steps
    requires GroupsOk(f, g.n, sorted, level, g.Total()) && GroupsOk(f, g'.n, sorted, level, g'.Total())
    ensures Ops(f, g', sorted, level) == Ops(f, g, sorted, level) && g.Total() == g'.Total()
  {
    hide GroupsOk, GraphOps;
  }

  lemma {:induction false} InDirects(f: Functions, g: Graph, sorted: seq<GraphOperation>, ops: seq<Op>, ff: FeedForward, n: nat)
    requires g.Valid() && UngatedGraph(sorted, g).Valid() && AllResolve(g, sorted, |g.nlffs|)
    requires AllResolve(UngatedGraph(sorted, g), sorted, |UngatedGraph(sorted, g).nlffs|)
    requires n < |Directs(f, UngatedGraph(sorted, g), sorted, ops, |UngatedGraph(sorted, g).nlffs|)|
    requires ff == Directs(f, UngatedGraph(sorted, g), sorted, ops, |UngatedGraph(sorted, g).nlffs|)[n]
    ensures ff in Directs(f, g, sorted, ops, |g.nlffs|)
  {
    hide Directs, AllResolve, UngatedGraph, UniqueTargets;
    DirectsRemain(f, g, sorted, ops, |g.nlffs|);
    AllKept(sorted, g);
  }

  lemma {:induction false} ShapeKinds(type_: OperationType)
    ensures match ShapeOf(type_) case UnaryShape(kind) => IsMatrixGate(kind) case BinaryShape(kind) => IsMatrixGate(kind) case _ => true
  {
  }

  /** A direct feedforward into a gate has a gate with a matrix as its target. */
  lemma {:induction false} GateTarget(f: Functions, g: Graph, sorted: seq<GraphOperation>, level: real, ff: FeedForward, i: nat, j: nat)
    requires g.Valid() && GroupsOk(f, g.n, sorted, level, g.Total()) && IsDirect(f, g, sorted, Ops(f, g, sorted, level), ff, i, j)
    requires IntoGate(sorted, g.nlffs[i])
    ensures !Influences(Ops(f, g, sorted, level), ff)
  {
    hide Resolves, Stored, Targets, Ops, First, GroupsOk, OpFor, ShapeOf, FFTo;
    var m := g.nlffs[i].toMacronode;
    DirectTarget(f, g, sorted, Ops(f, g, sorted, level), ff, i, j);
    TargetInMacronode(g, sorted, i);
    TargetOffset(g, sorted, i, j);
    MacronodeMember(f, g, sorted, level, m, ff.target.op - First(sorted, m));
    ShapeKinds(OpFor(sorted, m).type_);
  }

  /** All others can influence a run. */
  lemma {:induction false} OthersInfluence(f: Functions, g: Graph, sorted: seq<GraphOperation>, level: real, ff: FeedForward, i: nat, j: nat)
    requires g.Valid() && GroupsOk(f, g.n, sorted, level, g.Total()) && Forward(g)
    requires IsDirect(f, g, sorted, Ops(f, g, sorted, level), ff, i, j) && !IntoGate(sorted, g.nlffs[i])
    ensures Influences(Ops(f, g, sorted, level), ff)
  {
    hide Resolves, Stored, Targets, Ops, First, GroupsOk, OpFor, ShapeOf, FFTo, Forward;
    var m := g.nlffs[i].toMacronode;
    DirectTarget(f, g, sorted, Ops(f, g, sorted, level), ff, i, j);
    TargetInMacronode(g, sorted, i);
    TargetOffset(g, sorted, i, j);
    MacronodeMember(f, g, sorted, level, m, ff.target.op - First(sorted, m));
    IsForward(g, sorted, i);
    TargetAfter(f, g, sorted, level, i, j);
    SourcesOfDirect(f, g, sorted, Ops(f, g, sorted, level), ff, i, j);
  }

  lemma {:induction false} SourcesOfDirect(f: Functions, g: Graph, sorted: seq<GraphOperation>, ops: seq<Op>, ff: FeedForward, i: nat, j: nat)
    requires g.Valid() && IsDirect(f, g, sorted, ops, ff, i, j)
    ensures Resolves(g, sorted, i) && ff.sources == [Source(g, sorted, i)] && MaxSource(ff.sources) == Source(g, sorted, i)
  {
    hide Resolves, Stored, Targets, Source;
  }

  lemma {:induction false} ManualTargetGate(f: Functions, g: Graph, sorted: seq<GraphOperation>, level: real, ff: FeedForward, m: nat)
    requires g.Valid() && GroupsOk(f, g.n, sorted, level, g.Total()) && m < g.Total() && IsArbitrary(sorted, m)
    requires ff.target.op == First(sorted, m) + 2
    ensures !Influences(Ops(f, g, sorted, level), ff)
  {
    hide Ops, First, GroupsOk, OpFor;
    ArbitraryIsBinary(sorted, m);
    MacronodeMember(f, g, sorted, level, m, 2);
  }

  /** A feedforward of the whole program that can influence a run is still there in the smaller one. */
  lemma {:induction false} InfluenceStays(
    f: Functions, g: Graph, sorted: seq<GraphOperation>, level: real, ffs: seq<FeedForward>, ffs': seq<FeedForward>, n: nat)
    requires AreFFsOf(f, g, sorted, level, ffs) && AreFFsOf(f, UngatedGraph(sorted, g), sorted, level, ffs')
    requires n < |ffs| && Influences(Ops(f, g, sorted, level), ffs[n])
    ensures ffs[n] in ffs'
  {
    hide *;
    var g' := UngatedGraph(sorted, g);
    Compiled(f, g, sorted, level, ffs);
    Compiled(f, g', sorted, level, ffs');
    var ops := Ops(f, g, sorted, level);
    var order, lists := Visiting(f, g, sorted, level, ffs);
    var split := SplitFFs(f, g, sorted, level, ffs, order, lists);
    var order', lists' := Visiting(f, g', sorted, level, ffs');
    var split' := SplitFFs(f, g', sorted, level, ffs', order', lists');
    SameMacronodes(sorted, g);
    SameOps(f, g, g', sorted, level);
    if n < split {
      var i, j := DirectsAre(f, g, sorted, ops, |g.nlffs|, n);
      DirectTarget(f, g, sorted, ops, ffs[n], i, j);
      if IntoGate(sorted, g.nlffs[i]) {
        GateTarget(f, g, sorted, level, ffs[n], i, j);
      }
      KeptAt(sorted, g, i);
      var i' := Kept(sorted, g, i);
      SameFF(f, g, g', sorted, ops, i, i');
      DirectIsThere(f, g', sorted, ops, |g'.nlffs|, i', j);
      IsDirectFF(f, g, sorted, ops, ffs[n], i, j);
      var l :| 0 <= l < split' && Directs(f, g', sorted, ops, |g'.nlffs|)[l] == ffs[n];
      assert ffs'[l] == ffs[n];
    } else {
      var i, a := ManualsAre(f, sorted, order, lists, n - split);
      ManualTargets(f, sorted, ffs[n], order[i], lists[i], a);
      VisitAt(g, sorted, order, lists, i);
      VisitedArbitrary(g, sorted, order[i], lists[i]);
      ManualTargetGate(f, g, sorted, level, ffs[n], order[i]);
    }
  }

  lemma {:induction false} IsDirectFF(f: Functions, g: Graph, sorted: seq<GraphOperation>, ops: seq<Op>, ff: FeedForward, i: nat, j: nat)
    requires g.Valid() && IsDirect(f, g, sorted, ops, ff, i, j)
    ensures i < |g.nlffs| && Resolves(g, sorted, i) && j < |Targets(g, sorted, i)| && ff == FFTo(f, g, sorted, ops, i, j)
  {
    hide Resolves, Targets, Stored, FFTo;
  }

  /** Nonlinear feedforward into gates, Arbitrary operations among them, has no effect on any run: with or
      without it the circuit runs alike, on every kind of state. */
  lemma {:induction false} IntoGateIsInert<Peak, Rng, Sample>(
    kernel: Kernel<Peak, Rng, Sample>, f: Functions, g: Graph, sorted: seq<GraphOperation>, level: real,
    ffs: seq<FeedForward>, ffs': seq<FeedForward>, peaks: seq<Peak>, rng: Rng)
    requires AreFFsOf(f, g, sorted, level, ffs) && AreFFsOf(f, UngatedGraph(sorted, g), sorted, level, ffs')
    requires Forward(g) && TargetsFit(g, sorted) && ParametersExist(g, sorted)
    ensures RunAlike(kernel, ffs, Start(Ops(f, g, sorted, level), peaks, rng), ffs', Start(Ops(f, g, sorted, level), peaks, rng))
  {
    hide *;
    Compiled(f, g, sorted, level, ffs);
    Compiled(f, UngatedGraph(sorted, g), sorted, level, ffs');
    var ops := Ops(f, g, sorted, level);
    GraphWellFormed(f, g, sorted, level, ffs);
    FewerFFs(f, g, sorted, level, ffs, ffs');
    forall ff | ff in ffs && Influences(ops, ff) ensures ff in ffs' {
      var n :| 0 <= n < |ffs| && ffs[n] == ff;
      InfluenceStays(f, g, sorted, level, ffs, ffs', n);
    }
    Keeps(ops, ffs, ffs');
    OthersAreInert(kernel, ops, ffs, ffs', peaks, rng);
    StartIs(ops, peaks, rng);
  }

  lemma {:induction false} Keeps(ops: seq<Op>, ffs: seq<FeedForward>, kept: seq<FeedForward>)
    requires UniqueTargets(kept) && (forall ff | ff in kept :: ff in ffs) && (forall ff | ff in ffs && Influences(ops, ff) :: ff in kept)
    ensures KeepsInfluence(ops, ffs, kept)
  {
    hide UniqueTargets, Influences;
  }

  lemma {:induction false} StartIs<Peak, Rng>(ops: seq<Op>, peaks: seq<Peak>, rng: Rng)
    ensures Start(ops, peaks, rng) == Exec(peaks, rng, ops, map[])
  {
  }
}
