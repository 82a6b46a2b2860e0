/** Using a circuit again: with the parameters an earlier shot left behind, or as a copy of itself. */
module Reuse {
  import opened Elementary
  import opened Operations
  import opened Engine
  import opened CircuitObject
  import opened Resolution
  import opened Histories
  import opened Influence
  import opened Points

  // ----- a circuit left over from an earlier shot -----

  ghost predicate IsTarget(ffs: seq<FeedForward>, t: ParamIdx) {
    exists n :: 0 <= n < |ffs| && ffs[n].target == t
  }

  /** Only feedforward targets may differ from the circuit as built. */
  ghost predicate Stale(ops0: seq<Op>, ops: seq<Op>, ffs: seq<FeedForward>) {
    && SameShapes(ops0, ops)
    && forall t | HasParam(ops0, t) && HasParam(ops, t) && !IsTarget(ffs, t) :: Param(ops, t) == Param(ops0, t)
  }

  /** No feedforward comes too late for its target, unless the target has a matrix. */
  predicate Harmless(ops: seq<Op>, ffs: seq<FeedForward>) {
    forall n | 0 <= n < |ffs| :: HarmlessFF(ops, ffs[n])
  }

  predicate HarmlessFF(ops: seq<Op>, ff: FeedForward) {
    Influences(ops, ff) || (ff.target.op < |ops| && IsMatrixGate(ops[ff.target.op].kind))
  }

  lemma {:induction false} CausalIsHarmless(ops: seq<Op>, ffs: seq<FeedForward>)
    requires WellFormed(ops, ffs) && Causal(ffs)
    ensures Harmless(ops, ffs)
  {
    forall n | 0 <= n < |ffs| ensures HarmlessFF(ops, ffs[n]) {
      assert WellFormedFF(ops, ffs[n]);
    }
  }

  lemma {:induction false} WellFormedShapes(a: seq<Op>, b: seq<Op>, ffs: seq<FeedForward>)
    requires WellFormed(a, ffs) && SameShapes(a, b)
    ensures WellFormed(b, ffs)
  {
    forall n | 0 <= n < |ffs| ensures WellFormedFF(b, ffs[n]) {
      assert WellFormedFF(a, ffs[n]);
      assert a[ffs[n].target.op].SameShape(b[ffs[n].target.op]);
      forall s | s in ffs[n].sources ensures s < |b| && IsMeasurement(b[s].kind) {
        assert a[s].SameShape(b[s]);
      }
    }
  }

  lemma {:induction false} SameShapesAkin(a: seq<Op>, b: seq<Op>)
    requires SameShapes(a, b)
    ensures AllAkin(a, b)
  {
    forall j | 0 <= j < |a| ensures Akin(a[j], b[j]) {
      assert a[j].SameShape(b[j]);
    }
  }

  /** What an operation is executed with is either as built or written in time. */
  lemma {:induction false} LeftoversUnused(ops0: seq<Op>, ops: seq<Op>, ffs: seq<FeedForward>)
    requires WellFormed(ops0, ffs) && Harmless(ops0, ffs) && Stale(ops0, ops, ffs)
    ensures SameUsed(ops0, ffs, ops0, ops, 0)
  {
    forall t | Used(ops0, t, 0) && !Awaits(ops0, ffs, t, 0) ensures SameParam(ops0, ops, t) {
      ShapesKeepParams(ops0, ops, t);
      forall n | 0 <= n < |ffs| ensures ffs[n].target != t {
        assert HarmlessFF(ops0, ffs[n]) && ffs[n] in ffs;
      }
    }
  }

  /** The state a shot starts in. */
  function Start<Peak, Rng>(ops: seq<Op>, peaks: seq<Peak>, rng: Rng): Exec<Peak, Rng> {
    Exec(peaks, rng, ops, map[])
  }

  /** What an earlier shot left in the parameters has no effect at all: same peaks, random engine, measured
      values, and even the same parameters in the end. */
  lemma {:induction false} StaleExecute<Peak, Rng, Sample>(
    k: Kernel<Peak, Rng, Sample>, ffs: seq<FeedForward>, ops0: seq<Op>, ops: seq<Op>, peaks: seq<Peak>, rng: Rng)
    requires WellFormed(ops0, ffs) && Harmless(ops0, ffs) && Stale(ops0, ops, ffs)
    ensures Execute(k, ffs, Start(ops0, peaks, rng)).Some?
    ensures Execute(k, ffs, Start(ops, peaks, rng)) == Execute(k, ffs, Start(ops0, peaks, rng))
    ensures Stale(ops0, Execute(k, ffs, Start(ops0, peaks, rng)).value.ops, ffs)
  {
    hide Harmless, WellFormed, SameUsed, AllAkin, Execute, LeftBy, Stale;
    StaleShapes(ops0, ops, ffs);
    WellFormedShapes(ops0, ops, ffs);
    SameShapesAkin(ops0, ops);
    LeftoversUnused(ops0, ops, ffs);
    SameInfluenceReflexive(ops0, ffs);
    InfluenceDecides(k, ffs, ops0, ffs, ops, peaks, rng);
    FinalParameters(k, ffs, Start(ops0, peaks, rng));
    FinalParameters(k, ffs, Start(ops, peaks, rng));
    SameLeft(ops0, ops, ffs, Final(k, ffs, Start(ops0, peaks, rng)).ops, Final(k, ffs, Start(ops, peaks, rng)).ops,
             Final(k, ffs, Start(ops, peaks, rng)).measured);
  }

  lemma {:induction false} SameInfluenceReflexive(ops: seq<Op>, ffs: seq<FeedForward>)
    ensures SameInfluence(ops, ffs, ffs)
  {
  }

  lemma {:induction false} StaleShapes(ops0: seq<Op>, ops: seq<Op>, ffs: seq<FeedForward>)
    requires Stale(ops0, ops, ffs)
    ensures SameShapes(ops0, ops)
  {
  }

  lemma {:induction false} SameLeft(
    ops0: seq<Op>, ops: seq<Op>, ffs: seq<FeedForward>, fin: seq<Op>, fin': seq<Op>, measured: map<nat, real>)
    requires Stale(ops0, ops, ffs) && LeftBy(ops0, ffs, fin, measured) && LeftBy(ops, ffs, fin', measured)
    ensures fin == fin' && Stale(ops0, fin, ffs)
  {
    forall j | 0 <= j < |fin| ensures fin[j].SameShape(fin'[j]) {
      assert ops0[j].SameShape(fin[j]) && ops[j].SameShape(fin'[j]) && ops0[j].SameShape(ops[j]);
    }
    forall t | HasParam(fin, t) && HasParam(fin', t) ensures Param(fin, t) == Param(fin', t) {
      ShapesKeepParams(ops0, fin, t);
      ShapesKeepParams(ops, fin', t);
      assert IsTarget(ffs, t) || (forall n | 0 <= n < |ffs| :: ffs[n].target != t);
    }
    SameParamsSameOps(fin, fin');
  }

  // ----- and only then -----

  /** A second shot, on what the first one left, is like the first. */
  ghost predicate Repeats<Peak, Rng, Sample>(
    k: Kernel<Peak, Rng, Sample>, ffs: seq<FeedForward>, ops: seq<Op>, peaks: seq<Peak>, rng: Rng)
  {
    && Execute(k, ffs, Start(ops, peaks, rng)).Some?
    && RunAlike(k, ffs, Start(ops, peaks, rng), ffs, Start(Final(k, ffs, Start(ops, peaks, rng)).ops, peaks, rng))
  }

  lemma {:induction false} HarmlessRepeats<Peak, Rng, Sample>(
    k: Kernel<Peak, Rng, Sample>, ffs: seq<FeedForward>, ops: seq<Op>, peaks: seq<Peak>, rng: Rng)
    requires WellFormed(ops, ffs) && Harmless(ops, ffs)
    ensures Repeats(k, ffs, ops, peaks, rng)
  {
    hide WellFormed, Harmless, Execute;
    SameShapesReflexive(ops);
    StaleExecute(k, ffs, ops, ops, peaks, rng);
    StaleExecute(k, ffs, ops, Final(k, ffs, Start(ops, peaks, rng)).ops, peaks, rng);
  }

  /** Whatever a feedforward computes, a second shot is like the first. */
  ghost predicate AlwaysRepeats(ops: seq<Op>, ffs: seq<FeedForward>) {
    forall n: nat, v: real | n < |ffs| :: Repeats(HistoryKernel(), WithValue(ffs, n, v), ops, [[]], ())
  }

  /** A circuit can be used again exactly when it is harmless: otherwise one of its feedforwards needs only
      compute the right value for a second shot to differ, on a kind of state that remembers. */
  lemma {:induction false} ReusableExactly(ops: seq<Op>, ffs: seq<FeedForward>)
    requires WellFormed(ops, ffs) && ArityKept(ops)
    ensures Harmless(ops, ffs) <==> AlwaysRepeats(ops, ffs)
  {
    if Harmless(ops, ffs) {
      forall n: nat, v: real | n < |ffs| ensures Repeats(HistoryKernel(), WithValue(ffs, n, v), ops, [[]], ()) {
        hide WellFormed, Influences, Repeats, HistoryKernel;
        WithValueWellFormed(ops, ffs, n, v);
        WithValueHarmless(ops, ffs, n, v);
        HarmlessRepeats(HistoryKernel(), WithValue(ffs, n, v), ops, [[]], ());
      }
    } else {
      var n :| 0 <= n < |ffs| && !HarmlessFF(ops, ffs[n]);
      assert WellFormedFF(ops, ffs[n]);
      hide Repeats, WellFormed, WithValue;
      HarmShows(ops, ffs, n, Param(ops, ffs[n].target) + 1.0);
    }
  }

  lemma {:induction false} WithValueHarmless(ops: seq<Op>, ffs: seq<FeedForward>, n: nat, v: real)
    requires Harmless(ops, ffs) && n < |ffs|
    ensures Harmless(ops, WithValue(ffs, n, v))
  {
    forall m | 0 <= m < |ffs| ensures HarmlessFF(ops, WithValue(ffs, n, v)[m]) {
      assert HarmlessFF(ops, ffs[m]);
    }
  }

  lemma {:induction false} HarmShows(ops: seq<Op>, ffs: seq<FeedForward>, n: nat, v: real)
    requires WellFormed(ops, ffs) && ArityKept(ops) && n < |ffs| && !HarmlessFF(ops, ffs[n])
    requires HasParam(ops, ffs[n].target) && v != Param(ops, ffs[n].target)
    ensures !Repeats(HistoryKernel(), WithValue(ffs, n, v), ops, [[]], ())
  {
    var k, r, t := HistoryKernel(), WithValue(ffs, n, v), ffs[n].target;
    var s: Exec<History, ()> := Start(ops, [[]], ());
    assert WellFormedFF(ops, ffs[n]) && Used(ops, t, t.op);
    assert forall m | 0 <= m < |r| && r[m].target == t :: r[m].sources == ffs[n].sources;
    hide WellFormed, RunAlike, HistoryKernel, Used, ArityKept, WithValue, Run;
    WithValueWellFormed(ops, ffs, n, v);
    WithValueIs(ffs, n, v);
    OverwrittenBefore(k, r, s, n, v, |ops|);
    var left := Final(k, r, s).ops;
    WellFormedShapes(ops, left, r);
    var u: Exec<History, ()> := Start(left, [[]], ());
    UntouchedBefore(k, r, s, t, t.op);
    UntouchedBefore(k, r, u, t, t.op);
    ParamToldApart(r, s, r, u, t);
  }

  lemma {:induction false} WithValueIs(ffs: seq<FeedForward>, n: nat, v: real)
    requires n < |ffs|
    ensures var r := WithValue(ffs, n, v);
      |r| == |ffs| && r[n].sources == ffs[n].sources && r[n].target == ffs[n].target && r[n].func == Always(v)
  {
  }

  // ----- a displacement that is fed by the measurement after it -----

  const DRIFT: seq<Op> := [Emplace(Displacement, [0], [0.0, 0.0]), Emplace(HomodyneSingleModeX, [0], [])]

  function DriftFF(g: seq<real> -> real): FeedForward { FeedForward([1], ParamIdx(0, 0), g) }

  function Drifted(dx: real): seq<Op> { [DRIFT[0].(params := [dx, 0.0]), DRIFT[1]] }

  lemma {:induction false} DriftWellFormed(g: seq<real> -> real, dx: real)
    ensures WellFormed(Drifted(dx), [DriftFF(g)])
  {
    assert WellFormedFF(Drifted(dx), DriftFF(g));
  }

  /** The state between its two operations. */
  function Displaced(pt: Point, dx: real): Point
    requires pt.modes != []
  {
    pt.(modes := pt.modes[0 := Quad(pt.modes[0].x + dx, pt.modes[0].p)])
  }

  lemma {:induction false} DriftDisplaces(f: Functions, ffs: seq<FeedForward>, pt: Point, dx: real, next: Exec<Point, ()>)
    requires pt.modes != [] && Steps(PointKernel(f), ffs, Start(Drifted(dx), [pt], ()), 0, next)
    ensures next == Start(Drifted(dx), [Displaced(pt, dx)], ())
  {
    assert next.peaks == [Displaced(pt, dx)];
  }

  lemma {:induction false} DriftReads(f: Functions, ffs: seq<FeedForward>, pt: Point, dx: real, next: Exec<Point, ()>)
    requires pt.modes != [] && Steps(PointKernel(f), ffs, Start(Drifted(dx), [Displaced(pt, dx)], ()), 1, next)
    ensures next.measured == map[1 := pt.modes[0].x + dx]
  {
    hide FireAll, CanFire;
    var k, e := PointKernel(f), Start(Drifted(dx), [Displaced(pt, dx)], ());
    assert Rotated(k, e.ops[1], e.peaks) == e.peaks;
    assert e.ops[1].Selection() == None;
  }

  lemma {:induction false} DriftLeaves(g: seq<real> -> real, dx: real, fin: seq<Op>, x: real)
    requires LeftBy(Drifted(dx), [DriftFF(g)], fin, map[1 := x])
    ensures fin == Drifted(g([x]))
  {
    var ops, t, u := Drifted(dx), ParamIdx(0, 0), ParamIdx(0, 1);
    assert ops[0].SameShape(fin[0]) && ops[1].SameShape(fin[1]);
    assert Values([1], map[1 := x]) == [x];
    assert [DriftFF(g)][0].target == t;
    assert Param(fin, t) == g([x]);
    assert HasParam(ops, u) && HasParam(fin, u) && Param(fin, u) == 0.0;
    assert fin[0].params == [g([x]), 0.0] && fin[1].params == [];
  }

  /** It reads the position of mode 0, displaced by what is in the parameter. */
  lemma {:induction false} DriftShot(f: Functions, g: seq<real> -> real, pt: Point, dx: real)
    requires pt.modes != []
    ensures WellFormed(Drifted(dx), [DriftFF(g)])
    ensures Execute(PointKernel(f), [DriftFF(g)], Start(Drifted(dx), [pt], ())).Some?
    ensures var e := Final(PointKernel(f), [DriftFF(g)], Start(Drifted(dx), [pt], ()));
      e.measured == map[1 := pt.modes[0].x + dx] && e.ops == Drifted(g([pt.modes[0].x + dx]))
  {
    var k, ffs, s := PointKernel(f), [DriftFF(g)], Start(Drifted(dx), [pt], ());
    assert |Drifted(dx)| == 2;
    hide Step, Steps, Run, PointKernel, DriftFF, Drifted, LeftBy, WellFormed, Displaced;
    DriftWellFormed(g, dx);
    FinalParameters(k, ffs, s);
    RunOneMore(k, ffs, s, 0);
    RunOneMore(k, ffs, s, 1);
    AtStart(k, ffs, s);
    DriftDisplaces(f, ffs, pt, dx, Before(k, ffs, s, 1));
    DriftReads(f, ffs, pt, dx, Before(k, ffs, s, 2));
    assert Final(k, ffs, s) == Before(k, ffs, s, 2);
    DriftLeaves(g, dx, Final(k, ffs, s).ops, pt.modes[0].x + dx);
  }

  lemma {:induction false} AtStart<Peak, Rng, Sample>(k: Kernel<Peak, Rng, Sample>, ffs: seq<FeedForward>, s: Exec<Peak, Rng>)
    ensures Run(k, ffs, s, 0, 0) == Some(s)
  {
  }

  /** On phase-space points, a second shot of this circuit reads what the first one read only if nothing was
      fed back. */
  lemma {:induction false} DriftRepeats(f: Functions, g: seq<real> -> real, pt: Point)
    requires pt.modes != []
    ensures WellFormed(DRIFT, [DriftFF(g)]) && !Harmless(DRIFT, [DriftFF(g)])
    ensures Repeats(PointKernel(f), [DriftFF(g)], DRIFT, [pt], ()) <==> g([pt.modes[0].x]) == 0.0
  {
    var x := pt.modes[0].x;
    assert MaxSource(DriftFF(g).sources) == 1 && !HarmlessFF(DRIFT, DriftFF(g));
    assert [DriftFF(g)][0] == DriftFF(g);
    assert Drifted(0.0) == DRIFT;
    hide WellFormed, Execute, PointKernel, Drifted, DriftFF;
    DriftShot(f, g, pt, 0.0);
    DriftShot(f, g, pt, g([x]));
    assert x + 0.0 == x;
    assert map[1 := x][1] == x && map[1 := x + g([x])][1] == x + g([x]);
  }

  // ----- a copy -----

  /** No gate with a matrix has had a parameter overwritten. */
  predicate MatricesCurrent(ops: seq<Op>) {
    forall j | 0 <= j < |ops| && IsMatrixGate(ops[j].kind) :: ops[j].built == ops[j].params
  }

  lemma {:induction false} CopiedWellFormed(ops: seq<Op>, ffs: seq<FeedForward>)
    requires WellFormed(ops, ffs)
    ensures WellFormed(CopiedOps(ops), ffs)
  {
    forall n | 0 <= n < |ffs| ensures WellFormedFF(CopiedOps(ops), ffs[n]) {
      assert WellFormedFF(ops, ffs[n]);
    }
  }

  /** Copying builds the matrices anew, from the parameters of the moment; when those are the ones they were
      built from, the copy runs like the original, on every kind of state. */
  lemma {:induction false} CopyRunsAlike<Peak, Rng, Sample>(
    k: Kernel<Peak, Rng, Sample>, ffs: seq<FeedForward>, ops: seq<Op>, peaks: seq<Peak>, rng: Rng)
    requires WellFormed(ops, ffs) && MatricesCurrent(ops)
    ensures RunAlike(k, ffs, Start(ops, peaks, rng), ffs, Start(CopiedOps(ops), peaks, rng))
  {
    forall t | Used(ops, t, 0) ensures SameParam(ops, CopiedOps(ops), t) {}
    assert AllAkin(ops, CopiedOps(ops));
    hide WellFormed, RunAlike, MatricesCurrent, CopiedOps, Influences, AllAkin;
    CopiedWellFormed(ops, ffs);
    InfluenceDecides(k, ffs, ops, ffs, CopiedOps(ops), peaks, rng);
  }

  /** And only then. */
  lemma {:induction false} CopyExactly(ops: seq<Op>, ffs: seq<FeedForward>)
    requires WellFormed(ops, ffs)
    ensures MatricesCurrent(ops) <==> RunAlike(HistoryKernel(), ffs, Start(ops, [[]], ()), ffs, Start(CopiedOps(ops), [[]], ()))
  {
    if MatricesCurrent(ops) {
      CopyRunsAlike(HistoryKernel(), ffs, ops, [[]], ());
    } else {
      var j :| 0 <= j < |ops| && IsMatrixGate(ops[j].kind) && ops[j].built != ops[j].params;
      OldMatrixShows(ops, ffs, j);
    }
  }

  lemma {:induction false} OldMatrixShows(ops: seq<Op>, ffs: seq<FeedForward>, j: nat)
    requires WellFormed(ops, ffs) && j < |ops| && IsMatrixGate(ops[j].kind) && ops[j].built != ops[j].params
    ensures !RunAlike(HistoryKernel(), ffs, Start(ops, [[]], ()), ffs, Start(CopiedOps(ops), [[]], ()))
  {
    var k, copied := HistoryKernel(), CopiedOps(ops);
    var s: Exec<History, ()> := Start(ops, [[]], ());
    var u: Exec<History, ()> := Start(copied, [[]], ());
    assert copied[j] == Emplace(ops[j].kind, ops[j].modes, ops[j].params);
    hide WellFormed, Run, Execute, HistoryKernel, Record, Length, CopiedOps, Settled, IsMatrixGate;
    CopiedWellFormed(ops, ffs);
    CopiedLength(ops, j);
    var h := RunRecords(ffs, s, j);
    var h' := RunRecords(ffs, u, j);
    var a, b := Before(k, ffs, s, j).ops[j], Before(k, ffs, u, j).ops[j];
    MatrixRecords(ops[j], a, copied[j], b);
    ToldApart(ffs, s, ffs, u, j);
  }

  lemma {:induction false} MatrixRecords(a0: Op, a: Op, b0: Op, b: Op)
    requires a0.SameShape(a) && b0.SameShape(b) && IsMatrixGate(a0.kind) && b0.kind == a0.kind && a0.built != b0.built
    ensures Record(a) != Record(b)
  {
    assert Record(a)[0] == Applied(a.kind, a.modes, a0.built) && Record(b)[0] == Applied(b.kind, b.modes, b0.built);
  }

  lemma {:induction false} CopiedLength(ops: seq<Op>, i: nat)
    requires i <= |ops|
    ensures Length(CopiedOps(ops), i) == Length(ops, i)
    ensures forall j | 0 <= j < |ops| :: |Record(CopiedOps(ops)[j])| == |Record(ops[j])|
  {
    if i > 0 {
      CopiedLength(ops, i - 1);
    }
  }
}
