/** The squeezing of the states a graph circuit brings in for the modes it has measured. */
module GraphLevels {
  import opened Elementary
  import opened Operations
  import opened Engine
  import opened Resolution
  import opened MachineryPoints
  import opened Replacement
  import opened GaussianPeaks
  import opened GaussianRuns
  import opened Readout
  import opened GraphProgram
  import opened GraphFeedForward
  import opened GraphCircuitBuilder
  import opened GraphRuns
  import opened GraphRecycling
  import GraphResult
  import ResourceRuns

  /** The first or second measurement of the macronode whose operations start at first. */
  function MeasurementAt(first: nat, left: bool): nat { if left then first + 4 else first + 1 }

  function MeasuredMode(g: Graph, sorted: seq<GraphOperation>, m: nat, left: bool): nat
    requires g.Valid()
  {
    if left then LeftMode(g.n, sorted, m) else UpMode(g.n, sorted, m)
  }

  /** No feedforward writes the level of a replacement. */
  lemma {:induction false} LevelUntouched(
    f: Functions, g: Graph, sorted: seq<GraphOperation>, level: real, ffs: seq<FeedForward>, m: nat, left: bool, n: nat)
    requires g.Valid() && GraphCompiles(f, g, sorted, level) && IsGraphFFs(f, g, sorted, level, ffs) && n < |ffs|
    requires m < g.Total() && ShapeOf(OpFor(sorted, m).type_).MeasurementShape?
    ensures ffs[n].target != ParamIdx(MeasurementAt(First(sorted, m), left) + 1, 0)
  {
    hide GraphCompiles, IsGraphFFs, OpFor, First, Targets, Resolves, ShapeOf;
    if ffs[n].target == ParamIdx(MeasurementAt(First(sorted, m), left) + 1, 0) {
      var i := WhoWritesMeasurement(f, g, sorted, level, ffs, m, n);
      MeasurementTargets(g, sorted, i);
      assert false;
    }
  }

  /** At the end a replacement still has the level it was built with. */
  lemma {:induction false} LevelKept(
    f: Functions, g: Graph, sorted: seq<GraphOperation>, level: real, ffs: seq<FeedForward>, fin: seq<Op>, measured: map<nat, real>, m: nat, left: bool)
    requires g.Valid() && GraphCompiles(f, g, sorted, level) && IsGraphFFs(f, g, sorted, level, ffs)
    requires LeftBy(Ops(f, g, sorted, level), ffs, fin, measured)
    requires m < g.Total() && ShapeOf(OpFor(sorted, m).type_).MeasurementShape?
    ensures HasParam(fin, ParamIdx(MeasurementAt(First(sorted, m), left) + 1, 0))
    ensures Param(fin, ParamIdx(MeasurementAt(First(sorted, m), left) + 1, 0)) == level
  {
    hide GraphCompiles, IsGraphFFs, OpFor, First, LeftBy, GraphOps, GroupsOk, ShapeOf;
    CompiledMeans(f, g, sorted, level);
    var t := ParamIdx(MeasurementAt(First(sorted, m), left) + 1, 0);
    MeasurementAsBuilt(f, g, sorted, level, m);
    forall n | 0 <= n < |ffs| ensures ffs[n].target != t {
      LevelUntouched(f, g, sorted, level, ffs, m, left, n);
    }
    NotWritten(Ops(f, g, sorted, level), ffs, fin, measured, t);
  }

  lemma {:induction false} ReplacementAsBuilt(f: Functions, g: Graph, sorted: seq<GraphOperation>, level: real, m: nat, left: bool)
    requires g.Valid() && GroupsOk(f, g.n, sorted, level, g.Total()) && m < g.Total() && ShapeOf(OpFor(sorted, m).type_).MeasurementShape?
    ensures var ops, i := Ops(f, g, sorted, level), MeasurementAt(First(sorted, m), left) + 1;
      i < |ops| && ops[i].kind == ReplaceBySqueezedState && ops[i].modes == [MeasuredMode(g, sorted, m, left)] && |ops[i].params| == 2
  {
    hide First, OpFor, GroupOf, GroupOk, UpMode, LeftMode;
    MeasurementGroup(f, g.n, sorted, level, m);
    GraphResult.GraphOpsAt(f, g.n, sorted, level, g.Total(), m, if left then 5 else 2);
  }

  /** What a replacement acts with at the end: the level, and the angle of its measurement less pi/2. */
  lemma {:induction false} ActsAtLevel(
    f: Functions, g: Graph, sorted: seq<GraphOperation>, level: real, ffs: seq<FeedForward>, fin: seq<Op>, measured: map<nat, real>, m: nat, left: bool)
    requires g.Valid() && GraphCompiles(f, g, sorted, level) && IsGraphFFs(f, g, sorted, level, ffs)
    requires LeftBy(Ops(f, g, sorted, level), ffs, fin, measured)
    requires m < g.Total() && ShapeOf(OpFor(sorted, m).type_).MeasurementShape?
    ensures var i := MeasurementAt(First(sorted, m), left);
      && HasParam(fin, ParamIdx(i, 0)) && i + 1 < |fin|
      && Acts(fin[i + 1], ReplaceBySqueezedState, [MeasuredMode(g, sorted, m, left)], [level, Param(fin, ParamIdx(i, 0)) - f.halfPi])
  {
    hide GraphCompiles, IsGraphFFs, OpFor, First, LeftBy, GraphOps, GroupsOk, ShapeOf, UpMode, LeftMode, SameShapes;
    CompiledMeans(f, g, sorted, level);
    LevelKept(f, g, sorted, level, ffs, fin, measured, m, left);
    ReplacementFollowsMeasurement(f, g, sorted, level, ffs, fin, measured, m);
    ReplacementAsBuilt(f, g, sorted, level, m, left);
    LeftByShapes(Ops(f, g, sorted, level), ffs, fin, measured);
    KeepsShape(Ops(f, g, sorted, level), fin, MeasurementAt(First(sorted, m), left) + 1);
  }

  lemma {:induction false} KeepsShape(a: seq<Op>, b: seq<Op>, i: nat)
    requires SameShapes(a, b) && i < |a|
    ensures i < |b| && b[i].kind == a[i].kind && b[i].modes == a[i].modes && |b[i].params| == |a[i].params|
  {
    assert a[i].SameShape(b[i]);
  }

  /** A run of a graph circuit on Gaussian peaks. */
  ghost predicate IsRun<Rng>(
    f: Functions, pow10: real -> real, g: Graph, sorted: seq<GraphOperation>, level: real, ffs: seq<FeedForward>, s: Exec<Peak, Rng>)
  {
    && f.Lawful() && Powers(pow10) && g.Valid() && GraphCompiles(f, g, sorted, level) && IsGraphFFs(f, g, sorted, level, ffs)
    && Forward(g) && TargetsFit(g, sorted) && ParametersExist(g, sorted)
    && s.ops == Ops(f, g, sorted, level) && s.measured == map[] && AllSound(s.peaks, g.n + 1, {})
  }

  lemma {:induction false} RunMeans<Rng>(
    f: Functions, pow10: real -> real, g: Graph, sorted: seq<GraphOperation>, level: real, ffs: seq<FeedForward>, s: Exec<Peak, Rng>)
    requires IsRun(f, pow10, g, sorted, level, ffs, s)
    ensures f.Lawful() && Powers(pow10) && g.Valid() && GraphCompiles(f, g, sorted, level) && IsGraphFFs(f, g, sorted, level, ffs)
    ensures Forward(g) && TargetsFit(g, sorted) && ParametersExist(g, sorted)
    ensures s.ops == Ops(f, g, sorted, level) == GraphOps(f, g.n, sorted, level, g.Total()) && s.measured == map[] && AllSound(s.peaks, g.n + 1, {})
    ensures g.n >= 1
  {
    hide f.Lawful, Powers, GraphCompiles, IsGraphFFs, Forward, TargetsFit, ParametersExist, AllSound, GraphOps;
  }

  /** The replacement after the up or left measurement of macronode m, when the run gets there. */
  lemma {:induction false} ExecutedAtLevel<Rng>(
    f: Functions, pow10: real -> real, kernel: Kernel<Peak, Rng, Sample>, g: Graph, sorted: seq<GraphOperation>, level: real, ffs: seq<FeedForward>,
    s: Exec<Peak, Rng>, m: nat, left: bool)
    requires IsRun(f, pow10, g, sorted, level, ffs, s) && g.Valid()
    requires m < g.Total() && ShapeOf(OpFor(sorted, m).type_).MeasurementShape?
    ensures var i := MeasurementAt(First(sorted, m), left);
      && i + 1 < |s.ops| && Run(kernel, ffs, s, 0, i + 1).Some? && Run(kernel, ffs, s, 0, i + 2).Some? && Execute(kernel, ffs, s).Some?
      && Steps(kernel, ffs, Before(kernel, ffs, s, i + 1), i + 1, Before(kernel, ffs, s, i + 2))
      && HasParam(Final(kernel, ffs, s).ops, ParamIdx(i, 0)) && i + 1 < |Before(kernel, ffs, s, i + 1).ops|
      && Acts(Before(kernel, ffs, s, i + 1).ops[i + 1], ReplaceBySqueezedState, [MeasuredMode(g, sorted, m, left)],
              [level, Param(Final(kernel, ffs, s).ops, ParamIdx(i, 0)) - f.halfPi])
  {
    hide *;
    RunMeans(f, pow10, g, sorted, level, ffs, s);
    GraphWellFormed(f, g, sorted, level, ffs);
    FinalParameters(kernel, ffs, s);
    ActsAtLevel(f, g, sorted, level, ffs, Final(kernel, ffs, s).ops, Final(kernel, ffs, s).measured, m, left);
    var i := MeasurementAt(First(sorted, m), left);
    SameLength(s.ops, Final(kernel, ffs, s).ops);
    ExecutedWithFinal(kernel, ffs, s, i + 1);
    SameLength(s.ops, Before(kernel, ffs, s, i + 1).ops);
    RunsSettled(kernel, ffs, s, i + 2);
    ResourceRuns.StepsFrom(kernel, ffs, s, i + 1);
  }

  lemma {:induction false} ModeWithin(g: Graph, sorted: seq<GraphOperation>, m: nat, left: bool)
    requires g.Valid()
    ensures MeasuredMode(g, sorted, m, left) < g.n + 1
  {
    GraphResult.ModesDiffer(g.n, sorted, m);
    hide UpMode, LeftMode;
  }

  /** The measured mode is separate when it is replaced. */
  lemma {:induction false} SeparateBefore<Rng>(
    f: Functions, pow10: real -> real, sampler: ResourceRuns.Sampler<Rng>, g: Graph, sorted: seq<GraphOperation>, level: real, ffs: seq<FeedForward>,
    s: Exec<Peak, Rng>, m: nat, left: bool, i: nat)
    requires IsRun(f, pow10, g, sorted, level, ffs, s) && g.Valid() && i == MeasurementAt(First(sorted, m), left)
    requires m < g.Total() && ShapeOf(OpFor(sorted, m).type_).MeasurementShape?
    requires i + 1 <= |s.ops| && Run(GaussianKernel(f, pow10, sampler), ffs, s, 0, i + 1).Some?
    ensures ResourceRuns.AllSeparate(Run(GaussianKernel(f, pow10, sampler), ffs, s, 0, i + 1).value.peaks, g.n + 1, MeasuredMode(g, sorted, m, left))
  {
    hide IsRun, f.Lawful, Powers, GraphOps, GraphCompiles, IsGraphFFs, GroupsOk, Run, GaussianKernel, GatesConstructible, ReplacedOnceMeasured, ClearAt,
      Positive, Separate, OpFor, First, ShapeOf, MeasuredMode, Forward, TargetsFit, ParametersExist, Graph.Valid;
    RunMeans(f, pow10, g, sorted, level, ffs, s);
    CompiledMeans(f, g, sorted, level);
    GraphRecyclesSafely(f, g.n, sorted, level, g.Total());
    ReplacedOnceMeasuredIsSafe(s.ops, {});
    ReachableSound(f, pow10, sampler, ffs, s, i + 1, g.n + 1, {});
    ReplacementAsBuilt(f, g, sorted, level, m, left);
    ModeWithin(g, sorted, m, left);
    var peaks := Run(GaussianKernel(f, pow10, sampler), ffs, s, 0, i + 1).value.peaks;
    var mode := MeasuredMode(g, sorted, m, left);
    assert s.ops[i + 1].modes[0] in ClearAt(s.ops, {}, i + 1);
    forall p | 0 <= p < |peaks| ensures peaks[p].n == g.n + 1 && Separate(peaks[p], mode) {
      assert Sound(peaks[p], g.n + 1, ClearAt(s.ops, {}, i + 1));
    }
  }

  /** In every run of a graph circuit, right after the replacement that follows a measurement at (possibly fed
      forward) angle theta, the squeezed quadrature of the mode has the variance of the compiler's level. */
  lemma {:induction false} BringsInAtLevel<Rng>(
    f: Functions, pow10: real -> real, sampler: ResourceRuns.Sampler<Rng>, g: Graph, sorted: seq<GraphOperation>, level: real, ffs: seq<FeedForward>,
    s: Exec<Peak, Rng>, m: nat, left: bool)
    requires IsRun(f, pow10, g, sorted, level, ffs, s) && g.Valid()
    requires m < g.Total() && ShapeOf(OpFor(sorted, m).type_).MeasurementShape?
    ensures var kernel, i, mode := GaussianKernel(f, pow10, sampler), MeasurementAt(First(sorted, m), left), MeasuredMode(g, sorted, m, left);
      && Run(kernel, ffs, s, 0, i + 2).Some? && Execute(kernel, ffs, s).Some? && HasParam(Final(kernel, ffs, s).ops, ParamIdx(i, 0))
      && var theta, peaks := Param(Final(kernel, ffs, s).ops, ParamIdx(i, 0)), Run(kernel, ffs, s, 0, i + 2).value.peaks;
         forall p | 0 <= p < |peaks| :: HasVariance(f, pow10, level, theta, peaks[p], mode)
  {
    hide *;
    var kernel, i, mode := GaussianKernel(f, pow10, sampler), MeasurementAt(First(sorted, m), left), MeasuredMode(g, sorted, m, left);
    RunMeans(f, pow10, g, sorted, level, ffs, s);
    ExecutedAtLevel(f, pow10, kernel, g, sorted, level, ffs, s, m, left);
    SeparateBefore(f, pow10, sampler, g, sorted, level, ffs, s, m, left, i);
    ResourceRuns.BeforeIs(kernel, ffs, s, i + 1);
    ResourceRuns.BeforeIs(kernel, ffs, s, i + 2);
    var theta := Param(Final(kernel, ffs, s).ops, ParamIdx(i, 0));
    var before, after := Run(kernel, ffs, s, 0, i + 1).value, Run(kernel, ffs, s, 0, i + 2).value;
    ResourceRuns.StepReplaces(f, pow10, sampler, ffs, before, i + 1, after, mode, level, theta - f.halfPi);
    AllAtLevel(f, pow10, before.peaks, after.peaks, g.n + 1, mode, level, theta);
  }

  /** The squeezed quadrature of a state squeezed at angle theta - pi/2 has the variance of the level. */
  ghost predicate HasVariance(f: Functions, pow10: real -> real, level: real, theta: real, g: Peak, mode: nat) {
    Separate(g, mode) && Form2(BlockOf(g, mode), f.sin(theta), -f.cos(theta)) == SqueezedVariance(pow10, level)
  }

  lemma {:induction false} AllAtLevel(
    f: Functions, pow10: real -> real, before: seq<Peak>, after: seq<Peak>, n: nat, mode: nat, level: real, theta: real)
    requires f.Lawful() && ResourceRuns.Replaces(f, pow10, before, after, mode, level, theta - f.halfPi) && ResourceRuns.AllSeparate(before, n, mode)
    ensures forall p | 0 <= p < |after| :: HasVariance(f, pow10, level, theta, after[p], mode)
  {
    hide f.Lawful, Operate, Separate, Form2, BlockOf, SqueezedVariance;
    forall p | 0 <= p < |after| ensures HasVariance(f, pow10, level, theta, after[p], mode) {
      ResourceRuns.ReplacedAtLevel(f, pow10, level, theta, mode, before[p]);
    }
  }
}
