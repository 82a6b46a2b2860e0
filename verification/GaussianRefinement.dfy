/** The refinement theorem for the means of Gaussian states. */
module GaussianRefinement {
  import opened Elementary
  import opened Operations
  import opened Engine
  import opened Points
  import opened Machinery
  import opened MachineryRuns
  import opened GaussianPeaks
  import opened MeansAsPoints
  import opened GraphProgram
  import opened Refinement
  import opened MeanRuns
  import MachineryRecycling
  import ModeAllocator

  /** The means of a peak as a point. */
  function Means(g: Peak): Point {
    Point(seq(g.n, m requires 0 <= m < g.n => Quad(g.re(m), g.re(m + g.n))), [])
  }

  lemma {:induction false} RepresentsMeans(g: Peak, pt: Point)
    requires Represents(g, pt) && pt.supply == []
    ensures pt == Means(g)
  {
  }

  lemma {:induction false} MachineryHasNoSelection(f: Functions, cfg: Config, level: real)
    requires cfg.Valid()
    ensures NoSelection(MachineryOps(f, cfg, level))
  {
    var ops := MachineryOps(f, cfg, level);
    CircuitLength(f, cfg, level);
    hide MachineryOps, ModeAllocator.ModeIdx;
    forall i: nat | i < |ops| && IsMeasurement(ops[i].kind) ensures ops[i].Selection() == None {
      var k, j := IndexSplit(i, cfg.Total());
      MachineryRecycling.OpsAt(f, cfg, level, k, j);
    }
  }

  /** The run of the machinery circuit on one Gaussian peak. */
  ghost function GaussianRun<Rng>(
    f: Functions, pow10: real -> real, sampler: (nat, Option<real>, seq<Peak>, Rng) -> (Sample, Rng), cfg: Config, level: real,
    g: Peak, rng: Rng, i: nat): Option<Exec<Peak, Rng>>
    requires cfg.Valid() && Compiles(cfg)
  {
    Run(GaussianKernel(f, pow10, sampler), MachineryFFs(f, cfg), Exec([g], rng, MachineryOps(f, cfg, level), map[]), 0, i)
  }

  /** The means before macronode k are those of the graph's modes. */
  ghost predicate MeansAgreeBefore<Rng>(
    f: Functions, pow10: real -> real, sampler: (nat, Option<real>, seq<Peak>, Rng) -> (Sample, Rng), cfg: Config, level: real, mlevel: real,
    g: Peak, rng: Rng, k: nat)
    requires IdealRun(f, cfg, level, Means(g))
  {
    var fin := MachineryEnd(f, cfg, level, Means(g)).ops;
    var machine := GaussianRun(f, pow10, sampler, cfg, level, g, rng, k * OPS_PER_MACRONODE);
    var graph := Run(PointKernel(f), [], GraphExec(f, fin, Means(g), cfg.n, cfg.Total(), mlevel), 0, First(Program(f, fin, cfg.Total()), k));
    && machine.Some? && |machine.value.peaks| == 1 && graph.Some? && |graph.value.peaks| == 1
    && Related(cfg.n, k, Means(machine.value.peaks[0]), graph.value.peaks[0])
  }

  /** The run of the Gaussian peak measures, and feeds forward, what the run of its means does. */
  ghost predicate MeasuresAlike<Rng>(
    f: Functions, pow10: real -> real, sampler: (nat, Option<real>, seq<Peak>, Rng) -> (Sample, Rng), cfg: Config, level: real, g: Peak, rng: Rng)
    requires IdealRun(f, cfg, level, Means(g))
  {
    var end := GaussianRun(f, pow10, sampler, cfg, level, g, rng, |MachineryOps(f, cfg, level)|);
    && end.Some? && end.value.measured == MachineryEnd(f, cfg, level, Means(g)).measured
    && end.value.ops == MachineryEnd(f, cfg, level, Means(g)).ops
  }

  lemma {:induction false} IdealFacts(f: Functions, cfg: Config, level: real, pt: Point)
    requires IdealRun(f, cfg, level, pt)
    ensures cfg.Valid() && Compiles(cfg) && cfg.Forward()
    ensures WellFormed(MachineryOps(f, cfg, level), MachineryFFs(f, cfg))
    ensures |MachineryOps(f, cfg, level)| == cfg.Total() * OPS_PER_MACRONODE
  {
    hide *;
    IdealMeans(f, cfg, level, pt);
    MachineryWellFormed(f, cfg, level);
    CircuitLength(f, cfg, level);
  }

  lemma {:induction false} MeansRepresented(g: Peak)
    ensures Represents(g, Means(g)) && Means(g).supply == []
  {
  }

  /** Before operation i the Gaussian run and the run of the means are in step. */
  lemma {:induction false} MachineryInStep<Rng(!new)>(
    f: Functions, pow10: real -> real, sampler: (nat, Option<real>, seq<Peak>, Rng) -> (Sample, Rng), cfg: Config, level: real,
    g: Peak, rng: Rng, i: nat)
    requires FindsMean(sampler) && cfg.Valid() && Compiles(cfg) && WellFormed(MachineryOps(f, cfg, level), MachineryFFs(f, cfg))
    requires i <= |MachineryOps(f, cfg, level)|
    ensures GaussianRun(f, pow10, sampler, cfg, level, g, rng, i).Some?
    ensures Run(PointKernel(f), MachineryFFs(f, cfg), MachineryStart(f, cfg, level, Means(g)), 0, i).Some?
    ensures var s, u := GaussianRun(f, pow10, sampler, cfg, level, g, rng, i).value,
                        Run(PointKernel(f), MachineryFFs(f, cfg), MachineryStart(f, cfg, level, Means(g)), 0, i).value;
      s.ops == u.ops && s.measured == u.measured && |s.peaks| == |u.peaks| == 1 && u.peaks[0] == Means(s.peaks[0])
  {
    hide MachineryOps, MachineryFFs, Compiles, WellFormed, GaussianKernel, PointKernel, FindsMean, Represents, Means, Run, NoSelection;
    MeansRepresented(g);
    MachineryHasNoSelection(f, cfg, level);
    MeansFollowPoint(f, pow10, sampler, MachineryFFs(f, cfg), MachineryOps(f, cfg, level), g, Means(g), rng, i);
    var s := GaussianRun(f, pow10, sampler, cfg, level, g, rng, i).value;
    var u := Run(PointKernel(f), MachineryFFs(f, cfg), MachineryStart(f, cfg, level, Means(g)), 0, i).value;
    RepresentsMeans(s.peaks[0], u.peaks[0]);
  }

  /** When every measurement finds the mean, the means of the Gaussian state the machinery works on are, before
      every macronode, the modes of the graph run, and M_b and M_d are what the graph run measures. */
  lemma {:induction false} MeansRefineGraph<Rng(!new)>(
    f: Functions, pow10: real -> real, sampler: (nat, Option<real>, seq<Peak>, Rng) -> (Sample, Rng), cfg: Config, level: real, mlevel: real,
    g: Peak, rng: Rng)
    requires FindsMean(sampler) && IdealRun(f, cfg, level, Means(g))
    ensures MeasuresAlike(f, pow10, sampler, cfg, level, g, rng)
    ensures forall k: nat | k <= cfg.Total() :: MeansAgreeBefore(f, pow10, sampler, cfg, level, mlevel, g, rng, k)
    ensures forall k: nat | k < cfg.Total() && Reads(f, MachineryEnd(f, cfg, level, Means(g)).ops, k) ::
              AgreeOnReadout(f, cfg, level, mlevel, Means(g), k)
  {
    hide *;
    IdealFacts(f, cfg, level, Means(g));
    MachineryRefinesGraph(f, cfg, level, mlevel, Means(g));
    EndsAlike(f, pow10, sampler, cfg, level, g, rng);
    forall k: nat | k <= cfg.Total() ensures MeansAgreeBefore(f, pow10, sampler, cfg, level, mlevel, g, rng, k) {
      AgreesBeforeK(f, pow10, sampler, cfg, level, mlevel, g, rng, k);
    }
  }

  lemma {:induction false} AgreesBeforeK<Rng(!new)>(
    f: Functions, pow10: real -> real, sampler: (nat, Option<real>, seq<Peak>, Rng) -> (Sample, Rng), cfg: Config, level: real, mlevel: real,
    g: Peak, rng: Rng, k: nat)
    requires FindsMean(sampler) && IdealRun(f, cfg, level, Means(g)) && k <= cfg.Total()
    requires AgreeBefore(f, cfg, level, mlevel, Means(g), k)
    ensures MeansAgreeBefore(f, pow10, sampler, cfg, level, mlevel, g, rng, k)
  {
    hide IdealRun, MachineryEnd, MachineryStart, GraphExec, Run, Related, Means, First, Program, GaussianRun, FindsMean, WellFormed;
    hide Compiles, MachineryOps, MachineryFFs;
    IdealFacts(f, cfg, level, Means(g));
    MachineryInStep(f, pow10, sampler, cfg, level, g, rng, k * OPS_PER_MACRONODE);
  }

  lemma {:induction false} EndsAlike<Rng(!new)>(
    f: Functions, pow10: real -> real, sampler: (nat, Option<real>, seq<Peak>, Rng) -> (Sample, Rng), cfg: Config, level: real, g: Peak, rng: Rng)
    requires FindsMean(sampler) && IdealRun(f, cfg, level, Means(g))
    ensures MeasuresAlike(f, pow10, sampler, cfg, level, g, rng)
  {
    hide IdealRun, MachineryEnd, MachineryStart, Run, Means, GaussianRun, FindsMean, WellFormed, Compiles, MachineryOps, MachineryFFs;
    IdealFacts(f, cfg, level, Means(g));
    LastIsEnd(f, cfg, level, Means(g));
    MachineryInStep(f, pow10, sampler, cfg, level, g, rng, |MachineryOps(f, cfg, level)|);
  }
}
