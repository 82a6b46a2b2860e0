/** The squeezing of the resource modes in every run of a machinery circuit on Gaussian peaks. */
module ResourceRuns {
  import opened Elementary
  import opened Operations
  import opened Engine
  import opened Resolution
  import opened ModeAllocator
  import opened Machinery
  import opened MachineryPoints
  import opened MachineryBlocks
  import opened Conditioning
  import opened PartialUpdate
  import opened Replacement
  import opened GaussianPeaks
  import opened GaussianRuns
  import opened DirectProduct
  import opened ProductStates
  import opened WeightRuns
  import opened MachineryRecycling
  import opened MachinerySimulation
  import opened Readout
  import LevelAgreement
  import MachineryRuns

  /** Mode `mode` of g is uncorrelated with all others and has this covariance. */
  ghost predicate Holds(g: Peak, n: nat, mode: nat, block: Mat2) {
    g.n == n && mode < n && Separate(g, mode) && BlockOf(g, mode) == block
  }

  ghost predicate AllHold(peaks: seq<Peak>, n: nat, mode: nat, block: Mat2) {
    forall m | 0 <= m < |peaks| :: Holds(peaks[m], n, mode, block)
  }

  ghost predicate AllSeparate(peaks: seq<Peak>, n: nat, mode: nat) {
    mode < n && forall m | 0 <= m < |peaks| :: peaks[m].n == n && Separate(peaks[m], mode)
  }

  // ----- replacements -----

  lemma {:induction false} RenewedHolds(f: Functions, squeezing: real, phi: real, mode: nat, g: Peak, n: nat)
    requires g.n == n && mode < n && Separate(g, mode)
    ensures Holds(Renewed(f, squeezing, phi, mode, g), n, mode, SqueezedCov(f, squeezing, phi))
  {
    hide SqueezedCov;
  }

  lemma {:induction false} RenewedKeeps(f: Functions, squeezing: real, phi: real, mode: nat, g: Peak, n: nat, other: nat, block: Mat2)
    requires Holds(g, n, other, block) && mode < n && mode != other
    ensures Holds(Renewed(f, squeezing, phi, mode, g), n, other, block)
  {
    hide SqueezedCov;
  }

  /** After the replacement of a mode by a state squeezed at angle theta - pi/2 its squeezed quadrature has the
      variance of the level. */
  lemma {:induction false} ReplacedAtLevel(
    f: Functions, pow10: real -> real, level: real, theta: real, mode: nat, g: Peak)
    requires f.Lawful() && mode < g.n && Separate(g, mode)
    ensures var r := Operate(f, pow10, ReplaceBySqueezedState, [mode], [level, theta - f.halfPi], g);
      Separate(r, mode) && Form2(BlockOf(r, mode), f.sin(theta), -f.cos(theta)) == SqueezedVariance(pow10, level)
  {
    hide *;
    OperateRenews(f, pow10, level, theta - f.halfPi, mode, g);
    LevelAgreement.ReplacedVariance(f, pow10, theta, level);
    RenewedHolds(f, pow10(level * 0.1), theta - f.halfPi, mode, g, g.n);
    HoldsMeans(Renewed(f, pow10(level * 0.1), theta - f.halfPi, mode, g), g.n, mode, SqueezedCov(f, pow10(level * 0.1), theta - f.halfPi));
  }

  /** A measured mode is left in the vacuum: a mode replaced at squeezing one, at any angle. */
  lemma {:induction false} MeasuredIsVacuum(f: Functions, phi: real, mode: nat, value: real, coeff: Complex, g: Peak)
    requires f.Lawful() && mode < g.n
    ensures Holds(Observed(mode, value, coeff, g), g.n, mode, SqueezedCov(f, 1.0, phi))
    ensures var r := Observed(mode, value, coeff, g); r.re(mode) == r.im(mode) == r.re(mode + g.n) == r.im(mode + g.n) == 0.0
  {
    hide SqueezedCov, Fraction, f.Lawful;
    VacuumBlock(f, phi);
  }

  lemma {:induction false} VacuumBlock(f: Functions, phi: real)
    requires f.Lawful()
    ensures SqueezedCov(f, 1.0, phi) == Mat2(0.5, 0.0, 0.0, 0.5)
  {
    hide *;
    SqueezedEntries(f, 1.0, phi);
    f.Circle(phi);
    VacuumEntries(SqueezedCov(f, 1.0, phi), Quotient(1.0, 1.0), f.cos(phi), f.sin(phi)) by { OneOverOne(); }
  }

  lemma {:induction false} OneOverOne()
    ensures Quotient(1.0, 1.0) == 1.0
  {
  }

  lemma {:induction false} VacuumEntries(m: Mat2, one: real, c: real, s: real)
    requires one == 1.0 && IsSqueezed(m, one, 1.0, c, s) && s * s + c * c == 1.0
    ensures m == Mat2(0.5, 0.0, 0.0, 0.5)
  {
    assert one * (c * c) == c * c && one * (s * s) == s * s && one * (c * s) == c * s && 1.0 * (s * c) == c * s;
  }

  lemma {:induction false} OperateRenews(f: Functions, pow10: real -> real, level: real, phi: real, mode: nat, g: Peak)
    requires mode < g.n
    ensures Operate(f, pow10, ReplaceBySqueezedState, [mode], [level, phi], g) == Renewed(f, pow10(level * 0.1), phi, mode, g)
  {
    hide Renewed;
  }

  lemma {:induction false} HoldsMeans(g: Peak, n: nat, mode: nat, block: Mat2)
    requires Holds(g, n, mode, block)
    ensures g.n == n && mode < n && Separate(g, mode) && BlockOf(g, mode) == block
  {
  }

  /** Every peak has the mode replaced. */
  ghost predicate Replaces(f: Functions, pow10: real -> real, before: seq<Peak>, after: seq<Peak>, mode: nat, level: real, phi: real) {
    |after| == |before|
    && forall m | 0 <= m < |before| :: after[m] == Operate(f, pow10, ReplaceBySqueezedState, [mode], [level, phi], before[m])
  }

  lemma {:induction false} StepReplaces<Rng>(
    f: Functions, pow10: real -> real, sampler: (nat, Option<real>, seq<Peak>, Rng) -> (Sample, Rng), ffs: seq<FeedForward>,
    e: Exec<Peak, Rng>, i: nat, next: Exec<Peak, Rng>, mode: nat, level: real, phi: real)
    requires Steps(GaussianKernel(f, pow10, sampler), ffs, e, i, next) && i < |e.ops|
    requires Acts(e.ops[i], ReplaceBySqueezedState, [mode], [level, phi])
    ensures Replaces(f, pow10, e.peaks, next.peaks, mode, level, phi)
  {
    hide Operate;
    var op := e.ops[i];
    assert next.peaks == ApplyToAll(GaussianKernel(f, pow10, sampler), op.kind, op.modes, op.Effective(), e.peaks);
  }

  lemma {:induction false} ReplacedHold(
    f: Functions, pow10: real -> real, before: seq<Peak>, after: seq<Peak>, n: nat, mode: nat, level: real, phi: real)
    requires Replaces(f, pow10, before, after, mode, level, phi) && AllSeparate(before, n, mode)
    ensures AllHold(after, n, mode, SqueezedCov(f, pow10(level * 0.1), phi))
  {
    hide SqueezedCov, Operate, Renewed, Separate, Holds;
    forall m | 0 <= m < |after| ensures Holds(after[m], n, mode, SqueezedCov(f, pow10(level * 0.1), phi)) {
      OperateRenews(f, pow10, level, phi, mode, before[m]);
      RenewedHolds(f, pow10(level * 0.1), phi, mode, before[m], n);
    }
  }

  lemma {:induction false} OthersHold(
    f: Functions, pow10: real -> real, before: seq<Peak>, after: seq<Peak>, n: nat, mode: nat, level: real, phi: real, other: nat, block: Mat2)
    requires Replaces(f, pow10, before, after, mode, level, phi) && mode < n && mode != other && AllHold(before, n, other, block)
    ensures AllHold(after, n, other, block)
  {
    hide SqueezedCov, Operate, Renewed, Holds;
    forall m | 0 <= m < |after| ensures Holds(after[m], n, other, block) {
      HoldsMeans(before[m], n, other, block);
      OperateRenews(f, pow10, level, phi, mode, before[m]);
      RenewedKeeps(f, pow10(level * 0.1), phi, mode, before[m], n, other, block);
    }
  }

  // ----- a run of a machinery circuit -----

  type Sampler<!Rng> = (nat, Option<real>, seq<Peak>, Rng) -> (Sample, Rng)

  /** A run of a machinery circuit on Gaussian peaks. */
  ghost predicate IsRun<Rng>(
    f: Functions, pow10: real -> real, sampler: Sampler<Rng>, kernel: Kernel<Peak, Rng, Sample>, cfg: Config, level: real, ffs: seq<FeedForward>, s: Exec<Peak, Rng>)
  {
    && kernel == GaussianKernel(f, pow10, sampler)
    && f.Lawful() && Powers(pow10) && cfg.Valid() && Compiles(cfg) && cfg.Forward() && ffs == MachineryFFs(f, cfg)
    && s.ops == MachineryOps(f, cfg, level) && s.measured == map[] && AllSound(s.peaks, cfg.n + 5, {})
  }

  /** The peaks before operation i. */
  ghost function PeaksBefore<Rng>(kernel: Kernel<Peak, Rng, Sample>, ffs: seq<FeedForward>, s: Exec<Peak, Rng>, i: nat): seq<Peak> {
    match Run(kernel, ffs, s, 0, i)
    case None => []
    case Some(e) => e.peaks
  }

  lemma {:induction false} RunMeans<Rng>(
    f: Functions, pow10: real -> real, sampler: Sampler<Rng>, kernel: Kernel<Peak, Rng, Sample>, cfg: Config, level: real, ffs: seq<FeedForward>, s: Exec<Peak, Rng>)
    requires IsRun(f, pow10, sampler, kernel, cfg, level, ffs, s)
    ensures kernel == GaussianKernel(f, pow10, sampler)
    ensures f.Lawful() && Powers(pow10) && cfg.Valid() && cfg.n >= 1 && Compiles(cfg) && cfg.Forward() && ffs == MachineryFFs(f, cfg)
    ensures s.ops == MachineryOps(f, cfg, level) && s.measured == map[] && AllSound(s.peaks, cfg.n + 5, {})
  {
    hide f.Lawful, Powers, Compiles, Config.Forward, AllSound;
  }

  /** No operation of the run throws. */
  lemma {:induction false} RunsTo<Rng>(
    f: Functions, pow10: real -> real, sampler: Sampler<Rng>, kernel: Kernel<Peak, Rng, Sample>, cfg: Config, level: real, ffs: seq<FeedForward>,
    s: Exec<Peak, Rng>, i: nat)
    requires IsRun(f, pow10, sampler, kernel, cfg, level, ffs, s) && i <= |s.ops|
    ensures Run(kernel, ffs, s, 0, i).Some?
    ensures Run(kernel, ffs, s, 0, i).value.peaks == PeaksBefore(kernel, ffs, s, i)
  {
    hide IsRun, Compiles, Config.Forward, f.Lawful, Powers, AllSound, Run, MachineryOps, MachineryFFs, WellFormed, Causal, Execute, Settled;
    RunMeans(f, pow10, sampler, kernel, cfg, level, ffs, s);
    MachineryRuns.ForwardIsEnough(f, cfg, level);
    RunsSettled(kernel, ffs, s, i);
  }

  // ----- operations 14 to 17 of a macronode -----

  lemma {:induction false} Eighteen(cfg: Config)
    requires cfg.Valid()
    ensures OPS_PER_MACRONODE == 18 && cfg.n >= 1
  {
  }

  function AngleOf(f: Functions, j: nat): real { if j < 16 then f.halfPi else 0.0 }

  lemma {:induction false} ExecutedReplacement<Rng>(
    f: Functions, kernel: Kernel<Peak, Rng, Sample>, cfg: Config, level: real, s: Exec<Peak, Rng>, k: nat, j: nat)
    requires cfg.Valid() && Compiles(cfg) && cfg.Forward() && s.ops == MachineryOps(f, cfg, level) && s.measured == map[]
    requires k < cfg.Total() && 14 <= j < OPS_PER_MACRONODE
    ensures Run(kernel, MachineryFFs(f, cfg), s, 0, MacronodeOpIdx(k, j)).Some?
    ensures var e, i := Before(kernel, MachineryFFs(f, cfg), s, MacronodeOpIdx(k, j)), MacronodeOpIdx(k, j);
      i < |s.ops| && i < |e.ops| && Acts(e.ops[i], ReplaceBySqueezedState, [SixModes(cfg.n, k)[j - 14]], [level, AngleOf(f, j)])
  {
    hide *;
    var ffs, i := MachineryFFs(f, cfg), MacronodeOpIdx(k, j);
    MachineryRuns.ForwardIsEnough(f, cfg, level);
    FinalParameters(kernel, ffs, s);
    OpsAt(f, cfg, level, k, j);
    ExecutedWithFinal(kernel, ffs, s, i);
    SameLength(s.ops, Before(kernel, ffs, s, i).ops);
    ActsReplacement(f, cfg, level, Final(kernel, ffs, s).ops, Final(kernel, ffs, s).measured, k, j);
    SixLong(cfg.n, k);
    AngleIs(f, j);
  }

  lemma {:induction false} AngleIs(f: Functions, j: nat)
    ensures AngleOf(f, j) == if j < 16 then f.halfPi else 0.0
  {
  }

  lemma {:induction false} SixLong(n: nat, k: nat)
    ensures |SixModes(n, k)| == 6
  {
    hide ModeIdx;
  }

  /** Operation j replaces the mode of micronode j - 14. */
  lemma {:induction false} ReplacementStep<Rng>(
    f: Functions, pow10: real -> real, sampler: Sampler<Rng>, kernel: Kernel<Peak, Rng, Sample>, cfg: Config, level: real, ffs: seq<FeedForward>,
    s: Exec<Peak, Rng>, k: nat, j: nat)
    requires IsRun(f, pow10, sampler, kernel, cfg, level, ffs, s) && cfg.Valid() && k < cfg.Total() && 14 <= j < OPS_PER_MACRONODE
    ensures |SixModes(cfg.n, k)| == 6
    ensures Replaces(f, pow10, PeaksBefore(kernel, ffs, s, MacronodeOpIdx(k, j)), PeaksBefore(kernel, ffs, s, MacronodeOpIdx(k, j) + 1),
                     SixModes(cfg.n, k)[j - 14], level, AngleOf(f, j))
  {
    hide *;
    Eighteen(cfg);
    var i := MacronodeOpIdx(k, j);
    RunMeans(f, pow10, sampler, kernel, cfg, level, ffs, s);
    ExecutedReplacement(f, kernel, cfg, level, s, k, j);
    RunsTo(f, pow10, sampler, kernel, cfg, level, ffs, s, i);
    RunsTo(f, pow10, sampler, kernel, cfg, level, ffs, s, i + 1);
    StepsFrom(kernel, ffs, s, i);
    SixLong(cfg.n, k);
    StepReplaces(f, pow10, sampler, ffs, Before(kernel, ffs, s, i), i, Before(kernel, ffs, s, i + 1), SixModes(cfg.n, k)[j - 14], level, AngleOf(f, j));
    BeforeIs(kernel, ffs, s, i);
    BeforeIs(kernel, ffs, s, i + 1);
  }

  lemma {:induction false} BeforeIs<Rng>(kernel: Kernel<Peak, Rng, Sample>, ffs: seq<FeedForward>, s: Exec<Peak, Rng>, i: nat)
    requires Run(kernel, ffs, s, 0, i).Some?
    ensures Before(kernel, ffs, s, i) == Run(kernel, ffs, s, 0, i).value
  {
    hide Run;
  }

  lemma {:induction false} StepsFrom<Rng>(kernel: Kernel<Peak, Rng, Sample>, ffs: seq<FeedForward>, s: Exec<Peak, Rng>, i: nat)
    requires i < |s.ops| && Run(kernel, ffs, s, 0, i).Some? && Run(kernel, ffs, s, 0, i + 1).Some?
    ensures Steps(kernel, ffs, Before(kernel, ffs, s, i), i, Before(kernel, ffs, s, i + 1))
  {
    hide Run, Steps;
    RunShapes(kernel, ffs, s, i + 1);
  }

  /** The four modes are separate while they are being replaced. */
  lemma {:induction false} SeparateBefore<Rng>(
    f: Functions, pow10: real -> real, sampler: Sampler<Rng>, kernel: Kernel<Peak, Rng, Sample>, cfg: Config, level: real, ffs: seq<FeedForward>,
    s: Exec<Peak, Rng>, k: nat, j: nat, l: nat)
    requires IsRun(f, pow10, sampler, kernel, cfg, level, ffs, s) && cfg.Valid() && k < cfg.Total() && 14 <= j < OPS_PER_MACRONODE && l < 4
    ensures |SixModes(cfg.n, k)| == 6
    ensures AllSeparate(PeaksBefore(kernel, ffs, s, MacronodeOpIdx(k, j)), cfg.n + 5, SixModes(cfg.n, k)[l])
  {
    hide IsRun, Compiles, Config.Forward, f.Lawful, Powers, AllSound, Run, MachineryOps, MachineryFFs, GaussianKernel, ModeIdx, MacronodeOpIdx, Positive,
      Separate, RecyclesSafely, GatesConstructible, ClearAt, MeasuredModes, ReplacedModes, PeaksBefore;
    RunMeans(f, pow10, sampler, kernel, cfg, level, ffs, s);
    var mode, peaks := SixModes(cfg.n, k)[l], PeaksBefore(kernel, ffs, s, MacronodeOpIdx(k, j));
    SixModesDistinct(cfg.n, k);
    ReplacesMeasured(f, cfg, level, k);
    assert mode in OutputModes(cfg.n, k);
    OpsAt(f, cfg, level, k, j);
    RunsTo(f, pow10, sampler, kernel, cfg, level, ffs, s, MacronodeOpIdx(k, j));
    SizeBefore(f, pow10, sampler, kernel, cfg, level, ffs, s, MacronodeOpIdx(k, j));
    forall m: nat | m < |peaks| ensures Separate(peaks[m], mode) {
      MachineryStaysSound(f, pow10, sampler, ffs, cfg, level, s, cfg.n + 5, k, j, m);
    }
  }

  lemma {:induction false} SizeBefore<Rng>(
    f: Functions, pow10: real -> real, sampler: Sampler<Rng>, kernel: Kernel<Peak, Rng, Sample>, cfg: Config, level: real, ffs: seq<FeedForward>,
    s: Exec<Peak, Rng>, i: nat)
    requires IsRun(f, pow10, sampler, kernel, cfg, level, ffs, s) && i <= |s.ops|
    ensures var peaks := PeaksBefore(kernel, ffs, s, i); forall m | 0 <= m < |peaks| :: peaks[m].n == cfg.n + 5
  {
    hide IsRun, Compiles, Config.Forward, f.Lawful, Powers, Run, MachineryOps, MachineryFFs, GaussianKernel, Positive,
      Separate, RecyclesSafely, GatesConstructible, ClearAt, PeaksBefore;
    RunMeans(f, pow10, sampler, kernel, cfg, level, ffs, s);
    RunsTo(f, pow10, sampler, kernel, cfg, level, ffs, s, i);
    MachineryRecyclesSafely(f, cfg, level, {});
    MachineryGates(f, cfg, level);
    ReachableSound(f, pow10, sampler, ffs, s, i, cfg.n + 5, {});
  }

  /** The modes replaced by operations 14 to j - 1 hold their new covariances. */
  ghost predicate ReplacedUpTo(f: Functions, pow10: real -> real, level: real, n: nat, k: nat, j: nat, peaks: seq<Peak>) {
    && |SixModes(n, k)| == 6 && j <= 18
    && forall l: nat | 14 <= l < j :: AllHold(peaks, n + 5, SixModes(n, k)[l - 14], SqueezedCov(f, pow10(level * 0.1), AngleOf(f, l)))
  }

  lemma {:induction false} OneMoreReplaced(
    f: Functions, pow10: real -> real, level: real, n: nat, k: nat, j: nat, before: seq<Peak>, after: seq<Peak>)
    requires n >= 1 && 14 <= j < 18 && ReplacedUpTo(f, pow10, level, n, k, j, before)
    requires Replaces(f, pow10, before, after, SixModes(n, k)[j - 14], level, AngleOf(f, j)) && AllSeparate(before, n + 5, SixModes(n, k)[j - 14])
    ensures ReplacedUpTo(f, pow10, level, n, k, j + 1, after)
  {
    hide AllHold, SqueezedCov, ModeIdx, Replaces, AllSeparate, AngleOf;
    ReplacedHold(f, pow10, before, after, n + 5, SixModes(n, k)[j - 14], level, AngleOf(f, j));
    forall l: nat | 14 <= l < j
      ensures AllHold(after, n + 5, SixModes(n, k)[l - 14], SqueezedCov(f, pow10(level * 0.1), AngleOf(f, l)))
    {
      SixApart(n, k, l - 14, j - 14);
      OthersHold(f, pow10, before, after, n + 5, SixModes(n, k)[j - 14], level, AngleOf(f, j),
                 SixModes(n, k)[l - 14], SqueezedCov(f, pow10(level * 0.1), AngleOf(f, l)));
    }
  }

  lemma {:induction false} SixApart(n: nat, k: nat, i: nat, j: nat)
    requires n >= 1 && i < j < 6
    ensures |SixModes(n, k)| == 6 && SixModes(n, k)[i] != SixModes(n, k)[j] && SixModes(n, k)[i] < n + 5 && SixModes(n, k)[j] < n + 5
  {
    SixModesDistinct(n, k);
    hide ModeIdx;
  }

  lemma {:induction false} ReplacedAfter<Rng>(
    f: Functions, pow10: real -> real, sampler: Sampler<Rng>, kernel: Kernel<Peak, Rng, Sample>, cfg: Config, level: real, ffs: seq<FeedForward>,
    s: Exec<Peak, Rng>, k: nat, j: nat)
    requires IsRun(f, pow10, sampler, kernel, cfg, level, ffs, s) && cfg.Valid() && k < cfg.Total() && 14 <= j < OPS_PER_MACRONODE
    requires ReplacedUpTo(f, pow10, level, cfg.n, k, j, PeaksBefore(kernel, ffs, s, MacronodeOpIdx(k, j)))
    ensures ReplacedUpTo(f, pow10, level, cfg.n, k, j + 1, PeaksBefore(kernel, ffs, s, MacronodeOpIdx(k, j) + 1))
  {
    hide *;
    Eighteen(cfg);
    ReplacementStep(f, pow10, sampler, kernel, cfg, level, ffs, s, k, j);
    SeparateBefore(f, pow10, sampler, kernel, cfg, level, ffs, s, k, j, j - 14);
    OneMoreReplaced(f, pow10, level, cfg.n, k, j, PeaksBefore(kernel, ffs, s, MacronodeOpIdx(k, j)), PeaksBefore(kernel, ffs, s, MacronodeOpIdx(k, j) + 1));
  }

  lemma {:induction false} ReplacedBefore<Rng>(
    f: Functions, pow10: real -> real, sampler: Sampler<Rng>, kernel: Kernel<Peak, Rng, Sample>, cfg: Config, level: real, ffs: seq<FeedForward>,
    s: Exec<Peak, Rng>, k: nat, j: nat)
    requires IsRun(f, pow10, sampler, kernel, cfg, level, ffs, s) && cfg.Valid() && k < cfg.Total() && 14 <= j <= OPS_PER_MACRONODE
    ensures ReplacedUpTo(f, pow10, level, cfg.n, k, j, PeaksBefore(kernel, ffs, s, MacronodeOpIdx(k, j)))
    decreases j
  {
    hide *;
    Eighteen(cfg);
    if j == 14 {
      NoneReplaced(f, pow10, level, cfg.n, k, PeaksBefore(kernel, ffs, s, MacronodeOpIdx(k, j)));
    } else {
      ReplacedBefore(f, pow10, sampler, kernel, cfg, level, ffs, s, k, j - 1);
      InRun(f, cfg, level, k, j);
      ReplacedAfter(f, pow10, sampler, kernel, cfg, level, ffs, s, k, j - 1);
    }
  }

  lemma {:induction false} NoneReplaced(f: Functions, pow10: real -> real, level: real, n: nat, k: nat, peaks: seq<Peak>)
    ensures ReplacedUpTo(f, pow10, level, n, k, 14, peaks)
  {
    hide AllHold, ModeIdx, SqueezedCov;
  }

  lemma {:induction false} InRun(f: Functions, cfg: Config, level: real, k: nat, j: nat)
    requires cfg.Valid() && k < cfg.Total() && j <= OPS_PER_MACRONODE
    ensures MacronodeOpIdx(k, j) <= |MachineryOps(f, cfg, level)|
    ensures j > 0 ==> MacronodeOpIdx(k, j - 1) + 1 == MacronodeOpIdx(k, j)
    ensures MacronodeOpIdx(k, 18) == MacronodeOpIdx(k + 1, 0)
  {
    if j > 0 {
      OpsAt(f, cfg, level, k, j - 1);
    }
    hide MachineryOps;
    MachineryRuns.CircuitLength(f, cfg, level);
  }

  // ----- the resource modes -----

  /** The covariance of a resource mode: squeezed in p (at angle pi/2) or in x. */
  function FreshBlock(f: Functions, pow10: real -> real, level: real, p: bool): Mat2 {
    SqueezedCov(f, pow10(level * 0.1), if p then f.halfPi else 0.0)
  }

  /** Micronodes c and a of macronode k are squeezed in p, b of k + 1 and d of k + N in x, all at this level. */
  ghost predicate Recycled(f: Functions, pow10: real -> real, level: real, n: nat, k: nat, peaks: seq<Peak>) {
    && AllHold(peaks, n + 5, ModeIdx(n, k, 2), FreshBlock(f, pow10, level, true))
    && AllHold(peaks, n + 5, ModeIdx(n, k, 3), FreshBlock(f, pow10, level, true))
    && AllHold(peaks, n + 5, ModeIdx(n, k, 4), FreshBlock(f, pow10, level, false))
    && AllHold(peaks, n + 5, ModeIdx(n, k, n + 4), FreshBlock(f, pow10, level, false))
  }

  lemma {:induction false} SixRenamed(n: nat, k: nat)
    requires n >= 1
    ensures |SixModes(n, k)| == 6
    ensures ModeIdx(n, k + 1, 2) == SixModes(n, k)[0] && ModeIdx(n, k + 1, 3) == SixModes(n, k)[1]
    ensures ModeIdx(n, k + 1, 4) == SixModes(n, k)[2] && ModeIdx(n, k + 1, n + 4) == SixModes(n, k)[3]
  {
    Renamed(n, k);
    hide ModeIdx;
  }

  lemma {:induction false} OneReplaced(f: Functions, pow10: real -> real, level: real, n: nat, k: nat, peaks: seq<Peak>, i: nat)
    requires ReplacedUpTo(f, pow10, level, n, k, 18, peaks) && i < 4
    ensures |SixModes(n, k)| == 6 && AllHold(peaks, n + 5, SixModes(n, k)[i], FreshBlock(f, pow10, level, i < 2))
  {
    hide AllHold, SqueezedCov, ModeIdx;
    var l := i + 14;
    assert AngleOf(f, l) == if i < 2 then f.halfPi else 0.0;
    assert SixModes(n, k)[l - 14] == SixModes(n, k)[i];
  }

  lemma {:induction false} RecycledNext(f: Functions, pow10: real -> real, level: real, n: nat, k: nat, peaks: seq<Peak>)
    requires n >= 1 && ReplacedUpTo(f, pow10, level, n, k, 18, peaks)
    ensures Recycled(f, pow10, level, n, k + 1, peaks)
  {
    hide AllHold, FreshBlock, ModeIdx, SixModes, ReplacedUpTo;
    SixRenamed(n, k);
    OneReplaced(f, pow10, level, n, k, peaks, 0);
    OneReplaced(f, pow10, level, n, k, peaks, 1);
    OneReplaced(f, pow10, level, n, k, peaks, 2);
    OneReplaced(f, pow10, level, n, k, peaks, 3);
  }

  /** The power of ten of this number is the inverse of the power of its opposite. */
  ghost predicate InvertsAt(pow10: real -> real, y: real) { pow10(-y) * pow10(y) == 1.0 }

  lemma {:induction false} AssembledHolds(c: seq<SinglePeak>, mode: nat)
    requires mode < |c|
    ensures Holds(Assembled(c), |c|, mode, c[mode].cov)
  {
    SeparateModes(c, mode);
    hide Separate;
    var g := Assembled(c);
    assert g.cov(mode, mode) == c[mode].cov.a && g.cov(mode, mode + |c|) == c[mode].cov.b;
    assert g.cov(mode + |c|, mode) == c[mode].cov.c && g.cov(mode + |c|, mode + |c|) == c[mode].cov.d;
  }

  /** Squeezing by the inverse is squeezing in the other quadrature. */
  lemma {:induction false} InverseBlock(f: Functions, inv: real, q: real)
    requires f.Lawful() && q > 0.0 && inv > 0.0 && inv * q == 1.0
    ensures SqueezedCov(f, inv, 0.0) == SqueezedCov(f, q, f.halfPi)
  {
    f.Zero();
    SqueezedEntries(f, inv, 0.0);
    SqueezedEntries(f, q, f.halfPi);
    assert f.sin(f.halfPi) == 1.0 && f.cos(f.halfPi) == 0.0;
    assert Quotient(1.0, inv) == q && Quotient(1.0, q) == inv by { Inverses(inv, q); }
    hide SqueezedCov, Quotient, f.Lawful;
  }

  lemma {:induction false} Inverses(inv: real, q: real)
    requires q > 0.0 && inv > 0.0 && inv * q == 1.0
    ensures Quotient(1.0, inv) == q && Quotient(1.0, q) == inv
  {
  }

  lemma {:induction false} BothPositive(pow10: real -> real, y: real)
    requires Powers(pow10)
    ensures pow10(-y) > 0.0 && pow10(y) > 0.0
  {
  }

  lemma {:induction false} InitialBlock(f: Functions, pow10: real -> real, n: nat, level: real, i: nat)
    requires f.Lawful() && Powers(pow10) && InvertsAt(pow10, level * 0.1)
    ensures SqueezedMode(f, pow10, ResourceLevel(level, i))[0].cov == FreshBlock(f, pow10, level, i == 2 || i == 3)
  {
    hide SqueezedCov, f.Lawful, Powers;
    assert ResourceLevel(level, i) * 0.1 == if i == 2 || i == 3 then -(level * 0.1) else level * 0.1;
    assert pow10(-(level * 0.1)) > 0.0 && pow10(level * 0.1) > 0.0 by { BothPositive(pow10, level * 0.1); }
    if i == 2 || i == 3 {
      InverseBlock(f, pow10(-(level * 0.1)), pow10(level * 0.1));
    }
  }

  lemma {:induction false} InitialHolds(
    f: Functions, pow10: real -> real, n: nat, level: real, modes: seq<seq<SinglePeak>>, peaks: seq<Peak>, i: nat)
    requires f.Lawful() && Powers(pow10) && InvertsAt(pow10, level * 0.1)
    requires IsInitial(f, pow10, n, level, modes) && IsProduct(modes, peaks) && i < n + 5
    ensures AllHold(peaks, n + 5, i, FreshBlock(f, pow10, level, i == 2 || i == 3))
  {
    InitialBlock(f, pow10, n, level, i);
    hide f.Lawful, Powers, InvertsAt, SqueezedMode, FreshBlock, Holds, Assembled;
    forall m | 0 <= m < |peaks| ensures Holds(peaks[m], n + 5, i, FreshBlock(f, pow10, level, i == 2 || i == 3)) {
      var c := Combination(modes, m);
      SingleChoice(modes, m, i, SqueezedMode(f, pow10, ResourceLevel(level, i)));
      AssembledHolds(c, i);
    }
  }

  lemma {:induction false} SingleChoice(modes: seq<seq<SinglePeak>>, m: nat, i: nat, mode: seq<SinglePeak>)
    requires m < Count(modes) && i < |modes| && modes[i] == mode && |mode| == 1
    ensures |Combination(modes, m)| == |modes| && Combination(modes, m)[i] == mode[0]
  {
    hide Count, Digits;
    assert Digits(modes, m)[i] < |modes[i]|;
  }

  lemma {:induction false} RecycledAtStart(
    f: Functions, pow10: real -> real, n: nat, level: real, modes: seq<seq<SinglePeak>>, peaks: seq<Peak>)
    requires n >= 1 && f.Lawful() && Powers(pow10) && InvertsAt(pow10, level * 0.1)
    requires IsInitial(f, pow10, n, level, modes) && IsProduct(modes, peaks)
    ensures Recycled(f, pow10, level, n, 0, peaks)
  {
    hide f.Lawful, Powers, InvertsAt, IsInitial, IsProduct, FreshBlock, AllHold, ModeIdx;
    Initially(n, 2);
    Initially(n, 3);
    Initially(n, 4);
    Initially(n, n + 4);
    InitialHolds(f, pow10, n, level, modes, peaks, 2);
    InitialHolds(f, pow10, n, level, modes, peaks, 3);
    InitialHolds(f, pow10, n, level, modes, peaks, 4);
    InitialHolds(f, pow10, n, level, modes, peaks, n + 4);
  }

  /** A machinery simulation from its initial state. */
  ghost predicate IsSimulation<Rng>(f: Functions, pow10: real -> real, cfg: Config, level: real, modes: seq<seq<SinglePeak>>, s: Exec<Peak, Rng>) {
    && f.Lawful() && Powers(pow10) && InvertsAt(pow10, level * 0.1) && cfg.Valid() && Compiles(cfg) && cfg.Forward()
    && IsInitial(f, pow10, cfg.n, level, modes) && IsProduct(modes, s.peaks)
    && s.ops == MachineryOps(f, cfg, level) && s.measured == map[]
  }

  lemma {:induction false} SimulationRuns<Rng>(
    f: Functions, pow10: real -> real, sampler: Sampler<Rng>, cfg: Config, level: real, modes: seq<seq<SinglePeak>>, s: Exec<Peak, Rng>)
    requires IsSimulation(f, pow10, cfg, level, modes, s)
    ensures cfg.Valid() && Compiles(cfg) && IsRun(f, pow10, sampler, GaussianKernel(f, pow10, sampler), cfg, level, MachineryFFs(f, cfg), s)
    ensures Recycled(f, pow10, level, cfg.n, 0, s.peaks)
  {
    hide f.Lawful, Powers, InvertsAt, Compiles, Config.Forward, IsInitial, IsProduct, MachineryOps, MachineryFFs, AllSound, Recycled, GaussianKernel;
    InitialSound(f, pow10, cfg.n, level, modes, s.peaks);
    RecycledAtStart(f, pow10, cfg.n, level, modes, s.peaks);
  }

  lemma {:induction false} AtOnce<Rng>(kernel: Kernel<Peak, Rng, Sample>, ffs: seq<FeedForward>, s: Exec<Peak, Rng>)
    ensures PeaksBefore(kernel, ffs, s, MacronodeOpIdx(0, 0)) == s.peaks
  {
  }

  lemma {:induction false} RecycledLater<Rng>(
    f: Functions, pow10: real -> real, sampler: Sampler<Rng>, kernel: Kernel<Peak, Rng, Sample>, cfg: Config, level: real, ffs: seq<FeedForward>,
    s: Exec<Peak, Rng>, k: nat)
    requires IsRun(f, pow10, sampler, kernel, cfg, level, ffs, s) && cfg.Valid() && k < cfg.Total()
    ensures Recycled(f, pow10, level, cfg.n, k + 1, PeaksBefore(kernel, ffs, s, MacronodeOpIdx(k + 1, 0)))
  {
    hide *;
    Eighteen(cfg);
    InRun(f, cfg, level, k, 18);
    ReplacedBefore(f, pow10, sampler, kernel, cfg, level, ffs, s, k, 18);
    RecycledNext(f, pow10, level, cfg.n, k, PeaksBefore(kernel, ffs, s, MacronodeOpIdx(k, 18)));
  }

  lemma {:induction false} MacronodeWithin(f: Functions, cfg: Config, level: real, k: nat)
    requires cfg.Valid() && k <= cfg.Total()
    ensures MacronodeOpIdx(k, 0) <= |MachineryOps(f, cfg, level)|
  {
    hide MachineryOps;
    MachineryRuns.CircuitLength(f, cfg, level);
  }

  function ResourcesOf(n: nat, k: nat): LevelAgreement.Resources
    requires n >= 1
  {
    LevelAgreement.Resources(ModeIdx(n, k, 4), ModeIdx(n, k, n + 4), ModeIdx(n, k, 3), ModeIdx(n, k, 2))
  }

  lemma {:induction false} ResourcesWithin(n: nat, k: nat)
    requires n >= 1
    ensures ResourcesOf(n, k).Within(n + 5)
  {
    SixModesDistinct(n, k);
    var ms := SixModes(n, k);
    assert ms[2] == ModeIdx(n, k, 2) && ms[3] == ModeIdx(n, k, 3) && ms[4] == ModeIdx(n, k, 4) && ms[5] == ModeIdx(n, k, n + 4);
    hide ModeIdx, SixModes;
  }

  lemma {:induction false} RecycledAreFresh(f: Functions, pow10: real -> real, level: real, n: nat, k: nat, peaks: seq<Peak>, m: nat)
    requires n >= 1 && Recycled(f, pow10, level, n, k, peaks) && m < |peaks|
    ensures LevelAgreement.AreFresh(f, pow10, level, peaks[m], ResourcesOf(n, k))
  {
    hide ModeIdx, SqueezedCov, Separate, Holds;
    ResourcesWithin(n, k);
    HoldsMeans(peaks[m], n + 5, ModeIdx(n, k, 2), FreshBlock(f, pow10, level, true));
    HoldsMeans(peaks[m], n + 5, ModeIdx(n, k, 3), FreshBlock(f, pow10, level, true));
    HoldsMeans(peaks[m], n + 5, ModeIdx(n, k, 4), FreshBlock(f, pow10, level, false));
    HoldsMeans(peaks[m], n + 5, ModeIdx(n, k, n + 4), FreshBlock(f, pow10, level, false));
  }

  /** In every machinery simulation, before every macronode its four resource modes are fresh: uncorrelated
      with everything else and squeezed at the level of the machine, b and d in x, a and c in p. */
  lemma {:induction false} AlwaysFresh<Rng>(
    f: Functions, pow10: real -> real, sampler: Sampler<Rng>, cfg: Config, level: real, modes: seq<seq<SinglePeak>>, s: Exec<Peak, Rng>, k: nat)
    requires IsSimulation(f, pow10, cfg, level, modes, s) && k <= cfg.Total()
    ensures Run(GaussianKernel(f, pow10, sampler), MachineryFFs(f, cfg), s, 0, MacronodeOpIdx(k, 0)).Some?
    ensures var peaks := Run(GaussianKernel(f, pow10, sampler), MachineryFFs(f, cfg), s, 0, MacronodeOpIdx(k, 0)).value.peaks;
      Recycled(f, pow10, level, cfg.n, k, peaks)
      && forall m | 0 <= m < |peaks| :: LevelAgreement.AreFresh(f, pow10, level, peaks[m], ResourcesOf(cfg.n, k))
  {
    hide *;
    SimulationRuns(f, pow10, sampler, cfg, level, modes, s);
    var kernel, ffs := GaussianKernel(f, pow10, sampler), MachineryFFs(f, cfg);
    RunMeans(f, pow10, sampler, kernel, cfg, level, ffs, s);
    MacronodeWithin(f, cfg, level, k);
    RunsTo(f, pow10, sampler, kernel, cfg, level, ffs, s, MacronodeOpIdx(k, 0));
    if k == 0 {
      AtOnce(kernel, ffs, s);
    } else {
      RecycledLater(f, pow10, sampler, kernel, cfg, level, ffs, s, k - 1);
    }
    var peaks := Run(kernel, ffs, s, 0, MacronodeOpIdx(k, 0)).value.peaks;
    forall m | 0 <= m < |peaks| ensures LevelAgreement.AreFresh(f, pow10, level, peaks[m], ResourcesOf(cfg.n, k)) {
      RecycledAreFresh(f, pow10, level, cfg.n, k, peaks, m);
    }
  }

  /** So in every machinery simulation the squeezed quadratures of the two outputs of macronode k, if it
      measures at theta, have the variance of the states the graph compiler brings in. */
  lemma {:induction false} LevelsAgree<Rng>(
    f: Functions, pow10: real -> real, log10: real -> real, sampler: Sampler<Rng>, cfg: Config, level: real, modes: seq<seq<SinglePeak>>,
    s: Exec<Peak, Rng>, k: nat, theta: real)
    requires IsSimulation(f, pow10, cfg, level, modes, s) && k <= cfg.Total() && LevelAgreement.PowersAt(pow10, log10, level)
    ensures Run(GaussianKernel(f, pow10, sampler), MachineryFFs(f, cfg), s, 0, MacronodeOpIdx(k, 0)).Some?
    ensures var peaks := Run(GaussianKernel(f, pow10, sampler), MachineryFFs(f, cfg), s, 0, MacronodeOpIdx(k, 0)).value.peaks;
      forall m | 0 <= m < |peaks| :: OutputsAgree(f, pow10, MeasurementSqueezingLevel(log10, level), theta, peaks[m], ResourcesOf(cfg.n, k))
  {
    hide *;
    AlwaysFresh(f, pow10, sampler, cfg, level, modes, s, k);
    LawfulRun(f, pow10, cfg, level, modes, s);
    var peaks := Run(GaussianKernel(f, pow10, sampler), MachineryFFs(f, cfg), s, 0, MacronodeOpIdx(k, 0)).value.peaks;
    forall m | 0 <= m < |peaks|
      ensures OutputsAgree(f, pow10, MeasurementSqueezingLevel(log10, level), theta, peaks[m], ResourcesOf(cfg.n, k))
    {
      AgreeAt(f, pow10, log10, level, theta, peaks[m], ResourcesOf(cfg.n, k));
    }
  }

  lemma {:induction false} LawfulRun<Rng>(f: Functions, pow10: real -> real, cfg: Config, level: real, modes: seq<seq<SinglePeak>>, s: Exec<Peak, Rng>)
    requires IsSimulation(f, pow10, cfg, level, modes, s)
    ensures f.Lawful() && cfg.Valid() && cfg.n >= 1 && Compiles(cfg)
  {
    hide f.Lawful, Compiles;
  }

  /** Both output quadratures of g have the variance of a state squeezed at this level at angle theta - pi/2. */
  ghost predicate OutputsAgree(f: Functions, pow10: real -> real, mlevel: real, theta: real, g: Peak, r: LevelAgreement.Resources) {
    && LevelAgreement.SameVariance(f, theta, pow10, mlevel, g, LevelAgreement.Weights(r, g.n, LevelAgreement.FirstOutput(f.sin(theta), f.cos(theta))))
    && LevelAgreement.SameVariance(f, theta, pow10, mlevel, g, LevelAgreement.Weights(r, g.n, LevelAgreement.SecondOutput(f.sin(theta), f.cos(theta))))
  }

  lemma {:induction false} AgreeAt(
    f: Functions, pow10: real -> real, log10: real -> real, level: real, theta: real, g: Peak, r: LevelAgreement.Resources)
    requires f.Lawful() && LevelAgreement.PowersAt(pow10, log10, level) && LevelAgreement.AreFresh(f, pow10, level, g, r)
    ensures OutputsAgree(f, pow10, MeasurementSqueezingLevel(log10, level), theta, g, r)
  {
    LevelAgreement.GraphLevelAgrees(f, theta, pow10, log10, level, g, r);
    hide f.Lawful, LevelAgreement.PowersAt, LevelAgreement.AreFresh, LevelAgreement.SameVariance;
  }
}
