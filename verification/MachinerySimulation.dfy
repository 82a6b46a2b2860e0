/** A whole machinery simulation: the resource modes it starts from and the values it reports. */
module MachinerySimulation {
  import opened Elementary
  import opened Operations
  import opened Engine
  import opened Machinery
  import opened Readout
  import opened DirectProduct
  import opened Weights
  import opened Replacement
  import opened GaussianPeaks
  import opened GaussianRuns
  import opened ProductStates
  import opened WeightRuns
  import opened MachineryRecycling
  import MachineryRuns
  import ModeAllocator

  // ----- the initial state -----

  /** `GenerateSqueezed` at angle and displacement zero. */
  function SqueezedMode(f: Functions, pow10: real -> real, level: real): seq<SinglePeak> {
    [SinglePeak(ONE, ZERO, ZERO, SqueezedCov(f, pow10(level * 0.1), 0.0))]
  }

  /** The modes 2 and 3 are squeezed in p, all others in x. */
  function ResourceLevel(level: real, i: nat): real {
    if i == 2 || i == 3 then -level else level
  }

  method InitialModes(f: Functions, pow10: real -> real, n: nat, level: real) returns (modes: array<seq<SinglePeak>>)
    requires n >= 1
    ensures fresh(modes) && modes.Length == n + 5
    ensures forall i | 0 <= i < n + 5 :: modes[i] == SqueezedMode(f, pow10, ResourceLevel(level, i))
  {
    hide SqueezedMode;
    var x, p := SqueezedMode(f, pow10, level), SqueezedMode(f, pow10, -level);
    modes := FillModes(n, x, p);
  }

  /** p on modes 2 and 3, x on all others, in the order the simulation fills them in. */
  method FillModes(n: nat, x: seq<SinglePeak>, p: seq<SinglePeak>) returns (modes: array<seq<SinglePeak>>)
    requires n >= 1
    ensures fresh(modes) && modes.Length == n + 5
    ensures forall i | 0 <= i < n + 5 :: modes[i] == if i == 2 || i == 3 then p else x
  {
    modes := new seq<SinglePeak>[5 + n](_ => []);
    modes[0], modes[1], modes[2], modes[3], modes[4] := x, x, p, p, x;
    for i := 5 to n + 4
      invariant forall l | 0 <= l < i :: modes[l] == if l == 2 || l == 3 then p else x
    {
      modes[i] := x;
    }
    modes[n + 4] := x;
  }

  ghost predicate IsInitial(f: Functions, pow10: real -> real, n: nat, level: real, modes: seq<seq<SinglePeak>>) {
    |modes| == n + 5 && forall i | 0 <= i < n + 5 :: modes[i] == SqueezedMode(f, pow10, ResourceLevel(level, i))
  }

  lemma {:induction false} SqueezedUnit(f: Functions, pow10: real -> real, level: real)
    ensures var mode := SqueezedMode(f, pow10, level); |mode| == 1 && Total(PeakWeights(CoeffOf(), mode), 1) == ONE
  {
    var mode := SqueezedMode(f, pow10, level);
    var g := PeakWeights(CoeffOf(), mode);
    assert g(0) == ONE;
    hide SqueezedCov, PeakWeights, SqueezedMode;
    LastTerm(g, 1);
    Units(ONE);
  }

  lemma {:induction false} OneCombination(modes: seq<seq<SinglePeak>>)
    requires forall k | 0 <= k < |modes| :: |modes[k]| == 1
    ensures Count(modes) == 1
  {
    if modes != [] {
      OneCombination(modes[1..]);
    }
  }

  lemma {:induction false} SqueezedBlock(f: Functions, pow10: real -> real, level: real)
    requires f.Lawful() && Powers(pow10)
    ensures Positive2(SqueezedMode(f, pow10, level)[0].cov)
  {
    hide f.Lawful, Positive2, SqueezedCov;
    SqueezedPositive(f, pow10(level * 0.1), 0.0);
  }

  lemma {:induction false} InitialModeAt(f: Functions, pow10: real -> real, n: nat, level: real, modes: seq<seq<SinglePeak>>, k: nat)
    requires f.Lawful() && Powers(pow10) && IsInitial(f, pow10, n, level, modes) && k < |modes|
    ensures |modes[k]| == 1 && Total(PeakWeights(CoeffOf(), modes[k]), 1) == ONE && Positive2(modes[k][0].cov)
  {
    hide SqueezedMode, Total, Positive2, PeakWeights, CoeffOf, f.Lawful;
    SqueezedUnit(f, pow10, ResourceLevel(level, k));
    SqueezedBlock(f, pow10, ResourceLevel(level, k));
  }

  /** One peak per mode, of weight one and positive definite. */
  ghost predicate SinglePositive(modes: seq<seq<SinglePeak>>) {
    forall k | 0 <= k < |modes| :: |modes[k]| == 1 && Total(PeakWeights(CoeffOf(), modes[k]), |modes[k]|) == ONE && Positive2(modes[k][0].cov)
  }

  lemma {:induction false} InitialModesPositive(f: Functions, pow10: real -> real, n: nat, level: real, modes: seq<seq<SinglePeak>>)
    requires f.Lawful() && Powers(pow10) && IsInitial(f, pow10, n, level, modes)
    ensures |modes| == n + 5 && SinglePositive(modes)
  {
    forall k | 0 <= k < |modes|
      ensures |modes[k]| == 1 && Total(PeakWeights(CoeffOf(), modes[k]), |modes[k]|) == ONE && Positive2(modes[k][0].cov)
    {
      hide *;
      InitialModeAt(f, pow10, n, level, modes, k);
    }
    hide SqueezedMode, Total, Positive2, PeakWeights, CoeffOf, f.Lawful;
  }

  lemma {:induction false} SingleFacts(modes: seq<seq<SinglePeak>>)
    requires SinglePositive(modes)
    ensures Count(modes) == 1 && PositiveBlocks(modes)
    ensures forall k | 0 <= k < |modes| :: Total(PeakWeights(CoeffOf(), modes[k]), |modes[k]|) == ONE
  {
    hide Total, Positive2, PeakWeights, CoeffOf, Count;
    OneCombination(modes);
  }

  lemma {:induction false} OnlyPeak(modes: seq<seq<SinglePeak>>, peaks: seq<Peak>)
    requires Count(modes) == 1 && PositiveBlocks(modes) && IsProduct(modes, peaks)
    ensures |peaks| == 1 && AllSound(peaks, |modes|, {})
  {
    assert peaks[0] == Assembled(Combination(modes, 0));
    hide PositiveBlocks, Assembled, Sound, Combination;
    ProductSound(modes, 0);
    Fewer(peaks[0], |modes|, AllModes(|modes|), {});
  }

  /** The initial state of a machinery simulation has one peak, positive definite and of weight one. */
  lemma {:induction false} InitialSound(f: Functions, pow10: real -> real, n: nat, level: real, modes: seq<seq<SinglePeak>>, peaks: seq<Peak>)
    requires f.Lawful() && Powers(pow10) && IsInitial(f, pow10, n, level, modes) && IsProduct(modes, peaks)
    ensures |peaks| == 1 && AllSound(peaks, n + 5, {}) && Weighed(peaks, n + 5)
  {
    hide *;
    InitialModesPositive(f, pow10, n, level, modes);
    SingleFacts(modes);
    ProductWeighed(modes, peaks);
    OnlyPeak(modes, peaks);
  }

  // ----- the whole run -----

  /** A machinery simulation whose nonlinear feedforwards lead forward never throws; in every state it
      reaches the covariances are positive definite and the real part of the total weight is one. */
  lemma {:induction false} SimulationStaysSound<Rng(!new)>(
    f: Functions, pow10: real -> real, sampler: (nat, Option<real>, seq<Peak>, Rng) -> (Sample, Rng), cfg: Config, level: real,
    modes: seq<seq<SinglePeak>>, s: Exec<Peak, Rng>, i: nat)
    requires f.Lawful() && Powers(pow10) && ReportsDensities(sampler) && cfg.Valid() && Compiles(cfg) && cfg.Forward()
    requires IsInitial(f, pow10, cfg.n, level, modes) && IsProduct(modes, s.peaks)
    requires s.ops == MachineryOps(f, cfg, level) && s.measured == map[] && i <= |s.ops|
    ensures Run(GaussianKernel(f, pow10, sampler), MachineryFFs(f, cfg), s, 0, i).Some?
    ensures var peaks := Run(GaussianKernel(f, pow10, sampler), MachineryFFs(f, cfg), s, 0, i).value.peaks;
      Weighed(peaks, cfg.n + 5) && forall m | 0 <= m < |peaks| :: Positive(peaks[m])
  {
    hide *;
    var k, ffs := GaussianKernel(f, pow10, sampler), MachineryFFs(f, cfg);
    MachineryRuns.MachineryWellFormed(f, cfg, level);
    StartSettled(ffs, s);
    RunSettled(k, s.ops, ffs, s, 0, i);
    InitialSound(f, pow10, cfg.n, level, modes, s.peaks);
    MachineryGates(f, cfg, level);
    MachineryRecyclesSafely(f, cfg, level, {});
    ReachableSound(f, pow10, sampler, ffs, s, i, cfg.n + 5, {});
    WeightConserved(f, pow10, sampler, ffs, s, i, cfg.n + 5);
    AllPositive(Run(k, ffs, s, 0, i).value.peaks, cfg.n + 5, ClearAt(s.ops, {}, i));
  }

  lemma {:induction false} AllPositive(peaks: seq<Peak>, n: nat, clear: set<nat>)
    requires AllSound(peaks, n, clear)
    ensures forall m | 0 <= m < |peaks| :: Positive(peaks[m])
  {
    hide Positive, Separate;
    forall m | 0 <= m < |peaks| ensures Positive(peaks[m]) {
      assert Sound(peaks[m], n, clear);
    }
  }

  // ----- the reported values -----

  datatype Reported = Reported(macronode: nat, mA: real, mB: real, mC: real, mD: real)

  /** The four values of macronode k are there. */
  ghost predicate AllMeasured(measured: map<nat, real>, k: nat) {
    Readable(HomodyneOps(k), measured)
  }

  ghost function ReportOf(measured: map<nat, real>, k: nat): Reported
    requires AllMeasured(measured, k)
  {
    var m := MachineryRuns.MeasuredIn(measured, k);
    Reported(k, MReadout(0, m), MReadout(1, m), MReadout(2, m), MReadout(3, m))
  }

  /** The loop of `ExtractMachineryResult` for one shot; `ok` is false when a value is missing. */
  method ExtractShot(measured: map<nat, real>, readouts: seq<nat>) returns (values: seq<Reported>, ok: bool)
    ensures ok <==> forall r | 0 <= r < |readouts| :: AllMeasured(measured, readouts[r])
    ensures ok ==> |values| == |readouts| && forall r | 0 <= r < |readouts| :: values[r] == ReportOf(measured, readouts[r])
  {
    values, ok := [], true;
    for r := 0 to |readouts|
      invariant ok && |values| == r
      invariant forall l | 0 <= l < r :: AllMeasured(measured, readouts[l]) && values[l] == ReportOf(measured, readouts[l])
    {
      var k := readouts[r];
      var ia, ib, ic, id := MacronodeOpIdx(k, HOMODYNE_A), MacronodeOpIdx(k, HOMODYNE_B), MacronodeOpIdx(k, HOMODYNE_C), MacronodeOpIdx(k, HOMODYNE_D);
      if ia !in measured || ib !in measured || ic !in measured || id !in measured {
        assert ia in HomodyneOps(k) && ib in HomodyneOps(k) && ic in HomodyneOps(k) && id in HomodyneOps(k);
        return [], false;
      }
      assert HomodyneOps(k) == [ia, ib, ic, id];
      var a, b, c, d := measured[ia], measured[ib], measured[ic], measured[id];
      values := values + [Reported(k, (a - b + c - d) / 2.0, (a + b + c + d) / 2.0, (-a + b + c - d) / 2.0, (-a - b + c + d) / 2.0)];
    }
  }

  lemma {:induction false} HomodynesOf(f: Functions, cfg: Config, level: real, k: nat, j: nat)
    requires cfg.Valid() && j in HomodyneOps(k)
    ensures k < cfg.Total() ==> j < |MachineryOps(f, cfg, level)| && IsMeasurement(MachineryOps(f, cfg, level)[j].kind)
    ensures k >= cfg.Total() ==> j >= |MachineryOps(f, cfg, level)|
  {
    MachineryRuns.CircuitLength(f, cfg, level);
    if k < cfg.Total() {
      OpsAt(f, cfg, level, k, HOMODYNE_A);
      OpsAt(f, cfg, level, k, HOMODYNE_B);
      OpsAt(f, cfg, level, k, HOMODYNE_C);
      OpsAt(f, cfg, level, k, HOMODYNE_D);
    }
    hide MachineryOps, ModeAllocator.ModeIdx;
  }

  /** After a whole run the values of a macronode are all there if and only if there is such a macronode. */
  lemma {:induction false} ReportedIffExists<Rng>(f: Functions, cfg: Config, level: real, ffs: seq<FeedForward>, e: Exec<Peak, Rng>, k: nat)
    requires cfg.Valid() && Settled(MachineryOps(f, cfg, level), ffs, e, |MachineryOps(f, cfg, level)|)
    ensures AllMeasured(e.measured, k) <==> k < cfg.Total()
  {
    var ops := MachineryOps(f, cfg, level);
    assert forall j: nat :: j in e.measured <==> j < |ops| && IsMeasurement(ops[j].kind);
    hide MachineryOps, Settled;
    forall j | j in HomodyneOps(k) ensures j in e.measured <==> k < cfg.Total() {
      HomodynesOf(f, cfg, level, k, j);
    }
    assert HomodyneOps(k)[0] in HomodyneOps(k);
  }
}
