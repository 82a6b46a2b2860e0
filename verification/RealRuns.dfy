/** Runs on Gaussian peaks with real means. */
module RealRuns {
  import opened Elementary
  import opened Operations
  import opened Engine
  import opened Points
  import opened Sums
  import opened Conditioning
  import opened Congruence
  import opened PartialUpdate
  import opened GateMatrices
  import opened Replacement
  import opened PostSelection
  import opened GaussianPeaks
  import opened GaussianRuns
  import opened DirectProduct
  import opened ProductStates
  import opened WeightRuns
  import opened MachinerySimulation

  ghost predicate RealMeans(g: Peak) {
    forall i | 0 <= i < 2 * g.n :: g.im(i) == 0.0
  }

  ghost predicate AllReal(peaks: seq<Peak>) {
    forall m | 0 <= m < |peaks| :: RealMeans(peaks[m])
  }

  lemma {:induction false} GatedReal(m: Matrix, idx: seq<nat>, g: Peak)
    requires RealMeans(g)
    ensures RealMeans(Gated(m, idx, g))
  {
    hide Embed;
    forall i | 0 <= i < 2 * g.n ensures Image(Embed(m, idx), g.im, 2 * g.n)(i) == 0.0 {
      SumZero(RowTerms(Embed(m, idx), g.im, i), 2 * g.n);
    }
  }

  lemma {:induction false} OperateReal(f: Functions, pow10: real -> real, kind: Kind, modes: seq<nat>, params: seq<real>, g: Peak)
    requires RealMeans(g)
    ensures RealMeans(Operate(f, pow10, kind, modes, params, g))
  {
    if Applicable(kind, modes, params, g.n) && IsMatrixGate(kind) {
      hide RealMeans, Gated, GateMatrix, Indices;
      GatedReal(GateMatrix(f, kind, params), Indices(kind, modes, g.n), g);
    }
  }

  lemma {:induction false} ObservedReal(mode: nat, s: Sample, m: nat, g: Peak)
    requires RealMeans(g)
    ensures RealMeans(PostSelected(mode, s, m, g))
  {
    hide Fraction, Share;
    if mode < g.n {
      var im := ConditionalMean(g.cov, g.im, mode, mode + g.n, 0.0);
      forall i | 0 <= i < 2 * g.n ensures im(i) == 0.0 {
        NoFraction(g.cov(i, mode), g.cov(mode, mode));
      }
    }
  }

  lemma {:induction false} AppliedReal<Rng>(
    f: Functions, pow10: real -> real, k: Kernel<Peak, Rng, Sample>, kind: Kind, modes: seq<nat>, params: seq<real>, peaks: seq<Peak>)
    requires AllReal(peaks) && forall g :: k.apply(kind, modes, params, g) == Operate(f, pow10, kind, modes, params, g)
    ensures AllReal(ApplyToAll(k, kind, modes, params, peaks))
  {
    hide RealMeans, Operate;
    var next := ApplyToAll(k, kind, modes, params, peaks);
    forall m | 0 <= m < |next| ensures RealMeans(next[m]) {
      OperateReal(f, pow10, kind, modes, params, peaks[m]);
    }
  }

  lemma {:induction false} RotatedReal<Rng>(
    f: Functions, pow10: real -> real, sampler: (nat, Option<real>, seq<Peak>, Rng) -> (Sample, Rng), op: Op, peaks: seq<Peak>)
    requires AllReal(peaks)
    ensures AllReal(Rotated(GaussianKernel(f, pow10, sampler), op, peaks))
  {
    var k := GaussianKernel(f, pow10, sampler);
    AppliesOperate(f, pow10, sampler);
    assert Rotated(k, op, peaks) == if RotationBy(f, op) != [] then ApplyToAll(k, PhaseRotation, [Mode(op)], RotationBy(f, op), peaks) else peaks;
    hide *;
    if RotationBy(f, op) != [] {
      AppliedReal(f, pow10, k, PhaseRotation, [Mode(op)], RotationBy(f, op), peaks);
    }
  }

  lemma {:induction false} SelectedReal<Rng>(
    f: Functions, pow10: real -> real, sampler: (nat, Option<real>, seq<Peak>, Rng) -> (Sample, Rng), mode: nat, s: Sample, peaks: seq<Peak>)
    requires AllReal(peaks)
    ensures AllReal(SelectAll(GaussianKernel(f, pow10, sampler), mode, s, peaks))
  {
    hide RealMeans, PostSelected, Operate;
    var next := SelectAll(GaussianKernel(f, pow10, sampler), mode, s, peaks);
    forall m: nat | m < |next| ensures RealMeans(next[m]) {
      ObservedReal(mode, s, m, peaks[m]);
    }
  }

  lemma {:induction false} StepReal<Rng>(
    f: Functions, pow10: real -> real, sampler: (nat, Option<real>, seq<Peak>, Rng) -> (Sample, Rng), ffs: seq<FeedForward>,
    e: Exec<Peak, Rng>, i: nat, next: Exec<Peak, Rng>)
    requires i < |e.ops| && AllReal(e.peaks) && Steps(GaussianKernel(f, pow10, sampler), ffs, e, i, next)
    ensures AllReal(next.peaks)
  {
    var k, op := GaussianKernel(f, pow10, sampler), e.ops[i];
    if IsMeasurement(op.kind) {
      var rotated := Rotated(k, op, e.peaks);
      var s := sampler(Mode(op), op.Selection(), rotated, e.rng).0;
      assert next.peaks == SelectAll(k, Mode(op), s, rotated);
      hide *;
      RotatedReal(f, pow10, sampler, op, e.peaks);
      SelectedReal(f, pow10, sampler, Mode(op), s, rotated);
    } else {
      assert next.peaks == ApplyToAll(k, op.kind, op.modes, op.Effective(), e.peaks);
      AppliesOperate(f, pow10, sampler);
      hide *;
      AppliedReal(f, pow10, k, op.kind, op.modes, op.Effective(), e.peaks);
    }
  }

  /** Peaks with real means keep them in every run, whatever is measured and fed forward. */
  lemma {:induction false} RealStaysReal<Rng>(
    f: Functions, pow10: real -> real, sampler: (nat, Option<real>, seq<Peak>, Rng) -> (Sample, Rng), ffs: seq<FeedForward>, s: Exec<Peak, Rng>, i: nat)
    requires i <= |s.ops| && AllReal(s.peaks) && Run(GaussianKernel(f, pow10, sampler), ffs, s, 0, i).Some?
    ensures AllReal(Run(GaussianKernel(f, pow10, sampler), ffs, s, 0, i).value.peaks)
  {
    hide GaussianKernel, Steps, AllReal;
    var k := GaussianKernel(f, pow10, sampler);
    if i > 0 {
      RunShapes(k, ffs, s, i);
      RunShapes(k, ffs, s, i - 1);
      RealStaysReal(f, pow10, sampler, ffs, s, i - 1);
      StepReal(f, pow10, sampler, ffs, Run(k, ffs, s, 0, i - 1).value, i - 1, Run(k, ffs, s, 0, i).value);
    }
  }

  /** The initial state of a machinery simulation has real means, all zero. */
  lemma {:induction false} InitialReal(f: Functions, pow10: real -> real, n: nat, level: real, modes: seq<seq<SinglePeak>>, peaks: seq<Peak>)
    requires IsInitial(f, pow10, n, level, modes) && IsProduct(modes, peaks)
    ensures AllReal(peaks)
    ensures forall m, i | 0 <= m < |peaks| && 0 <= i < 2 * peaks[m].n :: peaks[m].re(i) == 0.0
  {
    hide Count, Digits, SqueezedCov;
    forall m: nat | m < |peaks|
      ensures RealMeans(peaks[m]) && forall i | 0 <= i < 2 * peaks[m].n :: peaks[m].re(i) == 0.0
    {
      var c := Combination(modes, m);
      assert |c| == |modes|;
      forall k | 0 <= k < |c| ensures c[k].x == c[k].p == Complex(0.0, 0.0) {
        assert c[k] in modes[k] && modes[k] == SqueezedMode(f, pow10, ResourceLevel(level, k));
      }
      hide Combination, SqueezedMode, IsInitial;
    }
  }
}
