/** Runs on Gaussian peaks: every reachable covariance is positive definite. */
module GaussianRuns {
  import opened Elementary
  import opened Operations
  import opened Engine
  import opened Sums
  import opened GaussianPeaks

  /** The modes known to be separate before operation i. */
  function ClearAt(ops: seq<Op>, start: set<nat>, i: nat): set<nat>
    requires i <= |ops|
  {
    if i == 0 then start else After(ClearAt(ops, start, i - 1), ops[i - 1].kind, ops[i - 1].modes)
  }

  /** Only separate modes are replaced. */
  ghost predicate RecyclesSafely(ops: seq<Op>, start: set<nat>) {
    forall i | 0 <= i < |ops| && ops[i].kind == ReplaceBySqueezedState && |ops[i].modes| == 1 :: ops[i].modes[0] in ClearAt(ops, start, i)
  }

  ghost predicate GatesConstructible(f: Functions, ops: seq<Op>) {
    forall i | 0 <= i < |ops| && IsMatrixGate(ops[i].kind) :: Constructible(f, ops[i].kind, ops[i].modes, ops[i].built)
  }

  ghost predicate AllSound(peaks: seq<Peak>, n: nat, clear: set<nat>) {
    forall m | 0 <= m < |peaks| :: Sound(peaks[m], n, clear)
  }

  ghost predicate Powers(pow10: real -> real) {
    forall y :: pow10(y) > 0.0
  }

  lemma {:induction false} AppliedSound<Rng>(
    f: Functions, pow10: real -> real, k: Kernel<Peak, Rng, Sample>, kind: Kind, modes: seq<nat>, params: seq<real>, peaks: seq<Peak>,
    n: nat, clear: set<nat>)
    requires f.Lawful() && Powers(pow10) && AllSound(peaks, n, clear) && !IsMeasurement(kind)
    requires forall g :: k.apply(kind, modes, params, g) == Operate(f, pow10, kind, modes, params, g)
    requires IsMatrixGate(kind) ==> Constructible(f, kind, modes, params)
    requires kind == ReplaceBySqueezedState && |modes| == 1 ==> modes[0] in clear
    ensures AllSound(ApplyToAll(k, kind, modes, params, peaks), n, After(clear, kind, modes))
  {
    hide f.Lawful, Constructible, Sound, Operate, After;
    var next := ApplyToAll(k, kind, modes, params, peaks);
    forall m | 0 <= m < |next| ensures Sound(next[m], n, After(clear, kind, modes)) {
      OperateSound(f, pow10, kind, modes, params, peaks[m], n, clear);
    }
  }

  /** The rotation before a measurement. */
  lemma {:induction false} RotatedSound<Rng>(
    f: Functions, pow10: real -> real, sampler: (nat, Option<real>, seq<Peak>, Rng) -> (Sample, Rng), op: Op, peaks: seq<Peak>, n: nat, clear: set<nat>)
    requires f.Lawful() && Powers(pow10) && AllSound(peaks, n, clear)
    ensures AllSound(Rotated(GaussianKernel(f, pow10, sampler), op, peaks), n, clear)
  {
    var k := GaussianKernel(f, pow10, sampler);
    assert Rotated(k, op, peaks) == if RotationBy(f, op) != [] then ApplyToAll(k, PhaseRotation, [Mode(op)], RotationBy(f, op), peaks) else peaks;
    AppliesOperate(f, pow10, sampler);
    hide *;
    if RotationBy(f, op) != [] {
      RotationConstructible(f, op, clear);
      AppliedSound(f, pow10, k, PhaseRotation, [Mode(op)], RotationBy(f, op), peaks, n, clear);
    }
  }

  lemma {:induction false} AppliesOperate<Rng>(f: Functions, pow10: real -> real, sampler: (nat, Option<real>, seq<Peak>, Rng) -> (Sample, Rng))
    ensures forall kind, modes, params, g ::
              GaussianKernel(f, pow10, sampler).apply(kind, modes, params, g) == Operate(f, pow10, kind, modes, params, g)
  {
    hide Operate;
  }

  /** The parameters of the rotation before a measurement, if there is one. */
  function RotationBy(f: Functions, op: Op): seq<real> {
    if op.kind == HomodyneSingleMode && op.params != [] then [op.params[0] - f.halfPi] else []
  }

  lemma {:induction false} RotationConstructible(f: Functions, op: Op, clear: set<nat>)
    requires RotationBy(f, op) != []
    ensures Constructible(f, PhaseRotation, [Mode(op)], RotationBy(f, op)) && After(clear, PhaseRotation, [Mode(op)]) == clear
    ensures !IsMeasurement(PhaseRotation)
  {
  }

  lemma {:induction false} SelectedSound<Rng>(
    f: Functions, pow10: real -> real, sampler: (nat, Option<real>, seq<Peak>, Rng) -> (Sample, Rng), mode: nat, s: Sample, peaks: seq<Peak>,
    n: nat, clear: set<nat>)
    requires AllSound(peaks, n, clear)
    ensures AllSound(SelectAll(GaussianKernel(f, pow10, sampler), mode, s, peaks), n, clear + {mode})
  {
    var k := GaussianKernel(f, pow10, sampler);
    var next := SelectAll(k, mode, s, peaks);
    forall m | 0 <= m < |next| ensures Sound(next[m], n, clear + {mode}) {
      assert Sound(peaks[m], n, clear);
      assert next[m] == PostSelected(mode, s, m, peaks[m]);
      if mode < n {
        hide Sound, Observed, Share;
        ObservedSound(mode, s.value, Share(s, m), peaks[m], n, clear);
      } else {
        OutOfRange(peaks[m], n, clear, mode);
      }
    }
  }

  lemma {:induction false} OutOfRange(g: Peak, n: nat, clear: set<nat>, mode: nat)
    requires Sound(g, n, clear) && mode >= n
    ensures Sound(g, n, clear + {mode})
  {
    hide Positive;
  }

  lemma {:induction false} FewerSound(peaks: seq<Peak>, n: nat, clear: set<nat>, fewer: set<nat>)
    requires AllSound(peaks, n, clear) && fewer <= clear
    ensures AllSound(peaks, n, fewer)
  {
    forall m | 0 <= m < |peaks| ensures Sound(peaks[m], n, fewer) {
      hide Sound;
      Fewer(peaks[m], n, clear, fewer);
    }
  }

  /** One operation of a run. */
  lemma {:induction false} StepSound<Rng>(
    f: Functions, pow10: real -> real, sampler: (nat, Option<real>, seq<Peak>, Rng) -> (Sample, Rng), ffs: seq<FeedForward>,
    ops0: seq<Op>, e: Exec<Peak, Rng>, i: nat, next: Exec<Peak, Rng>, n: nat, start: set<nat>)
    requires f.Lawful() && Powers(pow10) && GatesConstructible(f, ops0) && RecyclesSafely(ops0, start)
    requires i < |ops0| && SameShapes(ops0, e.ops) && AllSound(e.peaks, n, ClearAt(ops0, start, i))
    requires Steps(GaussianKernel(f, pow10, sampler), ffs, e, i, next)
    ensures AllSound(next.peaks, n, ClearAt(ops0, start, i + 1))
  {
    var k, op, clear := GaussianKernel(f, pow10, sampler), e.ops[i], ClearAt(ops0, start, i);
    assert ops0[i].SameShape(op);
    assert ClearAt(ops0, start, i + 1) == After(clear, op.kind, op.modes);
    if IsMeasurement(op.kind) {
      var rotated := Rotated(k, op, e.peaks);
      var s := sampler(Mode(op), op.Selection(), rotated, e.rng).0;
      assert next.peaks == SelectAll(k, Mode(op), s, rotated);
      assert After(clear, op.kind, op.modes) <= clear + {Mode(op)};
      hide *;
      RotatedSound(f, pow10, sampler, op, e.peaks, n, clear);
      SelectedSound(f, pow10, sampler, Mode(op), s, rotated, n, clear);
      FewerSound(next.peaks, n, clear + {Mode(op)}, After(clear, op.kind, op.modes));
    } else {
      assert next.peaks == ApplyToAll(k, op.kind, op.modes, op.Effective(), e.peaks);
      assert IsMatrixGate(op.kind) ==> op.Effective() == ops0[i].built;
      hide f.Lawful, AllSound, ClearAt, After, Operate, Powers, Constructible, ApplyToAll;
      AppliedSound(f, pow10, k, op.kind, op.modes, op.Effective(), e.peaks, n, clear);
    }
  }

  lemma {:induction false} RunShapes<Rng>(k: Kernel<Peak, Rng, Sample>, ffs: seq<FeedForward>, s: Exec<Peak, Rng>, i: nat)
    requires i <= |s.ops| && Run(k, ffs, s, 0, i).Some?
    ensures SameShapes(s.ops, Run(k, ffs, s, 0, i).value.ops)
    ensures i > 0 ==> Run(k, ffs, s, 0, i - 1).Some? && Steps(k, ffs, Run(k, ffs, s, 0, i - 1).value, i - 1, Run(k, ffs, s, 0, i).value)
  {
    if i > 0 {
      RunSplit(k, ffs, s, 0, i - 1, i);
      RunShapes(k, ffs, s, i - 1);
      var e := Run(k, ffs, s, 0, i - 1).value;
      LastStep(k, ffs, e, i - 1);
      hide Step;
      StepShapes(k, ffs, e, i - 1);
      SameShapesTransitive(s.ops, e.ops, Run(k, ffs, s, 0, i).value.ops);
    }
  }

  lemma {:induction false} LastStep<Rng>(k: Kernel<Peak, Rng, Sample>, ffs: seq<FeedForward>, e: Exec<Peak, Rng>, i: nat)
    ensures Run(k, ffs, e, i, i + 1) == Step(k, ffs, e, i)
  {
    hide Step;
    if Step(k, ffs, e, i).Some? {
      assert Run(k, ffs, Step(k, ffs, e, i).value, i + 1, i + 1) == Some(Step(k, ffs, e, i).value);
    }
  }

  /** In every state a run reaches, every covariance is symmetric and positive definite, and the modes
      known to be separate are uncorrelated with all others. */
  lemma {:induction false} ReachableSound<Rng>(
    f: Functions, pow10: real -> real, sampler: (nat, Option<real>, seq<Peak>, Rng) -> (Sample, Rng), ffs: seq<FeedForward>,
    s: Exec<Peak, Rng>, i: nat, n: nat, start: set<nat>)
    requires f.Lawful() && Powers(pow10) && GatesConstructible(f, s.ops) && RecyclesSafely(s.ops, start)
    requires i <= |s.ops| && AllSound(s.peaks, n, start)
    requires Run(GaussianKernel(f, pow10, sampler), ffs, s, 0, i).Some?
    ensures AllSound(Run(GaussianKernel(f, pow10, sampler), ffs, s, 0, i).value.peaks, n, ClearAt(s.ops, start, i))
  {
    hide f.Lawful, Powers, GatesConstructible, RecyclesSafely, AllSound, GaussianKernel, Steps;
    var k := GaussianKernel(f, pow10, sampler);
    if i > 0 {
      RunShapes(k, ffs, s, i);
      RunShapes(k, ffs, s, i - 1);
      ReachableSound(f, pow10, sampler, ffs, s, i - 1, n, start);
      StepSound(f, pow10, sampler, ffs, s.ops, Run(k, ffs, s, 0, i - 1).value, i - 1, Run(k, ffs, s, 0, i).value, n, start);
    }
  }

  /** The variance a post-selection divides by is positive, at every measurement of every run. */
  lemma {:induction false} VariancePositive<Rng>(
    f: Functions, pow10: real -> real, sampler: (nat, Option<real>, seq<Peak>, Rng) -> (Sample, Rng), ffs: seq<FeedForward>,
    s: Exec<Peak, Rng>, i: nat, n: nat, start: set<nat>, op: Op, m: nat)
    requires f.Lawful() && Powers(pow10) && GatesConstructible(f, s.ops) && RecyclesSafely(s.ops, start)
    requires i <= |s.ops| && AllSound(s.peaks, n, start)
    requires Run(GaussianKernel(f, pow10, sampler), ffs, s, 0, i).Some?
    requires m < |Run(GaussianKernel(f, pow10, sampler), ffs, s, 0, i).value.peaks| && Mode(op) < n
    ensures Rotated(GaussianKernel(f, pow10, sampler), op, Run(GaussianKernel(f, pow10, sampler), ffs, s, 0, i).value.peaks)[m].cov(Mode(op), Mode(op)) > 0.0
  {
    var k := GaussianKernel(f, pow10, sampler);
    var e := Run(k, ffs, s, 0, i).value;
    hide f.Lawful, Powers, GatesConstructible, RecyclesSafely, Run, GaussianKernel, Symmetric, PositiveDefinite;
    ReachableSound(f, pow10, sampler, ffs, s, i, n, start);
    RotatedSound(f, pow10, sampler, op, e.peaks, n, ClearAt(s.ops, start, i));
    var g := Rotated(k, op, e.peaks)[m];
    assert Sound(g, n, ClearAt(s.ops, start, i));
    DiagonalPositive(g.cov, 2 * n, Mode(op));
  }
}
