/** Whole runs on a Gaussian peak whose measurements find the mean: the means follow a run on a phase-space point. */
module MeanRuns {
  import opened Elementary
  import opened Operations
  import opened Engine
  import opened Points
  import opened Resolution
  import opened GaussianPeaks
  import opened MeansAsPoints

  /** The mean of the position of a mode. */
  function MeanOf(mode: nat, peaks: seq<Peak>): real {
    if peaks != [] && mode < peaks[0].n then peaks[0].re(mode) else 0.0
  }

  /** Without a selection, the sampler finds the mean. */
  ghost predicate FindsMean<Rng(!new)>(sampler: (nat, Option<real>, seq<Peak>, Rng) -> (Sample, Rng)) {
    forall mode, peaks, rng :: sampler(mode, None, peaks, rng).0.value == MeanOf(mode, peaks)
  }

  predicate NoSelection(ops: seq<Op>) {
    forall j | 0 <= j < |ops| && IsMeasurement(ops[j].kind) :: ops[j].Selection() == None
  }

  /** The two runs have the same operations and measured values, and the peak has the point as its means. */
  ghost predicate InStep<Rng>(s: Exec<Peak, Rng>, u: Exec<Point, ()>) {
    && s.ops == u.ops && s.measured == u.measured && |s.peaks| == |u.peaks| == 1
    && Represents(s.peaks[0], u.peaks[0]) && u.peaks[0].supply == []
  }

  lemma {:induction false} SupplyStaysEmpty(f: Functions, kind: Kind, modes: seq<nat>, params: seq<real>, pt: Point)
    requires pt.supply == []
    ensures ApplyGate(f, kind, modes, params, pt).supply == []
  {
    hide Act4, BinaryMatrix, UnaryMatrix;
  }

  lemma {:induction false} GaussianApplies<Rng>(
    f: Functions, pow10: real -> real, sampler: (nat, Option<real>, seq<Peak>, Rng) -> (Sample, Rng),
    kind: Kind, modes: seq<nat>, params: seq<real>, g: Peak)
    ensures ApplyToAll(GaussianKernel(f, pow10, sampler), kind, modes, params, [g]) == [Operate(f, pow10, kind, modes, params, g)]
  {
    hide Operate;
  }

  lemma {:induction false} PointApplies(f: Functions, kind: Kind, modes: seq<nat>, params: seq<real>, pt: Point)
    ensures ApplyToAll(PointKernel(f), kind, modes, params, [pt]) == [ApplyGate(f, kind, modes, params, pt)]
  {
    hide ApplyGate;
  }

  /** A gate on both. */
  lemma {:induction false} GateInStep<Rng>(
    f: Functions, pow10: real -> real, sampler: (nat, Option<real>, seq<Peak>, Rng) -> (Sample, Rng),
    kind: Kind, modes: seq<nat>, params: seq<real>, g: Peak, pt: Point)
    requires Represents(g, pt) && pt.supply == [] && !IsMeasurement(kind)
    ensures var a, b := ApplyToAll(GaussianKernel(f, pow10, sampler), kind, modes, params, [g]), ApplyToAll(PointKernel(f), kind, modes, params, [pt]);
      |a| == |b| == 1 && Represents(a[0], b[0]) && b[0].supply == [] && a[0].n == g.n
  {
    hide Represents, Operate, ApplyGate;
    GaussianApplies(f, pow10, sampler, kind, modes, params, g);
    PointApplies(f, kind, modes, params, pt);
    SupplyStaysEmpty(f, kind, modes, params, pt);
    MeansMoveAsPoints(f, pow10, kind, modes, params, g, pt);
  }

  lemma {:induction false} RotatedIs<Peak, Rng, Sample>(k: Kernel<Peak, Rng, Sample>, op: Op, peaks: seq<Peak>, halfPi: real)
    requires k.halfPi == halfPi
    ensures Rotated(k, op, peaks) == if op.kind == HomodyneSingleMode && op.params != []
                                     then ApplyToAll(k, PhaseRotation, [Mode(op)], [op.params[0] - halfPi], peaks) else peaks
  {
  }

  lemma {:induction false} RotatedInStep<Rng>(
    f: Functions, pow10: real -> real, sampler: (nat, Option<real>, seq<Peak>, Rng) -> (Sample, Rng), op: Op, g: Peak, pt: Point)
    requires Represents(g, pt) && pt.supply == []
    ensures var a, b := Rotated(GaussianKernel(f, pow10, sampler), op, [g]), Rotated(PointKernel(f), op, [pt]);
      |a| == |b| == 1 && Represents(a[0], b[0]) && b[0].supply == []
  {
    RotatedIs(GaussianKernel(f, pow10, sampler), op, [g], f.halfPi);
    RotatedIs(PointKernel(f), op, [pt], f.halfPi);
    assert !IsMeasurement(PhaseRotation);
    hide *;
    if op.kind == HomodyneSingleMode && op.params != [] {
      GateInStep(f, pow10, sampler, PhaseRotation, [Mode(op)], [op.params[0] - f.halfPi], g, pt);
    }
  }

  /** Both read the same value, and are left in step. */
  lemma {:induction false} ReadInStep<Rng(!new)>(
    f: Functions, pow10: real -> real, sampler: (nat, Option<real>, seq<Peak>, Rng) -> (Sample, Rng), mode: nat, g: Peak, pt: Point, rng: Rng)
    requires FindsMean(sampler) && Represents(g, pt) && pt.supply == []
    ensures var sample, x := sampler(mode, None, [g], rng).0, ReadX(mode, None, [pt]);
      var a, b := SelectAll(GaussianKernel(f, pow10, sampler), mode, sample, [g]), SelectAll(PointKernel(f), mode, x, [pt]);
      && sample.value == x
      && |a| == |b| == 1 && Represents(a[0], b[0]) && b[0].supply == []
  {
    var sample, x := sampler(mode, None, [g], rng).0, ReadX(mode, None, [pt]);
    assert sample.value == MeanOf(mode, [g]);
    assert SelectAll(GaussianKernel(f, pow10, sampler), mode, sample, [g]) == [PostSelected(mode, sample, 0, g)];
    assert SelectAll(PointKernel(f), mode, x, [pt]) == [Cleared(mode, pt)];
    if mode < g.n {
      assert pt.modes[mode].x == g.re(mode);
      hide Represents, Observed;
      MeasuredMeans(mode, Share(sample, 0), g, pt);
    }
  }

  lemma {:induction false} StepInStep<Rng(!new)>(
    f: Functions, pow10: real -> real, sampler: (nat, Option<real>, seq<Peak>, Rng) -> (Sample, Rng), ffs: seq<FeedForward>,
    s: Exec<Peak, Rng>, u: Exec<Point, ()>, i: nat, s': Exec<Peak, Rng>, u': Exec<Point, ()>)
    requires FindsMean(sampler) && NoSelection(s.ops) && InStep(s, u)
    requires Steps(GaussianKernel(f, pow10, sampler), ffs, s, i, s') && Steps(PointKernel(f), ffs, u, i, u')
    ensures InStep(s', u')
  {
    var kg, kp, op, g, pt := GaussianKernel(f, pow10, sampler), PointKernel(f), s.ops[i], s.peaks[0], u.peaks[0];
    assert s.peaks == [g] && u.peaks == [pt];
    if IsMeasurement(op.kind) {
      hide Represents, FindsMean, CanFire, FireAll, Rotated, SelectAll;
      RotatedInStep(f, pow10, sampler, op, g, pt);
      var a, b := Rotated(kg, op, [g]), Rotated(kp, op, [pt]);
      assert a == [a[0]] && b == [b[0]];
      ReadInStep(f, pow10, sampler, Mode(op), a[0], b[0], s.rng);
    } else {
      hide Represents, ApplyToAll;
      GateInStep(f, pow10, sampler, op.kind, op.modes, op.Effective(), g, pt);
    }
  }

  lemma {:induction false} NoSelectionShapes(a: seq<Op>, b: seq<Op>)
    requires NoSelection(a) && SameShapes(a, b)
    ensures NoSelection(b)
  {
    forall j | 0 <= j < |b| && IsMeasurement(b[j].kind) ensures b[j].Selection() == None {
      assert a[j].SameShape(b[j]);
    }
  }

  /** In a run whose measurements find the mean, with all its feedforward, the means of the peak are at every
      moment the point of the run that starts at them, and the same values are measured and fed forward. */
  lemma {:induction false} MeansFollowPoint<Rng(!new)>(
    f: Functions, pow10: real -> real, sampler: (nat, Option<real>, seq<Peak>, Rng) -> (Sample, Rng), ffs: seq<FeedForward>,
    ops: seq<Op>, g: Peak, pt: Point, rng: Rng, i: nat)
    requires FindsMean(sampler) && NoSelection(ops) && WellFormed(ops, ffs) && i <= |ops|
    requires Represents(g, pt) && pt.supply == []
    ensures Run(GaussianKernel(f, pow10, sampler), ffs, Exec([g], rng, ops, map[]), 0, i).Some?
    ensures Run(PointKernel(f), ffs, Exec([pt], (), ops, map[]), 0, i).Some?
    ensures InStep(Before(GaussianKernel(f, pow10, sampler), ffs, Exec([g], rng, ops, map[]), i),
                   Before(PointKernel(f), ffs, Exec([pt], (), ops, map[]), i))
  {
    hide GaussianKernel, PointKernel, Represents, FindsMean, NoSelection, WellFormed, Step, Steps;
    if i > 0 {
      var kg, kp := GaussianKernel(f, pow10, sampler), PointKernel(f);
      var s, u := Exec([g], rng, ops, map[]), Exec([pt], (), ops, map[]);
      MeansFollowPoint(f, pow10, sampler, ffs, ops, g, pt, rng, i - 1);
      RunOneMore(kg, ffs, s, i - 1);
      RunOneMore(kp, ffs, u, i - 1);
      NoSelectionShapes(ops, Before(kg, ffs, s, i - 1).ops);
      StepInStep(f, pow10, sampler, ffs, Before(kg, ffs, s, i - 1), Before(kp, ffs, u, i - 1), i - 1,
                 Before(kg, ffs, s, i), Before(kp, ffs, u, i));
    }
  }
}
