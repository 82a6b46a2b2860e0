/** Measurements whose value is selected in advance. */
module SelectedValues {
  import opened Elementary
  import opened Operations
  import opened Engine
  import opened Resolution
  import opened Points

  /** A selected value is the one that is found. */
  ghost predicate Honours<Peak(!new), Rng(!new), Sample>(k: Kernel<Peak, Rng, Sample>) {
    forall mode, v, peaks, rng :: k.value(k.sample(mode, Some(v), peaks, rng).0) == v
  }

  lemma {:induction false} PointsHonour(f: Functions)
    ensures Honours(PointKernel(f))
  {
  }

  /** Where the selection of a measurement is, if it has one. */
  predicate HasSelection(op: Op) {
    (op.kind == HomodyneSingleModeX && |op.params| == 1) || (op.kind == HomodyneSingleMode && |op.params| == 2)
  }

  /** What a measurement is built from: an angle, unless it measures x, and possibly a selected value. */
  function MeasurementParams(kind: Kind, theta: real, selection: Option<real>): seq<real> {
    (if kind == HomodyneSingleMode then [theta] else []) + (if selection.Some? then [selection.value] else [])
  }

  /** Every such measurement is accepted, nothing else is, and its selection is the value it was given. */
  lemma {:induction false} MeasurementsExactly(f: Functions, kind: Kind, mode: nat, p: seq<real>)
    requires IsMeasurement(kind)
    ensures Constructible(f, kind, [mode], p) <==> exists theta, selection :: p == MeasurementParams(kind, theta, selection)
    ensures forall theta, selection | p == MeasurementParams(kind, theta, selection) :: Emplace(kind, [mode], p).Selection() == selection
  {
    if Constructible(f, kind, [mode], p) {
      var angles := if kind == HomodyneSingleMode then 1 else 0;
      var theta := if angles == 1 then p[0] else 0.0;
      assert p == MeasurementParams(kind, theta, if |p| > angles then Some(p[angles]) else None);
    }
  }

  lemma {:induction false} StepSelects<Peak(!new), Rng(!new), Sample>(
    k: Kernel<Peak, Rng, Sample>, ffs: seq<FeedForward>, e: Exec<Peak, Rng>, i: nat, next: Exec<Peak, Rng>)
    requires Honours(k) && Steps(k, ffs, e, i, next) && i < |e.ops| && HasSelection(e.ops[i])
    ensures i in next.measured && next.measured[i] == e.ops[i].params[|e.ops[i].params| - 1]
  {
    hide FireAll, CanFire;
    var op := e.ops[i];
    var rotated := Rotated(k, op, e.peaks);
    assert op.Selection() == Some(op.params[|op.params| - 1]);
    var (sample, rng) := k.sample(Mode(op), op.Selection(), rotated, e.rng);
    assert next.measured == e.measured[i := k.value(sample)];
  }

  /** In every run a measurement with a selection reports the selected value, the last of its parameters, as
      it is when the measurement is executed: fed forward, if a feedforward wrote it. */
  lemma {:induction false} SelectedIsReported<Peak(!new), Rng(!new), Sample>(
    k: Kernel<Peak, Rng, Sample>, ffs: seq<FeedForward>, s: Exec<Peak, Rng>, i: nat)
    requires Honours(k) && WellFormed(s.ops, ffs) && s.measured == map[] && i < |s.ops| && HasSelection(s.ops[i])
    ensures Run(k, ffs, s, 0, i).Some? && Execute(k, ffs, s).Some? && i in Final(k, ffs, s).measured && i < |Before(k, ffs, s, i).ops|
    ensures var op := Before(k, ffs, s, i).ops[i];
      op.params != [] && Final(k, ffs, s).measured[i] == op.params[|op.params| - 1]
  {
    hide *;
    RunsSettled(k, ffs, s, i);
    RunsSettled(k, ffs, s, i + 1);
    RunOneMore(k, ffs, s, i);
    SameSelection(s.ops, Before(k, ffs, s, i).ops, i) by { SettledShapes(s.ops, ffs, Before(k, ffs, s, i), i); }
    AtRun(k, ffs, s, i);
    StepSelects(k, ffs, Before(k, ffs, s, i), i, Before(k, ffs, s, i + 1));
  }

  lemma {:induction false} AtRun<Peak, Rng, Sample>(k: Kernel<Peak, Rng, Sample>, ffs: seq<FeedForward>, s: Exec<Peak, Rng>, i: nat)
    requires Run(k, ffs, s, 0, i).Some? && Run(k, ffs, s, 0, i + 1).Some?
    requires Steps(k, ffs, Run(k, ffs, s, 0, i).value, i, Run(k, ffs, s, 0, i + 1).value)
    ensures Steps(k, ffs, Before(k, ffs, s, i), i, Before(k, ffs, s, i + 1))
  {
    hide Run, Steps;
  }

  lemma {:induction false} SettledShapes<Peak, Rng>(ops: seq<Op>, ffs: seq<FeedForward>, e: Exec<Peak, Rng>, i: nat)
    requires Settled(ops, ffs, e, i)
    ensures SameShapes(ops, e.ops)
  {
  }

  lemma {:induction false} SameSelection(a: seq<Op>, b: seq<Op>, i: nat)
    requires SameShapes(a, b) && i < |a| && HasSelection(a[i])
    ensures i < |b| && HasSelection(b[i]) && b[i].params != []
  {
    assert a[i].SameShape(b[i]);
  }
}
