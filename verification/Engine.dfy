/** What executing a circuit means: peaks, feedforward and measured values, one operation at a time.

The numerical work on a peak is a `Kernel` of functions, so that everything proved here holds for
every such kernel: for the Gaussian peaks of the simulator and for phase-space points alike. */
module Engine {
  import opened Elementary
  import opened Operations

  datatype ParamIdx = ParamIdx(op: nat, param: nat)

  datatype FeedForward = FeedForward(sources: seq<nat>, target: ParamIdx, func: seq<real> -> real)

  /** The constructor of a feedforward only rejects duplicate sources that are next to each other. */
  predicate NoAdjacentDuplicates(sources: seq<nat>) {
    forall j | 0 < j < |sources| :: sources[j - 1] != sources[j]
  }

  function NewFeedForward(sources: seq<nat>, target: ParamIdx, func: seq<real> -> real): Option<FeedForward> {
    if NoAdjacentDuplicates(sources) then Some(FeedForward(sources, target, func)) else None
  }

  /** The work on peaks.  `apply` receives the kind, the modes and the parameters the operation acts
      with; `sample` is the sampler, a function of the peaks and of the random engine; `select`
      post-selects the peak with the given index by a sampling result. */
  datatype Kernel<!Peak, !Rng, !Sample> = Kernel(
    halfPi: real,
    apply: (Kind, seq<nat>, seq<real>, Peak) -> Peak,
    sample: (nat, Option<real>, seq<Peak>, Rng) -> (Sample, Rng),
    value: Sample -> real,
    select: (nat, Sample, nat, Peak) -> Peak)

  /** The state of one shot. */
  datatype Exec<Peak, Rng> = Exec(peaks: seq<Peak>, rng: Rng, ops: seq<Op>, measured: map<nat, real>)

  // ----- feedforward -----

  function MaxSource(sources: seq<nat>): (m: nat)
    requires sources != []
    ensures m in sources
    ensures forall s | s in sources :: s <= m
  {
    if |sources| == 1 then sources[0]
    else
      var m := MaxSource(sources[1..]);
      assert sources == [sources[0]] + sources[1..];
      if sources[0] > m then sources[0] else m
  }

  predicate HasParam(ops: seq<Op>, t: ParamIdx) {
    t.op < |ops| && t.param < |ops[t.op].params|
  }

  function Param(ops: seq<Op>, t: ParamIdx): real
    requires HasParam(ops, t)
  {
    ops[t.op].params[t.param]
  }

  /** `GetMutParam(t) = v` on the operation `t.op`. */
  function SetParam(ops: seq<Op>, t: ParamIdx, v: real): seq<Op>
    requires HasParam(ops, t)
  {
    ops[t.op := ops[t.op].(params := ops[t.op].params[t.param := v])]
  }

  predicate SameShapes(a: seq<Op>, b: seq<Op>) {
    |a| == |b| && forall j | 0 <= j < |a| :: a[j].SameShape(b[j])
  }

  predicate Readable(sources: seq<nat>, measured: map<nat, real>) {
    forall s | s in sources :: s in measured
  }

  function Values(sources: seq<nat>, measured: map<nat, real>): (r: seq<real>)
    requires Readable(sources, measured)
    ensures |r| == |sources| && forall j | 0 <= j < |r| :: r[j] == measured[sources[j]]
  {
    seq(|sources|, j requires 0 <= j < |sources| => measured[sources[j]])
  }

  /** The feedforward with index n fires after operation i and writes parameter t. */
  ghost predicate Writes(ffs: seq<FeedForward>, n: int, i: nat, t: ParamIdx) {
    0 <= n < |ffs| && ffs[n].sources != [] && MaxSource(ffs[n].sources) == i && ffs[n].target == t
  }

  ghost predicate Fires(ffs: seq<FeedForward>, n: int, i: nat) {
    0 <= n < |ffs| && ffs[n].sources != [] && MaxSource(ffs[n].sources) == i
  }

  /** No feedforward fired by operation i throws. */
  ghost predicate CanFire(ops: seq<Op>, ffs: seq<FeedForward>, i: nat, measured: map<nat, real>) {
    forall n | Fires(ffs, n, i) :: Readable(ffs[n].sources, measured) && HasParam(ops, ffs[n].target)
  }

  ghost function ParamAfter(ops: seq<Op>, ffs: seq<FeedForward>, i: nat, measured: map<nat, real>, t: ParamIdx): real
    requires HasParam(ops, t) && CanFire(ops, ffs, i, measured)
  {
    if n :| Writes(ffs, n, i, t) then
      assert Fires(ffs, n, i);
      ffs[n].func(Values(ffs[n].sources, measured))
    else
      Param(ops, t)
  }

  /** The operations after every feedforward whose last source is operation i has been applied.
      With distinct targets this does not depend on the order in which they are applied. */
  ghost function FireAll(ops: seq<Op>, ffs: seq<FeedForward>, i: nat, measured: map<nat, real>): (r: seq<Op>)
    requires CanFire(ops, ffs, i, measured)
    ensures SameShapes(ops, r)
    ensures forall t | HasParam(ops, t) :: Param(r, t) == ParamAfter(ops, ffs, i, measured, t)
  {
    seq(|ops|, j requires 0 <= j < |ops| =>
      ops[j].(params := seq(|ops[j].params|, q requires 0 <= q < |ops[j].params| =>
        ParamAfter(ops, ffs, i, measured, ParamIdx(j, q)))))
  }

  ghost predicate UniqueTargets(ffs: seq<FeedForward>) {
    forall m, n | 0 <= m < n < |ffs| :: ffs[m].target != ffs[n].target
  }

  ghost predicate WellFormedFF(ops: seq<Op>, ff: FeedForward) {
    && ff.sources != []
    && (forall s | s in ff.sources :: s < |ops| && IsMeasurement(ops[s].kind))
    && HasParam(ops, ff.target)
  }

  /** The sources of every feedforward are measurements, its target parameter exists, and no two
      feedforwards share a target. */
  ghost predicate WellFormed(ops: seq<Op>, ffs: seq<FeedForward>) {
    && (forall n | 0 <= n < |ffs| :: WellFormedFF(ops, ffs[n]))
    && UniqueTargets(ffs)
  }

  /** Every feedforward writes to an operation that comes after all of its sources. */
  ghost predicate Causal(ffs: seq<FeedForward>) {
    forall n | 0 <= n < |ffs| && ffs[n].sources != [] :: MaxSource(ffs[n].sources) < ffs[n].target.op
  }

  // ----- execution -----

  function ApplyToAll<Peak, Rng, Sample>(
    k: Kernel<Peak, Rng, Sample>, kind: Kind, modes: seq<nat>, params: seq<real>, peaks: seq<Peak>): (r: seq<Peak>)
    ensures |r| == |peaks|
    ensures forall m | 0 <= m < |peaks| :: r[m] == k.apply(kind, modes, params, peaks[m])
  {
    seq(|peaks|, m requires 0 <= m < |peaks| => k.apply(kind, modes, params, peaks[m]))
  }

  function SelectAll<Peak, Rng, Sample>(
    k: Kernel<Peak, Rng, Sample>, mode: nat, sample: Sample, peaks: seq<Peak>): (r: seq<Peak>)
    ensures |r| == |peaks|
    ensures forall m | 0 <= m < |peaks| :: r[m] == k.select(mode, sample, m, peaks[m])
  {
    seq(|peaks|, m requires 0 <= m < |peaks| => k.select(mode, sample, m, peaks[m]))
  }

  /** The mode a measurement acts on. */
  function Mode(op: Op): nat {
    if op.modes == [] then 0 else op.modes[0]
  }

  /** The rotation by theta - pi/2 that precedes a measurement at angle theta. */
  function Rotated<Peak, Rng, Sample>(k: Kernel<Peak, Rng, Sample>, op: Op, peaks: seq<Peak>): (r: seq<Peak>)
    ensures |r| == |peaks|
  {
    if op.kind == HomodyneSingleMode && op.params != [] then
      ApplyToAll(k, PhaseRotation, [Mode(op)], [op.params[0] - k.halfPi], peaks)
    else
      peaks
  }

  /** `Simulator::ExecuteOperation`; None when there is no such operation or a feedforward throws. */
  ghost function Step<Peak, Rng, Sample>(
    k: Kernel<Peak, Rng, Sample>, ffs: seq<FeedForward>, s: Exec<Peak, Rng>, i: nat): Option<Exec<Peak, Rng>>
  {
    if i >= |s.ops| then None
    else if !IsMeasurement(s.ops[i].kind) then
      Some(s.(peaks := ApplyToAll(k, s.ops[i].kind, s.ops[i].modes, s.ops[i].Effective(), s.peaks)))
    else
      var op := s.ops[i];
      var rotated := Rotated(k, op, s.peaks);
      var (sample, rng) := k.sample(Mode(op), op.Selection(), rotated, s.rng);
      var measured := s.measured[i := k.value(sample)];
      if CanFire(s.ops, ffs, i, measured) then
        Some(Exec(SelectAll(k, Mode(op), sample, rotated), rng, FireAll(s.ops, ffs, i, measured), measured))
      else
        None
  }

  ghost predicate Steps<Peak, Rng, Sample>(
    k: Kernel<Peak, Rng, Sample>, ffs: seq<FeedForward>, s: Exec<Peak, Rng>, i: nat, t: Exec<Peak, Rng>)
  {
    Step(k, ffs, s, i) == Some(t)
  }

  lemma {:induction false} StepShapes<Peak, Rng, Sample>(
    k: Kernel<Peak, Rng, Sample>, ffs: seq<FeedForward>, s: Exec<Peak, Rng>, i: nat)
    requires Step(k, ffs, s, i).Some?
    ensures SameShapes(s.ops, Step(k, ffs, s, i).value.ops) && |Step(k, ffs, s, i).value.peaks| == |s.peaks|
  {
  }

  /** Executing operations i, ..., j - 1. */
  ghost function Run<Peak, Rng, Sample>(
    k: Kernel<Peak, Rng, Sample>, ffs: seq<FeedForward>, s: Exec<Peak, Rng>, i: nat, j: nat): Option<Exec<Peak, Rng>>
    decreases j - i
  {
    if i >= j then Some(s)
    else if Step(k, ffs, s, i).None? then None
    else Run(k, ffs, Step(k, ffs, s, i).value, i + 1, j)
  }

  /** `Simulator::Execute`. */
  ghost function Execute<Peak, Rng, Sample>(
    k: Kernel<Peak, Rng, Sample>, ffs: seq<FeedForward>, s: Exec<Peak, Rng>): Option<Exec<Peak, Rng>>
  {
    Run(k, ffs, s, 0, |s.ops|)
  }

  lemma {:induction false} RunSplit<Peak, Rng, Sample>(
    k: Kernel<Peak, Rng, Sample>, ffs: seq<FeedForward>, s: Exec<Peak, Rng>, i: nat, j: nat, l: nat)
    requires i <= j <= l
    ensures Run(k, ffs, s, i, j).None? ==> Run(k, ffs, s, i, l).None?
    ensures Run(k, ffs, s, i, j).Some? ==> Run(k, ffs, s, i, l) == Run(k, ffs, Run(k, ffs, s, i, j).value, j, l)
    decreases j - i
  {
    hide Step;
    if i < j && Step(k, ffs, s, i).Some? {
      RunSplit(k, ffs, Step(k, ffs, s, i).value, i + 1, j, l);
    }
  }

  // ----- what holds between operations i - 1 and i of every run -----

  /** Exactly the measurements before i have values; a parameter written by a feedforward whose
      last source is before i holds the function's value on the measured values, and every other
      parameter still has its initial value. */
  ghost predicate Settled<Peak, Rng>(ops0: seq<Op>, ffs: seq<FeedForward>, s: Exec<Peak, Rng>, i: nat) {
    && SameShapes(ops0, s.ops)
    && (forall j: nat :: j in s.measured <==> j < i && j < |ops0| && IsMeasurement(ops0[j].kind))
    && (forall n | 0 <= n < |ffs| && ffs[n].sources != [] && MaxSource(ffs[n].sources) < i ::
          Readable(ffs[n].sources, s.measured) && HasParam(s.ops, ffs[n].target)
          && Param(s.ops, ffs[n].target) == ffs[n].func(Values(ffs[n].sources, s.measured)))
    && (forall t | HasParam(ops0, t) && !WrittenBefore(ffs, t, i) :: Param(s.ops, t) == Param(ops0, t))
  }

  ghost predicate WrittenBefore(ffs: seq<FeedForward>, t: ParamIdx, i: int) {
    exists n :: 0 <= n < |ffs| && ffs[n].sources != [] && MaxSource(ffs[n].sources) < i && ffs[n].target == t
  }

  lemma {:induction false} ValuesAgree(sources: seq<nat>, a: map<nat, real>, b: map<nat, real>)
    requires Readable(sources, a)
    requires forall s | s in sources :: s in b && a[s] == b[s]
    ensures Values(sources, a) == Values(sources, b)
  {
  }

  /** One step of a well-formed circuit never throws and keeps the invariant. */
  lemma {:induction false} StepSettled<Peak, Rng, Sample>(
    k: Kernel<Peak, Rng, Sample>, ops0: seq<Op>, ffs: seq<FeedForward>, s: Exec<Peak, Rng>, i: nat)
    requires WellFormed(ops0, ffs) && i < |s.ops|
    requires Settled(ops0, ffs, s, i)
    ensures Step(k, ffs, s, i).Some?
    ensures Settled(ops0, ffs, Step(k, ffs, s, i).value, i + 1)
    ensures forall j | j in s.measured :: j in Step(k, ffs, s, i).value.measured
                                          && Step(k, ffs, s, i).value.measured[j] == s.measured[j]
  {
    var op := s.ops[i];
    assert ops0[i].SameShape(op);
    if IsMeasurement(op.kind) {
      var rotated := Rotated(k, op, s.peaks);
      var measured := s.measured[i := k.value(k.sample(Mode(op), op.Selection(), rotated, s.rng).0)];
      FiringIsReady(ops0, ffs, s, i, measured);
      MeasurementSettled(ops0, ffs, s, i, measured, Step(k, ffs, s, i).value);
    } else {
      GateSettled(ops0, ffs, s, i, Step(k, ffs, s, i).value);
    }
  }

  /** A gate changes neither parameters nor measured values, and no feedforward waits for it. */
  lemma {:induction false} GateSettled<Peak, Rng>(
    ops0: seq<Op>, ffs: seq<FeedForward>, s: Exec<Peak, Rng>, i: nat, s': Exec<Peak, Rng>)
    requires WellFormed(ops0, ffs) && Settled(ops0, ffs, s, i)
    requires i < |ops0| && !IsMeasurement(ops0[i].kind) && s'.ops == s.ops && s'.measured == s.measured
    ensures Settled(ops0, ffs, s', i + 1)
  {
    forall n | 0 <= n < |ffs| ensures MaxSource(ffs[n].sources) != i {
      assert WellFormedFF(ops0, ffs[n]);
    }
    assert forall t :: WrittenBefore(ffs, t, i + 1) <==> WrittenBefore(ffs, t, i);
  }

  lemma {:induction false} SameShapesTransitive(a: seq<Op>, b: seq<Op>, c: seq<Op>)
    requires SameShapes(a, b) && SameShapes(b, c)
    ensures SameShapes(a, c)
  {
    forall j | 0 <= j < |a| ensures a[j].SameShape(c[j]) {
      assert a[j].SameShape(b[j]) && b[j].SameShape(c[j]);
    }
  }

  lemma {:induction false} FiringIsReady<Peak, Rng>(
    ops0: seq<Op>, ffs: seq<FeedForward>, s: Exec<Peak, Rng>, i: nat, measured: map<nat, real>)
    requires WellFormed(ops0, ffs) && Settled(ops0, ffs, s, i) && i < |ops0|
    requires measured.Keys == s.measured.Keys + {i}
    ensures CanFire(s.ops, ffs, i, measured)
  {
    forall n | Fires(ffs, n, i)
      ensures Readable(ffs[n].sources, measured) && HasParam(s.ops, ffs[n].target)
    {
      assert WellFormedFF(ops0, ffs[n]);
      assert ops0[ffs[n].target.op].SameShape(s.ops[ffs[n].target.op]);
      forall j | j in ffs[n].sources ensures j in measured {
        assert j <= i;
      }
    }
  }

  lemma {:induction false} MeasurementSettled<Peak, Rng>(
    ops0: seq<Op>, ffs: seq<FeedForward>, s: Exec<Peak, Rng>, i: nat, measured: map<nat, real>, s': Exec<Peak, Rng>)
    requires WellFormed(ops0, ffs) && Settled(ops0, ffs, s, i)
    requires i < |ops0| && IsMeasurement(ops0[i].kind)
    requires measured.Keys == s.measured.Keys + {i} && forall j | j in s.measured :: measured[j] == s.measured[j]
    requires CanFire(s.ops, ffs, i, measured) && s'.ops == FireAll(s.ops, ffs, i, measured) && s'.measured == measured
    ensures Settled(ops0, ffs, s', i + 1)
  {
    var ops' := s'.ops;
    SameShapesTransitive(ops0, s.ops, ops');
    forall n | 0 <= n < |ffs| && ffs[n].sources != [] && MaxSource(ffs[n].sources) < i + 1
      ensures Readable(ffs[n].sources, measured) && HasParam(ops', ffs[n].target)
      ensures Param(ops', ffs[n].target) == ffs[n].func(Values(ffs[n].sources, measured))
    {
      FiredValue(ops0, ffs, s, i, measured, ops', n);
    }
    forall t | HasParam(ops0, t) && !WrittenBefore(ffs, t, i + 1)
      ensures HasParam(ops', t) && Param(ops', t) == Param(ops0, t)
    {
      assert ops0[t.op].SameShape(s.ops[t.op]) && s.ops[t.op].SameShape(ops'[t.op]);
      assert !WrittenBefore(ffs, t, i);
      assert forall n :: Writes(ffs, n, i, t) ==> WrittenBefore(ffs, t, i + 1);
    }
  }

  /** After operation i, the target of every feedforward fired so far holds its value. */
  lemma {:induction false} FiredValue<Peak, Rng>(
    ops0: seq<Op>, ffs: seq<FeedForward>, s: Exec<Peak, Rng>, i: nat, measured: map<nat, real>, ops': seq<Op>, n: nat)
    requires UniqueTargets(ffs) && Settled(ops0, ffs, s, i)
    requires measured.Keys == s.measured.Keys + {i} && i !in s.measured && forall j | j in s.measured :: measured[j] == s.measured[j]
    requires CanFire(s.ops, ffs, i, measured) && ops' == FireAll(s.ops, ffs, i, measured)
    requires n < |ffs| && ffs[n].sources != [] && MaxSource(ffs[n].sources) < i + 1
    ensures Readable(ffs[n].sources, measured) && HasParam(ops', ffs[n].target)
    ensures Param(ops', ffs[n].target) == ffs[n].func(Values(ffs[n].sources, measured))
  {
    var t := ffs[n].target;
    assert forall m :: Writes(ffs, m, i, t) ==> m == n;
    if MaxSource(ffs[n].sources) == i {
      assert Fires(ffs, n, i) && Writes(ffs, n, i, t);
    } else {
      ValuesAgree(ffs[n].sources, s.measured, measured);
    }
    assert s.ops[t.op].SameShape(ops'[t.op]);
  }

  lemma {:induction false} StartSettled<Peak, Rng>(ffs: seq<FeedForward>, s: Exec<Peak, Rng>)
    requires s.measured == map[]
    ensures Settled(s.ops, ffs, s, 0)
  {
  }

  /** A well-formed circuit never throws: every lookup of a feedforward succeeds when it fires, and
      the values it left in the parameters are still there, on the same measured values, later. */
  lemma {:induction false} RunSettled<Peak, Rng, Sample>(
    k: Kernel<Peak, Rng, Sample>, ops0: seq<Op>, ffs: seq<FeedForward>, s: Exec<Peak, Rng>, i: nat, j: nat)
    requires WellFormed(ops0, ffs) && i <= j <= |s.ops|
    requires Settled(ops0, ffs, s, i)
    ensures Run(k, ffs, s, i, j).Some?
    ensures Settled(ops0, ffs, Run(k, ffs, s, i, j).value, j)
    ensures forall l | l in s.measured :: l in Run(k, ffs, s, i, j).value.measured
                                          && Run(k, ffs, s, i, j).value.measured[l] == s.measured[l]
    decreases j - i
  {
    if i < j {
      StepSettled(k, ops0, ffs, s, i);
      RunSettled(k, ops0, ffs, Step(k, ffs, s, i).value, i + 1, j);
    }
  }

  lemma {:induction false} RunOneMore<Peak, Rng, Sample>(
    k: Kernel<Peak, Rng, Sample>, ffs: seq<FeedForward>, s: Exec<Peak, Rng>, i: nat)
    requires WellFormed(s.ops, ffs) && s.measured == map[] && i < |s.ops|
    ensures Run(k, ffs, s, 0, i).Some?
    ensures Run(k, ffs, s, 0, i + 1).Some?
    ensures SameShapes(s.ops, Run(k, ffs, s, 0, i).value.ops)
    ensures Steps(k, ffs, Run(k, ffs, s, 0, i).value, i, Run(k, ffs, s, 0, i + 1).value)
  {
    StartSettled(ffs, s);
    RunSettled(k, s.ops, ffs, s, 0, i);
    RunSplit(k, ffs, s, 0, i, i + 1);
    StepSettled(k, s.ops, ffs, Run(k, ffs, s, 0, i).value, i);
  }
}
