/** Which feedforwards can influence a run, and which initial parameters. */
module Influence {
  import opened Elementary
  import opened Operations
  import opened Engine
  import opened Resolution
  import opened Histories

  /** The feedforward fires before its target is executed, and its target is executed with its parameters:
      not with a matrix built in the constructor. */
  predicate Influences(ops: seq<Op>, ff: FeedForward) {
    ff.sources != [] && MaxSource(ff.sources) < ff.target.op < |ops| && !IsMatrixGate(ops[ff.target.op].kind)
  }

  /** Operations that may differ in their parameters, but not in their matrices. */
  predicate Akin(a: Op, b: Op) {
    && a.kind == b.kind && a.modes == b.modes && |a.params| == |b.params|
    && (IsMatrixGate(a.kind) ==> a.built == b.built)
  }

  ghost predicate AllAkin(a: seq<Op>, b: seq<Op>) {
    |a| == |b| && forall j | 0 <= j < |a| :: Akin(a[j], b[j])
  }

  ghost predicate SameInfluence(ops: seq<Op>, a: seq<FeedForward>, b: seq<FeedForward>) {
    forall ff | Influences(ops, ff) :: ff in a <==> ff in b
  }

  /** The parameter will be overwritten, from operation i on, before it is used. */
  ghost predicate Awaits(ops: seq<Op>, ffs: seq<FeedForward>, t: ParamIdx, i: int) {
    exists ff :: ff in ffs && Influences(ops, ff) && MaxSource(ff.sources) >= i && ff.target == t
  }

  /** Operation i or a later one is executed with this parameter. */
  predicate Used(ops: seq<Op>, t: ParamIdx, i: int) {
    HasParam(ops, t) && i <= t.op && !IsMatrixGate(ops[t.op].kind)
  }

  predicate SameParam(a: seq<Op>, b: seq<Op>, t: ParamIdx) {
    HasParam(a, t) && HasParam(b, t) && Param(a, t) == Param(b, t)
  }

  ghost predicate SameUsed(ops: seq<Op>, ffs: seq<FeedForward>, a: seq<Op>, b: seq<Op>, i: int) {
    forall t | Used(a, t, i) && !Awaits(ops, ffs, t, i) :: SameParam(a, b, t)
  }

  /** Two runs before operation i that differ at most in parameters no operation will be executed with. */
  ghost predicate Similar<Peak, Rng>(ops: seq<Op>, ffs: seq<FeedForward>, s: Exec<Peak, Rng>, u: Exec<Peak, Rng>, i: int) {
    && s.peaks == u.peaks && s.rng == u.rng && s.measured == u.measured
    && SameShapes(ops, s.ops) && AllAkin(s.ops, u.ops)
    && SameUsed(ops, ffs, s.ops, u.ops, i)
  }

  /** Operation i acts alike in both. */
  lemma {:induction false} SimilarOp<Peak, Rng>(ops: seq<Op>, ffs: seq<FeedForward>, s: Exec<Peak, Rng>, u: Exec<Peak, Rng>, i: nat)
    requires Similar(ops, ffs, s, u, i) && i < |s.ops|
    ensures i < |u.ops| && s.ops[i].kind == u.ops[i].kind && s.ops[i].modes == u.ops[i].modes
    ensures s.ops[i].Effective() == u.ops[i].Effective()
    ensures !IsMatrixGate(s.ops[i].kind) ==> s.ops[i].params == u.ops[i].params
  {
    assert Akin(s.ops[i], u.ops[i]);
    if !IsMatrixGate(s.ops[i].kind) {
      forall q | 0 <= q < |s.ops[i].params| ensures s.ops[i].params[q] == u.ops[i].params[q] {
        var t := ParamIdx(i, q);
        assert Used(s.ops, t, i) && !Awaits(ops, ffs, t, i);
      }
    }
  }

  lemma {:induction false} ShapesAreAkin(a: seq<Op>, b: seq<Op>, a': seq<Op>, b': seq<Op>)
    requires AllAkin(a, b) && SameShapes(a, a') && SameShapes(b, b')
    ensures AllAkin(a', b')
  {
    forall j | 0 <= j < |a| ensures Akin(a'[j], b'[j]) {
      assert Akin(a[j], b[j]) && a[j].SameShape(a'[j]) && b[j].SameShape(b'[j]);
    }
  }

  /** A feedforward that writes a parameter still to be used is in both circuits. */
  lemma {:induction false} WritesInBoth(
    ops: seq<Op>, a: seq<FeedForward>, b: seq<FeedForward>, now: seq<Op>, i: nat, t: ParamIdx, m: nat)
    requires SameShapes(ops, now) && Used(now, t, i + 1) && Writes(a, m, i, t)
    requires forall ff | Influences(ops, ff) && ff in a :: ff in b
    ensures exists n :: Writes(b, n, i, t) && b[n] == a[m]
  {
    assert ops[t.op].SameShape(now[t.op]);
    assert Influences(ops, a[m]) && a[m] in a;
    var n :| 0 <= n < |b| && b[n] == a[m];
    assert Writes(b, n, i, t);
  }

  /** A parameter still to be used gets the same value from the feedforwards of both circuits. */
  lemma {:induction false} FiredAlike(
    ops: seq<Op>, a: seq<FeedForward>, b: seq<FeedForward>, now: seq<Op>, now': seq<Op>, i: nat, measured: map<nat, real>, t: ParamIdx)
    requires UniqueTargets(a) && UniqueTargets(b) && SameInfluence(ops, a, b) && SameShapes(ops, now)
    requires CanFire(now, a, i, measured) && CanFire(now', b, i, measured)
    requires Used(now, t, i + 1) && HasParam(now', t) && !Awaits(ops, a, t, i + 1)
    requires !Awaits(ops, a, t, i) ==> Param(now, t) == Param(now', t)
    ensures ParamAfter(now, a, i, measured, t) == ParamAfter(now', b, i, measured, t)
  {
    if n: nat :| Writes(a, n, i, t) {
      WritesInBoth(ops, a, b, now, i, t, n);
      var m :| Writes(b, m, i, t) && b[m] == a[n];
      assert forall l :: Writes(a, l, i, t) ==> l == n;
      assert forall l :: Writes(b, l, i, t) ==> l == m;
    } else {
      if m: nat :| Writes(b, m, i, t) {
        WritesInBoth(ops, b, a, now, i, t, m);
      } else if Awaits(ops, a, t, i) {
        FiresOrAwaits(ops, a, t, i);
      }
    }
  }

  lemma {:induction false} FiresOrAwaits(ops: seq<Op>, ffs: seq<FeedForward>, t: ParamIdx, i: nat)
    requires Awaits(ops, ffs, t, i)
    ensures Awaits(ops, ffs, t, i + 1) || exists n :: Writes(ffs, n, i, t)
  {
    var ff :| ff in ffs && Influences(ops, ff) && MaxSource(ff.sources) >= i && ff.target == t;
    var n :| 0 <= n < |ffs| && ffs[n] == ff;
    assert MaxSource(ff.sources) == i ==> Writes(ffs, n, i, t);
  }

  lemma {:induction false} UsedAfter(ops: seq<Op>, ops': seq<Op>, t: ParamIdx, i: nat)
    requires SameShapes(ops, ops') && Used(ops', t, i + 1)
    ensures Used(ops, t, i + 1) && Used(ops, t, i)
  {
    assert ops[t.op].SameShape(ops'[t.op]);
  }

  lemma {:induction false} AkinParam(a: seq<Op>, b: seq<Op>, t: ParamIdx)
    requires AllAkin(a, b) && HasParam(a, t)
    ensures HasParam(b, t)
  {
    assert Akin(a[t.op], b[t.op]);
  }

  lemma {:induction false} SimilarFire<Peak, Rng>(
    ops: seq<Op>, a: seq<FeedForward>, b: seq<FeedForward>, s: Exec<Peak, Rng>, u: Exec<Peak, Rng>, i: nat, measured: map<nat, real>)
    requires UniqueTargets(a) && UniqueTargets(b) && SameInfluence(ops, a, b) && Similar(ops, a, s, u, i)
    requires CanFire(s.ops, a, i, measured) && CanFire(u.ops, b, i, measured)
    ensures AllAkin(FireAll(s.ops, a, i, measured), FireAll(u.ops, b, i, measured))
    ensures SameUsed(ops, a, FireAll(s.ops, a, i, measured), FireAll(u.ops, b, i, measured), i + 1)
  {
    hide UniqueTargets, SameInfluence, CanFire, Awaits, ParamAfter, Used, AllAkin;
    var s', u' := FireAll(s.ops, a, i, measured), FireAll(u.ops, b, i, measured);
    ShapesAreAkin(s.ops, u.ops, s', u');
    forall t | Used(s', t, i + 1) && !Awaits(ops, a, t, i + 1) ensures SameParam(s', u', t) {
      UsedAfter(s.ops, s', t, i);
      UsedHas(s.ops, t, i);
      UsedHas(s', t, i + 1);
      AkinParam(s.ops, u.ops, t);
      AkinParam(s', u', t);
      FiredAlike(ops, a, b, s.ops, u.ops, i, measured, t);
    }
  }

  lemma {:induction false} UsedHas(ops: seq<Op>, t: ParamIdx, i: int)
    requires Used(ops, t, i)
    ensures HasParam(ops, t)
  {
  }

  lemma {:induction false} SimilarStep<Peak, Rng, Sample>(
    k: Kernel<Peak, Rng, Sample>, ops: seq<Op>, a: seq<FeedForward>, b: seq<FeedForward>,
    s: Exec<Peak, Rng>, u: Exec<Peak, Rng>, i: nat, s': Exec<Peak, Rng>, u': Exec<Peak, Rng>)
    requires WellFormed(ops, a) && UniqueTargets(b) && SameInfluence(ops, a, b) && Similar(ops, a, s, u, i)
    requires Steps(k, a, s, i, s') && Steps(k, b, u, i, u')
    ensures Similar(ops, a, s', u', i + 1)
  {
    hide WellFormedFF, SameInfluence, AllAkin, SameUsed, FireAll, UniqueTargets, CanFire, Rotated, ApplyToAll, SelectAll;
    SimilarOp(ops, a, s, u, i);
    StepShapes(k, a, s, i);
    SameShapesTransitive(ops, s.ops, s'.ops);
    hide SameShapes;
    if IsMeasurement(s.ops[i].kind) {
      MeasuredAlike(k, s.ops[i], u.ops[i], s.peaks);
      SimilarFire(ops, a, b, s, u, i, s'.measured);
    } else {
      KindIs(ops, s.ops, i);
      SimilarGate(ops, a, s.ops, u.ops, i);
    }
  }

  lemma {:induction false} MeasuredAlike<Peak, Rng, Sample>(k: Kernel<Peak, Rng, Sample>, a: Op, b: Op, peaks: seq<Peak>)
    requires a.kind == b.kind && a.modes == b.modes && a.params == b.params
    ensures Rotated(k, a, peaks) == Rotated(k, b, peaks) && Mode(a) == Mode(b) && a.Selection() == b.Selection()
  {
  }

  lemma {:induction false} KindIs(ops: seq<Op>, now: seq<Op>, i: nat)
    requires SameShapes(ops, now) && i < |now|
    ensures i < |ops| && ops[i].kind == now[i].kind
  {
    assert ops[i].SameShape(now[i]);
  }

  /** No feedforward waits for a gate. */
  lemma {:induction false} SimilarGate(ops: seq<Op>, ffs: seq<FeedForward>, now: seq<Op>, now': seq<Op>, i: nat)
    requires WellFormed(ops, ffs) && i < |ops| && !IsMeasurement(ops[i].kind) && SameUsed(ops, ffs, now, now', i)
    ensures SameUsed(ops, ffs, now, now', i + 1)
  {
    forall n | 0 <= n < |ffs| ensures MaxSource(ffs[n].sources) != i {
      assert WellFormedFF(ops, ffs[n]);
    }
    forall t | Used(now, t, i + 1) && !Awaits(ops, ffs, t, i + 1) ensures SameParam(now, now', t) {
      assert Used(now, t, i);
      if Awaits(ops, ffs, t, i) {
        FiresOrAwaits(ops, ffs, t, i);
      }
    }
  }

  lemma {:induction false} SimilarRuns<Peak, Rng, Sample>(
    k: Kernel<Peak, Rng, Sample>, a: seq<FeedForward>, b: seq<FeedForward>, s: Exec<Peak, Rng>, u: Exec<Peak, Rng>, i: nat)
    requires WellFormed(s.ops, a) && WellFormed(u.ops, b) && SameInfluence(s.ops, a, b)
    requires s.measured == u.measured == map[] && Similar(s.ops, a, s, u, 0) && i <= |s.ops|
    ensures Run(k, a, s, 0, i).Some? && Run(k, b, u, 0, i).Some?
    ensures Similar(s.ops, a, Before(k, a, s, i), Before(k, b, u, i), i)
  {
    assert |s.ops| == |u.ops|;
    hide Step, Steps, WellFormedFF, SameInfluence, SameUsed, AllAkin, SameShapes;
    if i > 0 {
      SimilarRuns(k, a, b, s, u, i - 1);
      RunOneMore(k, a, s, i - 1);
      RunOneMore(k, b, u, i - 1);
      SimilarStep(k, s.ops, a, b, Before(k, a, s, i - 1), Before(k, b, u, i - 1), i - 1, Before(k, a, s, i), Before(k, b, u, i));
    }
  }

  // ----- what a run depends on -----

  ghost predicate SameOutcome<Peak, Rng>(e: Exec<Peak, Rng>, d: Exec<Peak, Rng>) {
    e.peaks == d.peaks && e.rng == d.rng && e.measured == d.measured
  }

  /** Both circuits run to the end, with the same peaks, random engine and measured values. */
  ghost predicate RunAlike<Peak, Rng, Sample>(
    k: Kernel<Peak, Rng, Sample>, a: seq<FeedForward>, s: Exec<Peak, Rng>, b: seq<FeedForward>, u: Exec<Peak, Rng>)
  {
    && Execute(k, a, s).Some? && Execute(k, b, u).Some?
    && SameOutcome(Final(k, a, s), Final(k, b, u))
  }

  /** A run depends on the matrices of its gates, on the feedforwards that can influence it, and on those
      parameters of its other operations that these do not overwrite. */
  lemma {:induction false} InfluenceDecides<Peak, Rng, Sample>(
    k: Kernel<Peak, Rng, Sample>, a: seq<FeedForward>, ops: seq<Op>, b: seq<FeedForward>, ops': seq<Op>, peaks: seq<Peak>, rng: Rng)
    requires WellFormed(ops, a) && WellFormed(ops', b) && SameInfluence(ops, a, b)
    requires AllAkin(ops, ops') && SameUsed(ops, a, ops, ops', 0)
    ensures RunAlike(k, a, Exec(peaks, rng, ops, map[]), b, Exec(peaks, rng, ops', map[]))
  {
    hide WellFormed, SameInfluence, SameUsed, Run;
    var s, u := Exec(peaks, rng, ops, map[]), Exec(peaks, rng, ops', map[]);
    SimilarRuns(k, a, b, s, u, |ops|);
  }

  lemma {:induction false} NothingDiffers(ops: seq<Op>, ffs: seq<FeedForward>)
    ensures AllAkin(ops, ops) && SameUsed(ops, ffs, ops, ops, 0)
  {
  }

  /** Some of the feedforwards: at least those that can influence a run. */
  ghost predicate KeepsInfluence(ops: seq<Op>, ffs: seq<FeedForward>, kept: seq<FeedForward>) {
    && UniqueTargets(kept)
    && (forall ff | ff in kept :: ff in ffs)
    && (forall ff | ff in ffs && Influences(ops, ff) :: ff in kept)
  }

  lemma {:induction false} KeptWellFormed(ops: seq<Op>, ffs: seq<FeedForward>, kept: seq<FeedForward>)
    requires WellFormed(ops, ffs) && KeepsInfluence(ops, ffs, kept)
    ensures WellFormed(ops, kept) && SameInfluence(ops, ffs, kept)
  {
    forall n | 0 <= n < |kept| ensures WellFormedFF(ops, kept[n]) {
      assert kept[n] in kept;
      var m :| 0 <= m < |ffs| && ffs[m] == kept[n];
      assert WellFormedFF(ops, ffs[m]);
    }
  }

  /** On every kind of state, the feedforwards into gates with a matrix, and those that come too late for
      their targets, may as well be removed. */
  lemma {:induction false} OthersAreInert<Peak, Rng, Sample>(
    k: Kernel<Peak, Rng, Sample>, ops: seq<Op>, ffs: seq<FeedForward>, kept: seq<FeedForward>, peaks: seq<Peak>, rng: Rng)
    requires WellFormed(ops, ffs) && KeepsInfluence(ops, ffs, kept)
    ensures RunAlike(k, ffs, Exec(peaks, rng, ops, map[]), kept, Exec(peaks, rng, ops, map[]))
  {
    hide RunAlike, WellFormed, Influences;
    KeptWellFormed(ops, ffs, kept);
    NothingDiffers(ops, ffs);
    InfluenceDecides(k, ffs, ops, kept, ops, peaks, rng);
  }

  // ----- every other feedforward matters -----

  /** The operations have as many parameters as their constructors take. */
  predicate ArityKept(ops: seq<Op>) {
    forall j | 0 <= j < |ops| :: ArityOk(ops[j].kind, |ops[j].params|)
  }

  function Always(v: real): seq<real> -> real { (m: seq<real>) => v }

  /** Feedforward n computes v, whatever is measured. */
  function WithValue(ffs: seq<FeedForward>, n: nat, v: real): seq<FeedForward>
    requires n < |ffs|
  {
    ffs[n := ffs[n].(func := Always(v))]
  }

  function Without(ffs: seq<FeedForward>, n: nat): seq<FeedForward>
    requires n < |ffs|
  {
    ffs[..n] + ffs[n + 1..]
  }

  lemma {:induction false} WithValueWellFormed(ops: seq<Op>, ffs: seq<FeedForward>, n: nat, v: real)
    requires WellFormed(ops, ffs) && n < |ffs|
    ensures WellFormed(ops, WithValue(ffs, n, v))
    ensures Influences(ops, WithValue(ffs, n, v)[n]) <==> Influences(ops, ffs[n])
  {
    var r := WithValue(ffs, n, v);
    forall m | 0 <= m < |r| ensures WellFormedFF(ops, r[m]) {
      assert WellFormedFF(ops, ffs[m]);
    }
    forall l, m | 0 <= l < m < |r| ensures r[l].target != r[m].target {
      assert ffs[l].target != ffs[m].target;
    }
  }

  lemma {:induction false} WithoutKeeps(ops: seq<Op>, ffs: seq<FeedForward>, n: nat)
    requires WellFormed(ops, ffs) && n < |ffs|
    ensures WellFormed(ops, Without(ffs, n))
    ensures !Influences(ops, ffs[n]) ==> KeepsInfluence(ops, ffs, Without(ffs, n))
    ensures forall m | 0 <= m < |Without(ffs, n)| :: Without(ffs, n)[m].target != ffs[n].target
  {
    var r := Without(ffs, n);
    forall m | 0 <= m < |r| ensures WellFormedFF(ops, r[m]) && r[m] in ffs && r[m].target != ffs[n].target {
      var l := if m < n then m else m + 1;
      assert r[m] == ffs[l] && WellFormedFF(ops, ffs[l]);
    }
    forall l, m | 0 <= l < m < |r| ensures r[l].target != r[m].target {
      assert ffs[if l < n then l else l + 1].target != ffs[if m < n then m else m + 1].target;
    }
    forall ff | ff in ffs && ff != ffs[n] ensures ff in r {
      var l :| 0 <= l < |ffs| && ffs[l] == ff;
      assert ff == r[if l < n then l else l - 1];
    }
  }

  /** A parameter that feedforward n overwrites before operation i holds its value then. */
  lemma {:induction false} OverwrittenBefore<Peak, Rng, Sample>(
    k: Kernel<Peak, Rng, Sample>, ffs: seq<FeedForward>, s: Exec<Peak, Rng>, n: nat, v: real, i: nat)
    requires WellFormed(s.ops, ffs) && s.measured == map[] && i <= |s.ops| && n < |ffs|
    requires ffs[n].sources != [] && MaxSource(ffs[n].sources) < i && ffs[n].func == Always(v)
    ensures Run(k, ffs, s, 0, i).Some? && HasParam(Before(k, ffs, s, i).ops, ffs[n].target)
    ensures Param(Before(k, ffs, s, i).ops, ffs[n].target) == v && SameShapes(s.ops, Before(k, ffs, s, i).ops)
  {
    hide Run, Execute, WellFormed;
    RunsSettled(k, ffs, s, i);
  }

  /** A parameter that no feedforward writes before operation i is as it was. */
  lemma {:induction false} UntouchedBefore<Peak, Rng, Sample>(
    k: Kernel<Peak, Rng, Sample>, ffs: seq<FeedForward>, s: Exec<Peak, Rng>, t: ParamIdx, i: nat)
    requires WellFormed(s.ops, ffs) && s.measured == map[] && i <= |s.ops| && HasParam(s.ops, t)
    requires forall n | 0 <= n < |ffs| && ffs[n].target == t :: ffs[n].sources != [] && MaxSource(ffs[n].sources) >= i
    ensures Run(k, ffs, s, 0, i).Some? && HasParam(Before(k, ffs, s, i).ops, t)
    ensures Param(Before(k, ffs, s, i).ops, t) == Param(s.ops, t) && SameShapes(s.ops, Before(k, ffs, s, i).ops)
  {
    hide Run, Execute, WellFormed;
    RunsSettled(k, ffs, s, i);
    assert !WrittenBefore(ffs, t, i);
    ShapesKeepParams(s.ops, Before(k, ffs, s, i).ops, t);
  }

  /** Two runs of circuits of the same shape that reach an operation without a matrix with different parameters. */
  lemma {:induction false} ParamToldApart(
    ffs: seq<FeedForward>, s: Exec<History, ()>, ffs': seq<FeedForward>, u: Exec<History, ()>, t: ParamIdx)
    requires WellFormed(s.ops, ffs) && WellFormed(u.ops, ffs') && IsStart(s) && IsStart(u) && SameShapes(s.ops, u.ops)
    requires Used(s.ops, t, t.op) && ArityKept(s.ops)
    requires Run(HistoryKernel(), ffs, s, 0, t.op).Some? && Run(HistoryKernel(), ffs', u, 0, t.op).Some?
    requires var a, b := Before(HistoryKernel(), ffs, s, t.op).ops, Before(HistoryKernel(), ffs', u, t.op).ops;
      SameShapes(s.ops, a) && SameShapes(u.ops, b) && HasParam(a, t) && HasParam(b, t) && Param(a, t) != Param(b, t)
    ensures !RunAlike(HistoryKernel(), ffs, s, ffs', u)
  {
    hide Run, Execute, HistoryKernel, WellFormed, Record;
    var i := t.op;
    var a, b := Before(HistoryKernel(), ffs, s, i).ops[i], Before(HistoryKernel(), ffs', u, i).ops[i];
    assert s.ops[i].SameShape(a) && u.ops[i].SameShape(b) && s.ops[i].SameShape(u.ops[i]);
    RecordTellsParams(a, b);
    SameLengths(s.ops, u.ops, i);
    SameShapeLength(s.ops[i], u.ops[i]);
    ToldApart(ffs, s, ffs', u, i);
  }

  lemma {:induction false} SameLengths(a: seq<Op>, b: seq<Op>, i: nat)
    requires SameShapes(a, b) && i <= |a|
    ensures Length(a, i) == Length(b, i)
  {
    hide Record;
    if i > 0 {
      SameLengths(a, b, i - 1);
      SameShapeLength(a[i - 1], b[i - 1]);
    }
  }

  /** Removing feedforward n, when it computes v, changes nothing on a history. */
  ghost predicate Removable(ops: seq<Op>, ffs: seq<FeedForward>, n: nat, v: real)
    requires n < |ffs|
  {
    var s := Exec([[]], (), ops, map[]);
    RunAlike(HistoryKernel(), WithValue(ffs, n, v), s, Without(ffs, n), s)
  }

  /** A feedforward can influence a run exactly when it is not too late for its target and its target has
      no matrix: otherwise it can be removed whatever it computes, and if so there is a value, and a kind
      of state, for which it cannot. */
  lemma {:induction false} InfluenceExactly(ops: seq<Op>, ffs: seq<FeedForward>, n: nat)
    requires WellFormed(ops, ffs) && ArityKept(ops) && n < |ffs|
    ensures Influences(ops, ffs[n]) <==> exists v: real :: !Removable(ops, ffs, n, v)
  {
    if Influences(ops, ffs[n]) {
      assert WellFormedFF(ops, ffs[n]);
      var v := Param(ops, ffs[n].target) + 1.0;
      InfluenceShows(ops, ffs, n, v);
    } else {
      hide WellFormed, Influences, WithValue, Without, RunAlike;
      forall v ensures Removable(ops, ffs, n, v) {
        NotRemoved(ops, ffs, n, v);
      }
    }
  }

  lemma {:induction false} NotRemoved(ops: seq<Op>, ffs: seq<FeedForward>, n: nat, v: real)
    requires WellFormed(ops, ffs) && n < |ffs| && !Influences(ops, ffs[n])
    ensures Removable(ops, ffs, n, v)
  {
    hide WellFormed, Influences, RunAlike, HistoryKernel, KeepsInfluence;
    var r := WithValue(ffs, n, v);
    WithValueWellFormed(ops, ffs, n, v);
    WithoutKeeps(ops, r, n);
    assert Without(r, n) == Without(ffs, n);
    OthersAreInert(HistoryKernel(), ops, r, Without(ffs, n), [[]], ());
  }

  lemma {:induction false} InfluenceShows(ops: seq<Op>, ffs: seq<FeedForward>, n: nat, v: real)
    requires WellFormed(ops, ffs) && ArityKept(ops) && n < |ffs| && Influences(ops, ffs[n])
    requires HasParam(ops, ffs[n].target) && v != Param(ops, ffs[n].target)
    ensures !Removable(ops, ffs, n, v)
  {
    var t, r := ffs[n].target, WithValue(ffs, n, v);
    var s: Exec<History, ()> := Exec([[]], (), ops, map[]);
    assert Used(ops, t, t.op);
    hide WellFormed, RunAlike, HistoryKernel, KeepsInfluence, Used, ArityKept;
    WithValueWellFormed(ops, ffs, n, v);
    WithoutKeeps(ops, ffs, n);
    OverwrittenBefore(HistoryKernel(), r, s, n, v, t.op);
    UntouchedBefore(HistoryKernel(), Without(ffs, n), s, t, t.op);
    SameShapesReflexive(ops);
    ParamToldApart(r, s, Without(ffs, n), s, t);
  }

  lemma {:induction false} SameShapesReflexive(ops: seq<Op>)
    ensures SameShapes(ops, ops)
  {
  }
}
