/** A run with causal feedforward is the run, without any feedforward, of the circuit whose
    parameters are the ones left at the end. */
module Resolution {
  import opened Elementary
  import opened Operations
  import opened Engine
  import opened CircuitObject

  ghost function Final<Peak, Rng, Sample>(
    k: Kernel<Peak, Rng, Sample>, ffs: seq<FeedForward>, s: Exec<Peak, Rng>): Exec<Peak, Rng>
    requires Execute(k, ffs, s).Some?
  {
    Execute(k, ffs, s).value
  }

  /** The state before operation i. */
  ghost function Before<Peak, Rng, Sample>(
    k: Kernel<Peak, Rng, Sample>, ffs: seq<FeedForward>, s: Exec<Peak, Rng>, i: nat): Exec<Peak, Rng>
    requires Run(k, ffs, s, 0, i).Some?
  {
    Run(k, ffs, s, 0, i).value
  }

  lemma {:induction false} RunsSettled<Peak, Rng, Sample>(
    k: Kernel<Peak, Rng, Sample>, ffs: seq<FeedForward>, s: Exec<Peak, Rng>, i: nat)
    requires WellFormed(s.ops, ffs) && s.measured == map[] && i <= |s.ops|
    ensures Run(k, ffs, s, 0, i).Some? && Settled(s.ops, ffs, Before(k, ffs, s, i), i)
    ensures Execute(k, ffs, s).Some? && Settled(s.ops, ffs, Final(k, ffs, s), |s.ops|)
    ensures forall j | j in Before(k, ffs, s, i).measured ::
              j in Final(k, ffs, s).measured && Final(k, ffs, s).measured[j] == Before(k, ffs, s, i).measured[j]
  {
    StartSettled(ffs, s);
    RunSettled(k, s.ops, ffs, s, 0, i);
    RunSettled(k, s.ops, ffs, s, 0, |s.ops|);
    RunSplit(k, ffs, s, 0, i, |s.ops|);
    RunSettled(k, s.ops, ffs, Before(k, ffs, s, i), i, |s.ops|);
  }

  /** An operation is executed with the parameters it still has at the end. */
  lemma {:induction false} ExecutedWithFinal<Peak, Rng, Sample>(
    k: Kernel<Peak, Rng, Sample>, ffs: seq<FeedForward>, s: Exec<Peak, Rng>, i: nat)
    requires WellFormed(s.ops, ffs) && Causal(ffs) && s.measured == map[] && i < |s.ops|
    ensures Run(k, ffs, s, 0, i).Some? && Execute(k, ffs, s).Some?
    ensures SameShapes(s.ops, Before(k, ffs, s, i).ops) && SameShapes(s.ops, Final(k, ffs, s).ops)
    ensures Before(k, ffs, s, i).ops[i] == Final(k, ffs, s).ops[i]
  {
    RunsSettled(k, ffs, s, i);
    var e, fin := Before(k, ffs, s, i), Final(k, ffs, s);
    assert s.ops[i].SameShape(e.ops[i]) && s.ops[i].SameShape(fin.ops[i]);
    forall q | 0 <= q < |e.ops[i].params| ensures e.ops[i].params[q] == fin.ops[i].params[q] {
      SameValue(s.ops, ffs, e, fin, i, ParamIdx(i, q));
    }
    assert e.ops[i].params == fin.ops[i].params;
  }

  /** Operation i is executed as it is at the end of the run. */
  ghost predicate ExecutedAsFinal<Peak, Rng, Sample>(
    k: Kernel<Peak, Rng, Sample>, ffs: seq<FeedForward>, s: Exec<Peak, Rng>, i: nat)
  {
    && Run(k, ffs, s, 0, i).Some? && Execute(k, ffs, s).Some?
    && i < |Before(k, ffs, s, i).ops| && i < |Final(k, ffs, s).ops|
    && Before(k, ffs, s, i).ops[i] == Final(k, ffs, s).ops[i]
  }

  lemma {:induction false} AllExecutedAsFinal<Peak, Rng, Sample>(k: Kernel<Peak, Rng, Sample>, ffs: seq<FeedForward>, s: Exec<Peak, Rng>)
    requires WellFormed(s.ops, ffs) && Causal(ffs) && s.measured == map[]
    ensures forall i: nat | i < |s.ops| :: ExecutedAsFinal(k, ffs, s, i)
  {
    hide WellFormed, Causal, Run, Execute, Final, Before;
    forall i: nat | i < |s.ops| ensures ExecutedAsFinal(k, ffs, s, i) {
      ExecutedWithFinal(k, ffs, s, i);
    }
  }

  lemma {:induction false} SameValue<Peak, Rng>(
    ops0: seq<Op>, ffs: seq<FeedForward>, e: Exec<Peak, Rng>, fin: Exec<Peak, Rng>, i: nat, t: ParamIdx)
    requires Causal(ffs) && Settled(ops0, ffs, e, i) && Settled(ops0, ffs, fin, |ops0|)
    requires forall j | j in e.measured :: j in fin.measured && fin.measured[j] == e.measured[j]
    requires t.op == i < |ops0| && HasParam(ops0, t) && HasParam(e.ops, t) && HasParam(fin.ops, t)
    ensures Param(e.ops, t) == Param(fin.ops, t)
  {
    if n :| 0 <= n < |ffs| && ffs[n].sources != [] && MaxSource(ffs[n].sources) < i && ffs[n].target == t {
      ValuesAgree(ffs[n].sources, e.measured, fin.measured);
    } else {
      assert !WrittenBefore(ffs, t, i);
      assert !WrittenBefore(ffs, t, |ops0|);
    }
  }

  lemma {:induction false} NothingFires(ops: seq<Op>, i: nat, measured: map<nat, real>)
    ensures CanFire(ops, [], i, measured) && FireAll(ops, [], i, measured) == ops
  {
    var r := FireAll(ops, [], i, measured);
    forall t | HasParam(ops, t) && HasParam(r, t) ensures Param(ops, t) == Param(r, t) {
      assert forall n :: !Writes([], n, i, t);
    }
    SameParamsSameOps(ops, r);
  }

  /** Step by step, the run with feedforward has the peaks, the random engine and the measured values
      of the run without. */
  lemma {:induction false} Resolve<Peak, Rng, Sample>(
    k: Kernel<Peak, Rng, Sample>, ffs: seq<FeedForward>, s: Exec<Peak, Rng>, i: nat)
    requires WellFormed(s.ops, ffs) && Causal(ffs) && s.measured == map[] && i <= |s.ops|
    ensures Run(k, ffs, s, 0, i).Some? && Execute(k, ffs, s).Some?
    ensures Run(k, [], s.(ops := Final(k, ffs, s).ops), 0, i) == Some(Before(k, ffs, s, i).(ops := Final(k, ffs, s).ops))
  {
    RunsSettled(k, ffs, s, i);
    if i > 0 {
      Resolve(k, ffs, s, i - 1);
      ExecutedWithFinal(k, ffs, s, i - 1);
      var fin := Final(k, ffs, s).ops;
      var r := s.(ops := fin);
      RunOneMore(k, ffs, s, i - 1);
      RunOneMore(k, [], r, i - 1);
      StepWithout(k, ffs, Before(k, ffs, s, i - 1), fin, i - 1, Before(k, ffs, s, i));
    }
  }

  lemma {:induction false} StepWithout<Peak, Rng, Sample>(
    k: Kernel<Peak, Rng, Sample>, ffs: seq<FeedForward>, e: Exec<Peak, Rng>, fin: seq<Op>, i: nat, next: Exec<Peak, Rng>)
    requires Steps(k, ffs, e, i, next)
    requires i < |e.ops| && i < |fin| && e.ops[i] == fin[i]
    ensures Step(k, [], e.(ops := fin), i) == Some(next.(ops := fin))
  {
    if IsMeasurement(fin[i].kind) {
      NothingFires(fin, i, next.measured);
    }
  }

  /** The feedforward that writes t, when there is one. */
  ghost function Writer(ffs: seq<FeedForward>, t: ParamIdx): Option<FeedForward> {
    if n :| 0 <= n < |ffs| && ffs[n].target == t then Some(ffs[n]) else None
  }

  /** The feedforwards, applied to these measured values, turn ops into fin. */
  ghost predicate LeftBy(ops: seq<Op>, ffs: seq<FeedForward>, fin: seq<Op>, measured: map<nat, real>) {
    && SameShapes(ops, fin)
    && (forall n | 0 <= n < |ffs| ::
          Readable(ffs[n].sources, measured) && HasParam(fin, ffs[n].target)
          && Param(fin, ffs[n].target) == ffs[n].func(Values(ffs[n].sources, measured)))
    && (forall t | HasParam(ops, t) && HasParam(fin, t) && (forall n | 0 <= n < |ffs| :: ffs[n].target != t) ::
          Param(fin, t) == Param(ops, t))
  }

  /** At the end, the target of every feedforward holds its function's value on the measured values,
      every other parameter is as built, and exactly the measurements have values. */
  lemma {:induction false} FinalParameters<Peak, Rng, Sample>(
    k: Kernel<Peak, Rng, Sample>, ffs: seq<FeedForward>, s: Exec<Peak, Rng>)
    requires WellFormed(s.ops, ffs) && s.measured == map[]
    ensures Execute(k, ffs, s).Some? && SameShapes(s.ops, Final(k, ffs, s).ops)
    ensures forall j: nat :: j in Final(k, ffs, s).measured <==> j < |s.ops| && IsMeasurement(s.ops[j].kind)
    ensures LeftBy(s.ops, ffs, Final(k, ffs, s).ops, Final(k, ffs, s).measured)
  {
    hide Execute, Run, Step, Values;
    RunsSettled(k, ffs, s, |s.ops|);
    forall n | 0 <= n < |ffs| ensures ffs[n].sources != [] && MaxSource(ffs[n].sources) < |s.ops| {
      assert WellFormedFF(s.ops, ffs[n]);
    }
  }

  lemma {:induction false} ShapesKeepParams(a: seq<Op>, b: seq<Op>, t: ParamIdx)
    requires SameShapes(a, b)
    ensures HasParam(a, t) <==> HasParam(b, t)
  {
    if t.op < |a| {
      assert a[t.op].SameShape(b[t.op]);
    }
  }

  lemma {:induction false} LeftByShapes(ops: seq<Op>, ffs: seq<FeedForward>, fin: seq<Op>, measured: map<nat, real>)
    requires LeftBy(ops, ffs, fin, measured)
    ensures SameShapes(ops, fin)
  {
  }

  /** A parameter holds what its feedforward computed, or what it was built with. */
  lemma {:induction false} LeftByWriter(ops: seq<Op>, ffs: seq<FeedForward>, fin: seq<Op>, measured: map<nat, real>, t: ParamIdx)
    requires LeftBy(ops, ffs, fin, measured) && HasParam(ops, t) && HasParam(fin, t)
    ensures var w := Writer(ffs, t);
      if w.Some? then Readable(w.value.sources, measured) && Param(fin, t) == w.value.func(Values(w.value.sources, measured))
      else Param(fin, t) == Param(ops, t)
  {
    hide SameShapes;
    if n :| 0 <= n < |ffs| && ffs[n].target == t {
    } else {
      assert forall n | 0 <= n < |ffs| :: ffs[n].target != t;
    }
  }

  lemma {:induction false} SameLength(a: seq<Op>, b: seq<Op>)
    requires SameShapes(a, b)
    ensures |a| == |b|
  {
  }
}
