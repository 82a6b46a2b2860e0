/** How the random engine of a shot is passed on from measurement to measurement. */
module EngineDraws {
  import opened Elementary
  import opened Operations
  import opened Engine
  import opened Resolution

  /** A measurement without selection draws once from the engine, one with a selection does not. */
  ghost predicate DrawsOnce<Peak(!new), Rng(!new), Sample>(k: Kernel<Peak, Rng, Sample>, next: Rng -> Rng) {
    forall mode, sel, peaks, rng :: k.sample(mode, sel, peaks, rng).1 == if sel == None then next(rng) else rng
  }

  /** The measurements without selection before operation i. */
  function Draws(ops: seq<Op>, i: nat): nat
    requires i <= |ops|
  {
    if i == 0 then 0
    else Draws(ops, i - 1) + if IsMeasurement(ops[i - 1].kind) && ops[i - 1].Selection() == None then 1 else 0
  }

  /** The engine after n draws. */
  function After<Rng>(next: Rng -> Rng, n: nat, rng: Rng): Rng {
    if n == 0 then rng else next(After(next, n - 1, rng))
  }

  lemma {:induction false} StepDraws<Peak(!new), Rng(!new), Sample>(
    k: Kernel<Peak, Rng, Sample>, ffs: seq<FeedForward>, e: Exec<Peak, Rng>, i: nat, e': Exec<Peak, Rng>, next: Rng -> Rng)
    requires DrawsOnce(k, next) && Steps(k, ffs, e, i, e') && i < |e.ops|
    ensures e'.rng == if IsMeasurement(e.ops[i].kind) && e.ops[i].Selection() == None then next(e.rng) else e.rng
  {
    hide FireAll, CanFire;
  }

  lemma {:induction false} SameSelection(a: seq<Op>, b: seq<Op>, i: nat)
    requires SameShapes(a, b) && i < |a|
    ensures i < |b| && a[i].kind == b[i].kind && (a[i].Selection() == None <==> b[i].Selection() == None)
  {
    assert a[i].SameShape(b[i]);
  }

  /** In every run the engine before operation i is the initial one after as many draws as there were measurements
      without selection: each goes on where the last one stopped. */
  lemma {:induction false} EngineIsPassedOn<Peak(!new), Rng(!new), Sample>(
    k: Kernel<Peak, Rng, Sample>, ffs: seq<FeedForward>, s: Exec<Peak, Rng>, i: nat, next: Rng -> Rng)
    requires DrawsOnce(k, next) && WellFormed(s.ops, ffs) && s.measured == map[] && i <= |s.ops|
    ensures Run(k, ffs, s, 0, i).Some? && Before(k, ffs, s, i).rng == After(next, Draws(s.ops, i), s.rng)
    decreases i
  {
    hide *;
    RunsSettled(k, ffs, s, i);
    if i == 0 {
      AtStart(k, ffs, s, next);
    } else {
      EngineIsPassedOn(k, ffs, s, i - 1, next);
      RunsSettled(k, ffs, s, i - 1);
      RunOneMore(k, ffs, s, i - 1);
      var e := Before(k, ffs, s, i - 1);
      ShapesBefore(s.ops, ffs, e, i - 1);
      SameSelection(s.ops, e.ops, i - 1);
      FromStep(k, ffs, s, i - 1);
      StepDraws(k, ffs, e, i - 1, Before(k, ffs, s, i), next);
      OneMore(s.ops, i, next, s.rng);
    }
  }

  lemma {:induction false} FromStep<Peak, Rng, Sample>(k: Kernel<Peak, Rng, Sample>, ffs: seq<FeedForward>, s: Exec<Peak, Rng>, i: nat)
    requires Run(k, ffs, s, 0, i).Some? && Run(k, ffs, s, 0, i + 1).Some?
    requires Steps(k, ffs, Run(k, ffs, s, 0, i).value, i, Run(k, ffs, s, 0, i + 1).value)
    ensures Steps(k, ffs, Before(k, ffs, s, i), i, Before(k, ffs, s, i + 1))
  {
    hide Run, Steps;
  }

  lemma {:induction false} OneMore<Rng>(ops: seq<Op>, i: nat, next: Rng -> Rng, rng: Rng)
    requires 0 < i <= |ops|
    ensures var before := After(next, Draws(ops, i - 1), rng);
      After(next, Draws(ops, i), rng)
      == if IsMeasurement(ops[i - 1].kind) && ops[i - 1].Selection() == None then next(before) else before
  {
  }

  lemma {:induction false} AtStart<Peak, Rng, Sample>(
    k: Kernel<Peak, Rng, Sample>, ffs: seq<FeedForward>, s: Exec<Peak, Rng>, next: Rng -> Rng)
    ensures Run(k, ffs, s, 0, 0).Some? && Before(k, ffs, s, 0).rng == After(next, Draws(s.ops, 0), s.rng)
  {
  }

  lemma {:induction false} ShapesBefore<Peak, Rng>(ops: seq<Op>, ffs: seq<FeedForward>, e: Exec<Peak, Rng>, i: nat)
    requires Settled(ops, ffs, e, i)
    ensures SameShapes(ops, e.ops)
  {
  }
}
