/** The simulator object: executes circuits and stores, per shot, the measured values. */
module SimulatorObject {
  import opened Elementary
  import opened Operations
  import opened Engine
  import opened CircuitObject

  datatype ShotResult<Peak, Rng> = ShotResult(state: Option<(seq<Peak>, Rng)>, measured: map<nat, real>)

  /** The part of a `State` object that a shot changes. */
  class SimState<Peak, Rng> {
    var peaks: seq<Peak>
    var rng: Rng
    var shot: nat

    constructor (peaks: seq<Peak>, rng: Rng, shot: nat)
      ensures this.peaks == peaks && this.rng == rng && this.shot == shot
    {
      this.peaks, this.rng, this.shot := peaks, rng, shot;
    }

    /** Applies a gate to every peak. */
    method Apply<Sample>(k: Kernel<Peak, Rng, Sample>, kind: Kind, modes: seq<nat>, params: seq<real>)
      modifies `peaks
      ensures peaks == ApplyToAll(k, kind, modes, params, old(peaks))
    {
      for m := 0 to |peaks|
        invariant |peaks| == |old(peaks)|
        invariant forall l | 0 <= l < |peaks| ::
                    peaks[l] == if l < m then k.apply(kind, modes, params, old(peaks)[l]) else old(peaks)[l]
      {
        peaks := peaks[m := k.apply(kind, modes, params, peaks[m])];
      }
    }

    /** Measures: rotates, samples, post-selects every peak. */
    method Measure<Sample>(k: Kernel<Peak, Rng, Sample>, op: Op) returns (measured: real)
      requires op.kind == HomodyneSingleMode ==> op.params != []
      modifies `peaks, `rng
      ensures
        var rotated := Rotated(k, op, old(peaks));
        var (sample, next) := k.sample(Mode(op), op.Selection(), rotated, old(rng));
        measured == k.value(sample) && rng == next && peaks == SelectAll(k, Mode(op), sample, rotated)
    {
      if op.kind == HomodyneSingleMode {
        Apply(k, PhaseRotation, [Mode(op)], [op.params[0] - k.halfPi]);
      }
      var rotated := peaks;
      var (sample, next) := k.sample(Mode(op), op.Selection(), peaks, rng);
      rng := next;
      for m := 0 to |peaks|
        invariant |peaks| == |rotated| && rng == next
        invariant forall l | 0 <= l < |peaks| ::
                    peaks[l] == if l < m then k.select(Mode(op), sample, l, rotated[l]) else rotated[l]
      {
        peaks := peaks[m := k.select(Mode(op), sample, m, peaks[m])];
      }
      measured := k.value(sample);
    }
  }

  /** The angle of every angle-resolved measurement is there. */
  ghost predicate AnglesPresent(ops: seq<Op>) {
    forall j | 0 <= j < |ops| && ops[j].kind == HomodyneSingleMode :: ops[j].params != []
  }

  class Simulator<Peak, Rng> {
    var results: seq<ShotResult<Peak, Rng>>

    constructor (nShots: nat)
      ensures results == seq(nShots, _ => ShotResult(None, map[]))
    {
      results := seq(nShots, _ => ShotResult(None, map[]));
    }

    ghost function Before(state: SimState<Peak, Rng>, circuit: Circuit): Exec<Peak, Rng>
      requires state.shot < |results|
      reads this, state, circuit
    {
      Exec(state.peaks, state.rng, circuit.operations, results[state.shot].measured)
    }

    /** Only the measured values of one shot differ. */
    ghost predicate OnlyMeasured(before: seq<ShotResult<Peak, Rng>>, shot: nat)
      reads this
    {
      && |results| == |before|
      && (forall l | 0 <= l < |results| && l != shot :: results[l] == before[l])
      && (shot < |results| ==> results[shot].state == before[shot].state)
    }

    method ExecuteOperation<Sample>(
      k: Kernel<Peak, Rng, Sample>, state: SimState<Peak, Rng>, i: nat, circuit: Circuit) returns (ok: bool)
      requires circuit.Valid() && circuit.TargetsExist() && AnglesPresent(circuit.operations)
      requires i < |circuit.operations| && state.shot < |results|
      modifies `results, state`peaks, state`rng, circuit`operations
      ensures circuit.Valid() && SameShapes(old(circuit.operations), circuit.operations)
      ensures OnlyMeasured(old(results), state.shot)
      ensures Step(k, circuit.ffList, old(Before(state, circuit)), i) == if ok then Some(Before(state, circuit)) else None
    {
      var op := circuit.operations[i];
      if !IsMeasurement(op.kind) {
        state.Apply(k, op.kind, op.modes, op.Effective());
        ok := true;
      } else {
        var value := state.Measure(k, op);
        var shot := state.shot;
        results := results[shot := results[shot].(measured := results[shot].measured[i := value])];
        ok := circuit.ApplyAllFF(i, results[shot].measured);
      }
    }

    method Execute<Sample>(k: Kernel<Peak, Rng, Sample>, state: SimState<Peak, Rng>, circuit: Circuit) returns (ok: bool)
      requires circuit.Valid() && circuit.TargetsExist() && AnglesPresent(circuit.operations)
      requires state.shot < |results|
      modifies `results, state`peaks, state`rng, circuit`operations
      ensures circuit.Valid() && SameShapes(old(circuit.operations), circuit.operations)
      ensures OnlyMeasured(old(results), state.shot)
      ensures Engine.Execute(k, circuit.ffList, old(Before(state, circuit))) == if ok then Some(Before(state, circuit)) else None
    {
      ghost var start, ffs, ops := Before(state, circuit), circuit.ffList, circuit.operations;
      for i := 0 to |circuit.operations|
        invariant circuit.Valid() && circuit.ffList == ffs && SameShapes(ops, circuit.operations)
        invariant OnlyMeasured(old(results), state.shot)
        invariant Run(k, ffs, start, 0, |ops|) == Run(k, ffs, Before(state, circuit), i, |ops|)
      {
        ghost var ops1 := circuit.operations;
        SameShapeAngles(ops, ops1);
        ok := ExecuteOperation(k, state, i, circuit);
        SameShapesTransitive(ops, ops1, circuit.operations);
        if !ok {
          return;
        }
      }
      ok := true;
    }
  }

  lemma {:induction false} SameShapeAngles(a: seq<Op>, b: seq<Op>)
    requires SameShapes(a, b) && AnglesPresent(a)
    ensures AnglesPresent(b)
  {
    forall j | 0 <= j < |b| && b[j].kind == HomodyneSingleMode ensures b[j].params != [] {
      assert a[j].SameShape(b[j]);
    }
  }
}
