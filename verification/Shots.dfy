/** Many shots on one mutable circuit, which keeps the parameters of the previous shot. */
module Shots {
  import opened Elementary
  import opened Operations
  import opened Engine
  import opened CircuitObject
  import opened SimulatorObject
  import opened Reuse
  import Influence
  import Resolution

  datatype StateSaveMethod = NoState | FirstOnly | AllStates

  datatype Settings<!Rng> = Settings(nShots: nat, seed: nat, save: StateSaveMethod, seeded: nat -> Rng)
  {
    predicate Saves(shot: nat) {
      save == AllStates || (save == FirstOnly && shot == 0)
    }

    /** The random engine of a shot, seeded with the 64-bit sum of seed and shot. */
    function RngOf(shot: nat): Rng {
      seeded((seed + shot) % SEEDS)
    }
  }

  // ----- seeds -----

  const SEEDS: nat := 0x1_0000_0000_0000_0000

  /** Different 64-bit seeds give different engines. */
  ghost predicate TellsSeeds<Rng(!new)>(seeded: nat -> Rng) {
    forall a, b | 0 <= a < SEEDS && 0 <= b < SEEDS && a != b :: seeded(a) != seeded(b)
  }

  /** Shot 0 has the engine of the seed itself, and any other shot has the engine that shot 0 has with the
      seed increased by the number of the shot. */
  lemma {:induction false} ShotIsSeed<Rng>(settings: Settings<Rng>, shot: nat)
    ensures settings.seed < SEEDS ==> settings.RngOf(0) == settings.seeded(settings.seed)
    ensures settings.RngOf(shot) == settings.(seed := settings.seed + shot).RngOf(0)
  {
  }

  /** Two shots of a simulation have the same engine only if they are a multiple of 2^64 apart. */
  lemma {:induction false} DistinctEngines<Rng(!new)>(settings: Settings<Rng>, shot: nat, other: nat)
    requires TellsSeeds(settings.seeded)
    ensures settings.RngOf(shot) == settings.RngOf(other) <==> (shot - other) % SEEDS == 0
  {
    var a, b := (settings.seed + shot) % SEEDS, (settings.seed + other) % SEEDS;
    assert a != b ==> settings.seeded(a) != settings.seeded(b);
  }

  /** The result of one shot on a circuit as built. */
  ghost function ShotOutcome<Peak, Rng, Sample>(
    k: Kernel<Peak, Rng, Sample>, ffs: seq<FeedForward>, ops: seq<Op>, peaks: seq<Peak>, settings: Settings<Rng>, shot: nat)
    : ShotResult<Peak, Rng>
  {
    match Execute(k, ffs, Start(ops, peaks, settings.RngOf(shot)))
    case None => ShotResult(None, map[])
    case Some(e) => ShotResult(if settings.Saves(shot) then Some((e.peaks, e.rng)) else None, e.measured)
  }

  /** The operations a shot leaves behind. */
  ghost function LeftByShot<Peak, Rng, Sample>(
    k: Kernel<Peak, Rng, Sample>, ffs: seq<FeedForward>, ops: seq<Op>, peaks: seq<Peak>, settings: Settings<Rng>, shot: nat): seq<Op>
  {
    match Execute(k, ffs, Start(ops, peaks, settings.RngOf(shot)))
    case None => ops
    case Some(e) => e.ops
  }

  lemma {:induction false} ShotRuns<Peak, Rng, Sample>(
    k: Kernel<Peak, Rng, Sample>, ffs: seq<FeedForward>, ops: seq<Op>, peaks: seq<Peak>, settings: Settings<Rng>, shot: nat)
    requires WellFormed(ops, ffs)
    ensures Execute(k, ffs, Start(ops, peaks, settings.RngOf(shot))).Some?
    ensures SameShapes(ops, LeftByShot(k, ffs, ops, peaks, settings, shot))
    ensures forall n | 0 <= n < |ffs| :: ffs[n].target.op < |ops|
  {
    hide Execute;
    Resolution.FinalParameters(k, ffs, Start(ops, peaks, settings.RngOf(shot)));
    forall n | 0 <= n < |ffs| ensures ffs[n].target.op < |ops| {
      assert WellFormedFF(ops, ffs[n]);
    }
  }

  /** One shot on the given circuit object. */
  method RunShot<Peak, Rng, Sample>(
    k: Kernel<Peak, Rng, Sample>, circuit: Circuit, peaks: seq<Peak>, settings: Settings<Rng>, shot: nat,
    simulator: Simulator<Peak, Rng>)
    requires circuit.Valid() && WellFormed(circuit.operations, circuit.ffList) && AnglesPresent(circuit.operations)
    requires shot < |simulator.results| && simulator.results[shot] == ShotResult(None, map[])
    modifies simulator`results, circuit`operations
    ensures circuit.Valid()
    ensures circuit.operations == LeftByShot(k, circuit.ffList, old(circuit.operations), peaks, settings, shot)
    ensures simulator.results ==
              old(simulator.results)[shot := ShotOutcome(k, circuit.ffList, old(circuit.operations), peaks, settings, shot)]
  {
    hide WellFormed, AnglesPresent, Run;
    ghost var ops, before := circuit.operations, simulator.results;
    var state := new SimState(peaks, settings.RngOf(shot), shot);
    ShotRuns(k, circuit.ffList, ops, peaks, settings, shot);
    var ok := simulator.Execute(k, state, circuit);
    if settings.Saves(shot) {
      simulator.results := simulator.results[shot := simulator.results[shot].(state := Some((state.peaks, state.rng)))];
    }
    assert simulator.results[shot] == ShotOutcome(k, circuit.ffList, ops, peaks, settings, shot);
    assert simulator.results == before[shot := simulator.results[shot]];
  }

  /** The operations of the one circuit before a shot. */
  ghost function OpsBeforeShot<Peak, Rng, Sample>(
    k: Kernel<Peak, Rng, Sample>, ffs: seq<FeedForward>, ops: seq<Op>, peaks: seq<Peak>, settings: Settings<Rng>, shot: nat): seq<Op>
  {
    if shot == 0 then ops
    else LeftByShot(k, ffs, OpsBeforeShot(k, ffs, ops, peaks, settings, shot - 1), peaks, settings, shot - 1)
  }

  lemma {:induction false} ShapesBeforeShot<Peak, Rng, Sample>(
    k: Kernel<Peak, Rng, Sample>, ffs: seq<FeedForward>, ops: seq<Op>, peaks: seq<Peak>, settings: Settings<Rng>, shot: nat)
    requires WellFormed(ops, ffs) && AnglesPresent(ops)
    ensures var now := OpsBeforeShot(k, ffs, ops, peaks, settings, shot);
      SameShapes(ops, now) && WellFormed(now, ffs) && AnglesPresent(now)
  {
    hide WellFormed, AnglesPresent, SameShapes, LeftByShot;
    var now := OpsBeforeShot(k, ffs, ops, peaks, settings, shot);
    if shot == 0 {
      Influence.SameShapesReflexive(ops);
    } else {
      ShapesBeforeShot(k, ffs, ops, peaks, settings, shot - 1);
      var before := OpsBeforeShot(k, ffs, ops, peaks, settings, shot - 1);
      ShotRuns(k, ffs, before, peaks, settings, shot - 1);
      SameShapesTransitive(ops, before, now);
    }
    WellFormedShapes(ops, now, ffs);
    SameShapeAngles(ops, now);
  }

  /** The slot of a shot on the one circuit. */
  ghost function ReusedOutcome<Peak, Rng, Sample>(
    k: Kernel<Peak, Rng, Sample>, ffs: seq<FeedForward>, ops: seq<Op>, peaks: seq<Peak>, settings: Settings<Rng>, shot: nat)
    : ShotResult<Peak, Rng>
  {
    ShotOutcome(k, ffs, OpsBeforeShot(k, ffs, ops, peaks, settings, shot), peaks, settings, shot)
  }

  /** On a harmless circuit a shot finds only leftovers in the parameters, and they have no effect. */
  lemma {:induction false} ReusedShot<Peak, Rng, Sample>(
    k: Kernel<Peak, Rng, Sample>, ffs: seq<FeedForward>, ops: seq<Op>, peaks: seq<Peak>, settings: Settings<Rng>, shot: nat)
    requires WellFormed(ops, ffs) && Harmless(ops, ffs)
    ensures Stale(ops, OpsBeforeShot(k, ffs, ops, peaks, settings, shot), ffs)
    ensures ReusedOutcome(k, ffs, ops, peaks, settings, shot) == ShotOutcome(k, ffs, ops, peaks, settings, shot)
  {
    hide WellFormed, Harmless, Stale, Execute;
    if shot == 0 {
      AsBuilt(ops, ffs);
    } else {
      ReusedShot(k, ffs, ops, peaks, settings, shot - 1);
      StaleExecute(k, ffs, ops, OpsBeforeShot(k, ffs, ops, peaks, settings, shot - 1), peaks, settings.RngOf(shot - 1));
    }
    StaleExecute(k, ffs, ops, OpsBeforeShot(k, ffs, ops, peaks, settings, shot), peaks, settings.RngOf(shot));
  }

  /** Which shots keep their state: all, only the first, or none. */
  lemma {:induction false} StatesKept<Peak, Rng, Sample>(
    k: Kernel<Peak, Rng, Sample>, ffs: seq<FeedForward>, ops: seq<Op>, peaks: seq<Peak>, settings: Settings<Rng>, shot: nat)
    requires WellFormed(ops, ffs)
    ensures ShotOutcome(k, ffs, ops, peaks, settings, shot).state.Some? <==>
            settings.save != NoState && (settings.save == FirstOnly ==> shot == 0)
  {
    hide Execute, WellFormed;
    ShotRuns(k, ffs, ops, peaks, settings, shot);
  }

  /** What a shot measures is what shot 0 of a simulation measures whose seed is larger by its number. */
  lemma {:induction false} MeasuresBySeed<Peak, Rng, Sample>(
    k: Kernel<Peak, Rng, Sample>, ffs: seq<FeedForward>, ops: seq<Op>, peaks: seq<Peak>, settings: Settings<Rng>, shot: nat)
    ensures ShotOutcome(k, ffs, ops, peaks, settings, shot).measured
            == ShotOutcome(k, ffs, ops, peaks, settings.(seed := settings.seed + shot), 0).measured
  {
    hide Execute;
    ShotIsSeed(settings, shot);
  }

  lemma {:induction false} AllBySeed<Peak, Rng, Sample>(
    k: Kernel<Peak, Rng, Sample>, ffs: seq<FeedForward>, ops: seq<Op>, peaks: seq<Peak>, settings: Settings<Rng>)
    ensures forall shot: nat ::
              ShotOutcome(k, ffs, ops, peaks, settings, shot).measured
              == ShotOutcome(k, ffs, ops, peaks, settings.(seed := settings.seed + shot), 0).measured
  {
    hide ShotOutcome;
    forall shot: nat
      ensures ShotOutcome(k, ffs, ops, peaks, settings, shot).measured
              == ShotOutcome(k, ffs, ops, peaks, settings.(seed := settings.seed + shot), 0).measured
    {
      MeasuresBySeed(k, ffs, ops, peaks, settings, shot);
    }
  }

  lemma {:induction false} AsBuilt(ops: seq<Op>, ffs: seq<FeedForward>)
    ensures Stale(ops, ops, ffs)
  {
  }

  /** All shots on one circuit object. */
  method SimulateSingleThread<Peak, Rng, Sample>(
    k: Kernel<Peak, Rng, Sample>, circuit: Circuit, peaks: seq<Peak>, settings: Settings<Rng>)
    returns (simulator: Simulator<Peak, Rng>)
    requires circuit.Valid() && WellFormed(circuit.operations, circuit.ffList) && AnglesPresent(circuit.operations)
    modifies circuit`operations
    ensures fresh(simulator) && |simulator.results| == settings.nShots
    ensures forall shot | 0 <= shot < settings.nShots ::
              simulator.results[shot] == ReusedOutcome(k, circuit.ffList, old(circuit.operations), peaks, settings, shot)
    ensures Harmless(old(circuit.operations), circuit.ffList) ==>
              forall shot | 0 <= shot < settings.nShots ::
                && simulator.results[shot] == ShotOutcome(k, circuit.ffList, old(circuit.operations), peaks, settings, shot)
                && simulator.results[shot].measured
                   == ShotOutcome(k, circuit.ffList, old(circuit.operations), peaks, settings.(seed := settings.seed + shot), 0).measured
  {
    hide WellFormed, Harmless, AnglesPresent, ShotOutcome, LeftByShot, OpsBeforeShot, ReusedOutcome, Circuit.Valid;
    ghost var ops, ffs := circuit.operations, circuit.ffList;
    FirstShot(k, ffs, ops, peaks, settings);
    simulator := new Simulator(settings.nShots);
    for shot := 0 to settings.nShots
      invariant circuit.Valid() && circuit.ffList == ffs
      invariant circuit.operations == OpsBeforeShot(k, ffs, ops, peaks, settings, shot)
      invariant |simulator.results| == settings.nShots
      invariant forall l | 0 <= l < shot :: simulator.results[l] == ReusedOutcome(k, ffs, ops, peaks, settings, l)
      invariant forall l | shot <= l < settings.nShots :: simulator.results[l] == ShotResult(None, map[])
    {
      ShapesBeforeShot(k, ffs, ops, peaks, settings, shot);
      RunShot(k, circuit, peaks, settings, shot, simulator);
      NextShot(k, ffs, ops, peaks, settings, shot);
    }
    if Harmless(ops, ffs) {
      forall shot | 0 <= shot < settings.nShots
        ensures simulator.results[shot] == ShotOutcome(k, ffs, ops, peaks, settings, shot)
        ensures simulator.results[shot].measured == ShotOutcome(k, ffs, ops, peaks, settings.(seed := settings.seed + shot), 0).measured
      {
        ReusedShot(k, ffs, ops, peaks, settings, shot);
        MeasuresBySeed(k, ffs, ops, peaks, settings, shot);
      }
    }
  }

  lemma {:induction false} FirstShot<Peak, Rng, Sample>(
    k: Kernel<Peak, Rng, Sample>, ffs: seq<FeedForward>, ops: seq<Op>, peaks: seq<Peak>, settings: Settings<Rng>)
    ensures OpsBeforeShot(k, ffs, ops, peaks, settings, 0) == ops
  {
  }

  lemma {:induction false} NextShot<Peak, Rng, Sample>(
    k: Kernel<Peak, Rng, Sample>, ffs: seq<FeedForward>, ops: seq<Op>, peaks: seq<Peak>, settings: Settings<Rng>, shot: nat)
    ensures var now := OpsBeforeShot(k, ffs, ops, peaks, settings, shot);
      && OpsBeforeShot(k, ffs, ops, peaks, settings, shot + 1) == LeftByShot(k, ffs, now, peaks, settings, shot)
      && ReusedOutcome(k, ffs, ops, peaks, settings, shot) == ShotOutcome(k, ffs, now, peaks, settings, shot)
  {
    hide LeftByShot, ShotOutcome;
  }
}
