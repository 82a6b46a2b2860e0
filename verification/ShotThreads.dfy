/** The shot-level backend: threads that run shots at the same time, every shot on a copy of the circuit. */
module ShotThreads {
  import opened Elementary
  import opened Operations
  import opened Engine
  import opened CircuitObject
  import opened SimulatorObject
  import opened Reuse
  import opened Shots
  import opened ThreadChunks
  import opened Resolution

  /** What a thread is doing: the state and the copy of the circuit of its current shot, before operation pos. */
  datatype Job<!Peak, !Rng> = Idle | Busy(state: SimState<Peak, Rng>, circuit: Circuit, pos: nat)

  /** e is the state of the shot before operation pos. */
  ghost predicate Reached<Peak, Rng, Sample>(
    k: Kernel<Peak, Rng, Sample>, ffs: seq<FeedForward>, ops: seq<Op>, peaks: seq<Peak>, settings: Settings<Rng>,
    shot: nat, pos: nat, e: Exec<Peak, Rng>)
  {
    pos <= |ops| && Run(k, ffs, Start(ops, peaks, settings.RngOf(shot)), 0, pos) == Some(e)
  }

  /** The job has run its shot up to operation pos. */
  ghost predicate Working<Peak, Rng, Sample>(
    k: Kernel<Peak, Rng, Sample>, ffs: seq<FeedForward>, ops: seq<Op>, peaks: seq<Peak>, settings: Settings<Rng>,
    simulator: Simulator<Peak, Rng>, job: Job<Peak, Rng>, shot: nat)
    requires job.Busy?
    reads simulator, job.state, job.circuit
  {
    && shot < |simulator.results| && job.state.shot == shot && simulator.results[shot].state == None
    && job.circuit.Valid() && job.circuit.ffList == ffs
    && Reached(k, ffs, ops, peaks, settings, shot, job.pos, simulator.Before(job.state, job.circuit))
  }

  method StartShot<Peak, Rng, Sample>(
    f: Functions, k: Kernel<Peak, Rng, Sample>, circuit: Circuit, peaks: seq<Peak>, settings: Settings<Rng>, shot: nat,
    simulator: Simulator<Peak, Rng>)
    returns (job: Job<Peak, Rng>, ok: bool)
    requires circuit.Valid() && shot < |simulator.results| && simulator.results[shot] == ShotResult(None, map[])
    ensures ok == AllConstructible(f, circuit.operations)
    ensures ok ==> job.Busy? && job.pos == 0 && fresh(job.state) && fresh(job.circuit)
    ensures ok ==> Working(k, circuit.ffList, CopiedOps(circuit.operations), peaks, settings, simulator, job, shot)
  {
    job := Idle;
    var copy;
    copy, ok := circuit.Copy(f);
    if ok {
      var state := new SimState(peaks, settings.RngOf(shot), shot);
      job := Busy(state, copy, 0);
    }
  }

  /** One operation of one shot; the slots of all other shots are left alone. */
  method StepShot<Peak, Rng, Sample>(
    k: Kernel<Peak, Rng, Sample>, ghost ops: seq<Op>, ghost peaks: seq<Peak>, ghost settings: Settings<Rng>,
    simulator: Simulator<Peak, Rng>, job: Job<Peak, Rng>, shot: nat)
    returns (next: Job<Peak, Rng>)
    requires job.Busy? && WellFormed(ops, job.circuit.ffList) && AnglesPresent(ops) && job.pos < |ops|
    requires Working(k, job.circuit.ffList, ops, peaks, settings, simulator, job, shot)
    modifies simulator`results, job.state`peaks, job.state`rng, job.circuit`operations
    ensures next == job.(pos := job.pos + 1)
    ensures Working(k, job.circuit.ffList, ops, peaks, settings, simulator, next, shot)
    ensures |simulator.results| == |old(simulator.results)|
    ensures forall l | 0 <= l < |simulator.results| && l != shot :: simulator.results[l] == old(simulator.results)[l]
  {
    hide Circuit.Valid, WellFormed, AnglesPresent, Run, Step;
    ghost var ffs, start, before := job.circuit.ffList, Start(ops, peaks, settings.RngOf(shot)), simulator.Before(job.state, job.circuit);
    RunOneMore(k, ffs, start, job.pos);
    Reachable(ops, before.ops, ffs);
    var ok := simulator.ExecuteOperation(k, job.state, job.pos, job.circuit);
    next := job.(pos := job.pos + 1);
    assert Steps(k, ffs, before, job.pos, Run(k, ffs, start, 0, job.pos + 1).value);
  }

  lemma {:induction false} Reachable(ops: seq<Op>, now: seq<Op>, ffs: seq<FeedForward>)
    requires WellFormed(ops, ffs) && AnglesPresent(ops) && SameShapes(ops, now)
    ensures AnglesPresent(now) && forall n | 0 <= n < |ffs| :: ffs[n].target.op < |now|
  {
    SameShapeAngles(ops, now);
    forall n | 0 <= n < |ffs| ensures ffs[n].target.op < |now| {
      assert WellFormedFF(ops, ffs[n]);
    }
  }

  method FinishShot<Peak, Rng, Sample>(
    k: Kernel<Peak, Rng, Sample>, ghost ops: seq<Op>, ghost peaks: seq<Peak>, settings: Settings<Rng>,
    simulator: Simulator<Peak, Rng>, job: Job<Peak, Rng>, shot: nat)
    requires job.Busy? && job.pos == |ops|
    requires Working(k, job.circuit.ffList, ops, peaks, settings, simulator, job, shot)
    modifies simulator`results
    ensures simulator.results ==
              old(simulator.results)[shot := ShotOutcome(k, job.circuit.ffList, ops, peaks, settings, shot)]
  {
    hide Circuit.Valid, Run;
    ghost var before := simulator.results;
    if settings.Saves(shot) {
      simulator.results := simulator.results[shot := simulator.results[shot].(state := Some((job.state.peaks, job.state.rng)))];
    }
    assert simulator.results[shot] == ShotOutcome(k, job.circuit.ffList, ops, peaks, settings, shot);
    assert simulator.results == before[shot := simulator.results[shot]];
  }

  // ----- all threads -----

  /** Thread t has finished the shots of its range before next[t] and not started those after. */
  ghost predicate Slots<Peak, Rng>(
    bounds: seq<(nat, nat)>, next: seq<nat>, jobs: seq<Job<Peak, Rng>>, results: seq<ShotResult<Peak, Rng>>, outcome: nat -> ShotResult<Peak, Rng>)
  {
    && |next| == |jobs| == |bounds|
    && (forall t | 0 <= t < |bounds| :: bounds[t].0 <= next[t] <= bounds[t].1 <= |results|)
    && (forall t | 0 <= t < |bounds| && jobs[t].Busy? :: next[t] < bounds[t].1)
    && (forall t, l | 0 <= t < |bounds| && bounds[t].0 <= l < next[t] :: results[l] == outcome(l))
    && (forall t, l | 0 <= t < |bounds| && next[t] <= l < bounds[t].1 && (jobs[t].Idle? || next[t] < l) ::
          results[l] == ShotResult(None, map[]))
  }

  ghost predicate Apart(bounds: seq<(nat, nat)>) {
    forall t, u | 0 <= t < u < |bounds| :: bounds[t].1 <= bounds[u].0
  }

  lemma {:induction false} SlotsStart<Peak, Rng>(
    bounds: seq<(nat, nat)>, next: seq<nat>, jobs: seq<Job<Peak, Rng>>, results: seq<ShotResult<Peak, Rng>>, outcome: nat -> ShotResult<Peak, Rng>,
    t: nat, job: Job<Peak, Rng>)
    requires Slots(bounds, next, jobs, results, outcome) && t < |bounds| && next[t] < bounds[t].1 && jobs[t].Idle? && job.Busy?
    ensures Slots(bounds, next, jobs[t := job], results, outcome)
  {
  }

  lemma {:induction false} SlotsStep<Peak, Rng>(
    bounds: seq<(nat, nat)>, next: seq<nat>, jobs: seq<Job<Peak, Rng>>, results: seq<ShotResult<Peak, Rng>>, outcome: nat -> ShotResult<Peak, Rng>,
    t: nat, job: Job<Peak, Rng>, results': seq<ShotResult<Peak, Rng>>)
    requires Slots(bounds, next, jobs, results, outcome) && Apart(bounds) && t < |bounds| && jobs[t].Busy? && job.Busy?
    requires |results'| == |results| && forall l | 0 <= l < |results| && l != next[t] :: results'[l] == results[l]
    ensures Slots(bounds, next, jobs[t := job], results', outcome)
  {
    forall u | 0 <= u < |bounds| && u != t ensures next[t] < bounds[u].0 || bounds[u].1 <= next[t] {
      if u < t { assert bounds[u].1 <= bounds[t].0; } else { assert bounds[t].1 <= bounds[u].0; }
    }
  }

  lemma {:induction false} SlotsFinish<Peak, Rng>(
    bounds: seq<(nat, nat)>, next: seq<nat>, jobs: seq<Job<Peak, Rng>>, results: seq<ShotResult<Peak, Rng>>, outcome: nat -> ShotResult<Peak, Rng>, t: nat)
    requires Slots(bounds, next, jobs, results, outcome) && Apart(bounds) && t < |bounds| && jobs[t].Busy?
    ensures Slots(bounds, next[t := next[t] + 1], jobs[t := Idle], results[next[t] := outcome(next[t])], outcome)
  {
    forall u | 0 <= u < |bounds| && u != t ensures next[t] < bounds[u].0 || bounds[u].1 <= next[t] {
      if u < t { assert bounds[u].1 <= bounds[t].0; } else { assert bounds[t].1 <= bounds[u].0; }
    }
  }

  lemma {:induction false} SlotsEnd<Peak, Rng>(
    bounds: seq<(nat, nat)>, next: seq<nat>, jobs: seq<Job<Peak, Rng>>, results: seq<ShotResult<Peak, Rng>>, outcome: nat -> ShotResult<Peak, Rng>)
    requires Slots(bounds, next, jobs, results, outcome) && AreChunks(bounds, |results|)
    requires forall t | 0 <= t < |bounds| :: next[t] >= bounds[t].1
    ensures forall l | 0 <= l < |results| :: results[l] == outcome(l)
  {
    forall l | 0 <= l < |results| ensures results[l] == outcome(l) {
      ChunksPartition(bounds, |results|, l);
      var t :| 0 <= t < |bounds| && bounds[t].0 <= l < bounds[t].1;
      assert bounds[t].0 <= l < next[t];
    }
  }

  lemma {:induction false} SlotsBegin<Peak, Rng>(
    bounds: seq<(nat, nat)>, next: seq<nat>, jobs: seq<Job<Peak, Rng>>, results: seq<ShotResult<Peak, Rng>>, outcome: nat -> ShotResult<Peak, Rng>)
    requires AreChunks(bounds, |results|) && |next| == |jobs| == |bounds|
    requires forall t | 0 <= t < |bounds| :: next[t] == bounds[t].0 && jobs[t].Idle?
    requires forall l | 0 <= l < |results| :: results[l] == ShotResult(None, map[])
    ensures Slots(bounds, next, jobs, results, outcome) && Apart(bounds)
  {
    forall t, u | 0 <= t < u < |bounds| ensures bounds[t].1 <= bounds[u].0 {
      ChunksOrdered(bounds, |results|, t, u);
    }
    forall t | 0 <= t < |bounds| ensures bounds[t].1 <= |results| {
      if t < |bounds| - 1 {
        ChunksOrdered(bounds, |results|, t, |bounds| - 1);
      }
    }
  }

  // ----- the jobs of all threads -----

  function States<Peak, Rng>(jobs: seq<Job<Peak, Rng>>): set<SimState<Peak, Rng>> {
    set t | 0 <= t < |jobs| && jobs[t].Busy? :: jobs[t].state
  }

  function Circuits<Peak, Rng>(jobs: seq<Job<Peak, Rng>>): set<Circuit> {
    set t | 0 <= t < |jobs| && jobs[t].Busy? :: jobs[t].circuit
  }

  /** Every busy thread is at work on its current shot, with objects of its own. */
  ghost predicate Pool<Peak, Rng, Sample>(
    k: Kernel<Peak, Rng, Sample>, ffs: seq<FeedForward>, ops: seq<Op>, peaks: seq<Peak>, settings: Settings<Rng>,
    simulator: Simulator<Peak, Rng>, next: seq<nat>, jobs: seq<Job<Peak, Rng>>)
    reads simulator, States(jobs), Circuits(jobs)
  {
    && |next| == |jobs|
    && (forall t | 0 <= t < |jobs| && jobs[t].Busy? ::
          jobs[t].circuit.ffList == ffs && Working(k, ffs, ops, peaks, settings, simulator, jobs[t], next[t]))
    && (forall t, u | 0 <= t < |jobs| && 0 <= u < |jobs| && t != u && jobs[t].Busy? && jobs[u].Busy? ::
          jobs[t].state != jobs[u].state && jobs[t].circuit != jobs[u].circuit)
  }

  lemma {:induction false} ShotsDiffer<Peak, Rng>(
    bounds: seq<(nat, nat)>, next: seq<nat>, jobs: seq<Job<Peak, Rng>>, results: seq<ShotResult<Peak, Rng>>, outcome: nat -> ShotResult<Peak, Rng>, t: nat)
    requires Slots(bounds, next, jobs, results, outcome) && Apart(bounds) && t < |bounds| && jobs[t].Busy?
    ensures forall u | 0 <= u < |jobs| && u != t && jobs[u].Busy? :: next[u] != next[t]
  {
    forall u | 0 <= u < |jobs| && u != t && jobs[u].Busy? ensures next[u] != next[t] {
      if u < t { assert bounds[u].1 <= bounds[t].0; } else { assert bounds[t].1 <= bounds[u].0; }
    }
  }

  /** One operation of thread t. */
  method TurnStep<Peak, Rng, Sample>(
    k: Kernel<Peak, Rng, Sample>, ghost ffs: seq<FeedForward>, ghost ops: seq<Op>, ghost peaks: seq<Peak>, ghost settings: Settings<Rng>,
    simulator: Simulator<Peak, Rng>, ghost bounds: seq<(nat, nat)>, next: seq<nat>, jobs: seq<Job<Peak, Rng>>, t: nat,
    ghost outcome: nat -> ShotResult<Peak, Rng>)
    returns (job: Job<Peak, Rng>)
    requires WellFormed(ops, ffs) && AnglesPresent(ops) && Apart(bounds)
    requires Pool(k, ffs, ops, peaks, settings, simulator, next, jobs) && Slots(bounds, next, jobs, simulator.results, outcome)
    requires t < |jobs| && jobs[t].Busy? && jobs[t].pos < |ops|
    modifies simulator`results, jobs[t].state`peaks, jobs[t].state`rng, jobs[t].circuit`operations
    ensures job == jobs[t].(pos := jobs[t].pos + 1) && |simulator.results| == |old(simulator.results)|
    ensures Pool(k, ffs, ops, peaks, settings, simulator, next, jobs[t := job])
    ensures Slots(bounds, next, jobs[t := job], simulator.results, outcome)
  {
    hide Reached, Slots, Apart, WellFormed, AnglesPresent, Circuit.Valid;
    SlotsSizes(bounds, next, jobs, simulator.results, outcome);
    ShotsDiffer(bounds, next, jobs, simulator.results, outcome, t);
    ghost var before := simulator.results;
    job := StepShot(k, ops, peaks, settings, simulator, jobs[t], next[t]);
    SlotsStep(bounds, next, jobs, before, outcome, t, job, simulator.results);
  }

  lemma {:induction false} SlotsSizes<Peak, Rng>(
    bounds: seq<(nat, nat)>, next: seq<nat>, jobs: seq<Job<Peak, Rng>>, results: seq<ShotResult<Peak, Rng>>, outcome: nat -> ShotResult<Peak, Rng>)
    requires Slots(bounds, next, jobs, results, outcome)
    ensures |next| == |jobs| == |bounds| && forall t | 0 <= t < |bounds| :: bounds[t].0 <= next[t] <= bounds[t].1 <= |results|
    ensures forall t | 0 <= t < |bounds| && next[t] < bounds[t].1 && jobs[t].Idle? :: results[next[t]] == ShotResult(None, map[])
  {
  }

  /** Thread t is done with its shot. */
  method TurnFinish<Peak, Rng, Sample>(
    k: Kernel<Peak, Rng, Sample>, ghost ffs: seq<FeedForward>, ghost ops: seq<Op>, ghost peaks: seq<Peak>, settings: Settings<Rng>,
    simulator: Simulator<Peak, Rng>, ghost bounds: seq<(nat, nat)>, next: seq<nat>, jobs: seq<Job<Peak, Rng>>, t: nat,
    ghost outcome: nat -> ShotResult<Peak, Rng>)
    requires Apart(bounds) && Pool(k, ffs, ops, peaks, settings, simulator, next, jobs)
    requires Slots(bounds, next, jobs, simulator.results, outcome)
    requires t < |jobs| && jobs[t].Busy? && jobs[t].pos == |ops|
    requires outcome(next[t]) == ShotOutcome(k, ffs, ops, peaks, settings, next[t])
    modifies simulator`results
    ensures |simulator.results| == |old(simulator.results)|
    ensures Pool(k, ffs, ops, peaks, settings, simulator, next[t := next[t] + 1], jobs[t := Idle])
    ensures Slots(bounds, next[t := next[t] + 1], jobs[t := Idle], simulator.results, outcome)
  {
    hide Reached, Slots, Apart, Circuit.Valid, ShotOutcome;
    SlotsSizes(bounds, next, jobs, simulator.results, outcome);
    ShotsDiffer(bounds, next, jobs, simulator.results, outcome, t);
    SlotsFinish(bounds, next, jobs, simulator.results, outcome, t);
    FinishShot(k, ops, peaks, settings, simulator, jobs[t], next[t]);
  }

  /** Thread t starts a shot; the objects of its job are new. */
  lemma {:induction false} PoolStart<Peak, Rng, Sample>(
    k: Kernel<Peak, Rng, Sample>, ffs: seq<FeedForward>, ops: seq<Op>, peaks: seq<Peak>, settings: Settings<Rng>,
    simulator: Simulator<Peak, Rng>, next: seq<nat>, jobs: seq<Job<Peak, Rng>>, t: nat, job: Job<Peak, Rng>)
    requires Pool(k, ffs, ops, peaks, settings, simulator, next, jobs) && t < |jobs| && job.Busy?
    requires job.circuit.ffList == ffs && Working(k, ffs, ops, peaks, settings, simulator, job, next[t])
    requires job.state !in States(jobs) && job.circuit !in Circuits(jobs)
    ensures Pool(k, ffs, ops, peaks, settings, simulator, next, jobs[t := job])
  {
    hide Working;
    assert forall u | 0 <= u < |jobs| && jobs[u].Busy? :: jobs[u].state in States(jobs) && jobs[u].circuit in Circuits(jobs);
  }

  function Total(s: seq<nat>): nat {
    if s == [] then 0 else Total(s[..|s| - 1]) + s[|s| - 1]
  }

  lemma {:induction false} LessInTotal(s: seq<nat>, t: nat, v: nat)
    requires t < |s| && v < s[t]
    ensures Total(s[t := v]) < Total(s)
  {
    var e := |s| - 1;
    if t < e {
      LessInTotal(s[..e], t, v);
      assert s[t := v][..e] == s[..e][t := v];
    } else {
      assert s[t := v][..e] == s[..e];
    }
  }

  /** The shots every thread has left. */
  function ShotsLeft(bounds: seq<(nat, nat)>, next: seq<nat>): seq<nat>
    requires |next| == |bounds|
  {
    seq(|bounds|, t requires 0 <= t < |bounds| => if next[t] < bounds[t].1 then bounds[t].1 - next[t] else 0)
  }

  /** The steps every thread has left in its current shot. */
  function StepsLeft<Peak, Rng>(jobs: seq<Job<Peak, Rng>>, length: nat): seq<nat> {
    seq(|jobs|, t requires 0 <= t < |jobs| =>
      if jobs[t].Idle? then length + 1 else if jobs[t].pos < length then length - jobs[t].pos else 0)
  }

  /** Thread t has begun a shot, executed an operation of it, or ended it. */
  ghost predicate Advances<Peak, Rng>(
    next: seq<nat>, jobs: seq<Job<Peak, Rng>>, next': seq<nat>, jobs': seq<Job<Peak, Rng>>, t: nat, length: nat)
    requires |next| == |jobs| && t < |jobs|
  {
    if jobs[t].Idle? then next' == next && |jobs'| == |jobs| && jobs' == jobs[t := jobs'[t]] && jobs'[t].Busy? && jobs'[t].pos == 0
    else if jobs[t].pos < length then next' == next && jobs' == jobs[t := jobs[t].(pos := jobs[t].pos + 1)]
    else next' == next[t := next[t] + 1] && jobs' == jobs[t := Idle]
  }

  lemma {:induction false} LessLeft<Peak, Rng>(
    bounds: seq<(nat, nat)>, next: seq<nat>, jobs: seq<Job<Peak, Rng>>, next': seq<nat>, jobs': seq<Job<Peak, Rng>>, t: nat, length: nat)
    requires |bounds| == |next| == |jobs| && t < |jobs| && next[t] < bounds[t].1 && Advances(next, jobs, next', jobs', t, length)
    ensures |next'| == |jobs'| == |bounds|
    ensures Total(ShotsLeft(bounds, next')) < Total(ShotsLeft(bounds, next))
            || (next' == next && Total(StepsLeft(jobs', length)) < Total(StepsLeft(jobs, length)))
  {
    hide Total;
    if jobs[t].Busy? && jobs[t].pos >= length {
      var left := bounds[t].1 - next[t];
      LessInTotal(ShotsLeft(bounds, next), t, left - 1);
      assert ShotsLeft(bounds, next') == ShotsLeft(bounds, next)[t := left - 1];
    } else {
      var rest := if jobs[t].Idle? then length else length - jobs[t].pos - 1;
      LessInTotal(StepsLeft(jobs, length), t, rest);
      assert StepsLeft(jobs', length) == StepsLeft(jobs, length)[t := rest];
    }
  }

  /** One step of thread t. */
  method Turn<Peak, Rng, Sample>(
    f: Functions, k: Kernel<Peak, Rng, Sample>, circuit: Circuit, peaks: seq<Peak>, settings: Settings<Rng>, simulator: Simulator<Peak, Rng>,
    ghost bounds: seq<(nat, nat)>, next: seq<nat>, jobs: seq<Job<Peak, Rng>>, t: nat, ghost outcome: nat -> ShotResult<Peak, Rng>)
    returns (next': seq<nat>, jobs': seq<Job<Peak, Rng>>, ok: bool)
    requires circuit.Valid() && Apart(bounds) && circuit !in Circuits(jobs)
    requires WellFormed(CopiedOps(circuit.operations), circuit.ffList) && AnglesPresent(CopiedOps(circuit.operations))
    requires Pool(k, circuit.ffList, CopiedOps(circuit.operations), peaks, settings, simulator, next, jobs)
    requires Slots(bounds, next, jobs, simulator.results, outcome)
    requires t < |jobs| == |next| == |bounds| && next[t] < bounds[t].1
    requires outcome(next[t]) == ShotOutcome(k, circuit.ffList, CopiedOps(circuit.operations), peaks, settings, next[t])
    modifies simulator`results, States(jobs), Circuits(jobs)
    ensures circuit.Valid() && circuit.operations == old(circuit.operations) && circuit.ffList == old(circuit.ffList)
    ensures |simulator.results| == |old(simulator.results)|
    ensures ok == (jobs[t].Idle? ==> AllConstructible(f, circuit.operations))
    ensures ok ==> Advances(next, jobs, next', jobs', t, |circuit.operations|)
    ensures ok && jobs[t].Idle? ==> fresh(jobs'[t].state) && fresh(jobs'[t].circuit)
    ensures ok ==> Pool(k, circuit.ffList, CopiedOps(circuit.operations), peaks, settings, simulator, next', jobs')
    ensures ok ==> Slots(bounds, next', jobs', simulator.results, outcome)
  {
    hide WellFormed, AnglesPresent, AllConstructible, CopiedOps, ShotOutcome, Reached, Slots, Circuit.Valid, Apart;
    ghost var ops, ffs := CopiedOps(circuit.operations), circuit.ffList;
    SlotsSizes(bounds, next, jobs, simulator.results, outcome);
    next', jobs', ok := next, jobs, true;
    match jobs[t]
    case Idle =>
      var job;
      job, ok := StartShot(f, k, circuit, peaks, settings, next[t], simulator);
      if ok {
        SlotsStart(bounds, next, jobs, simulator.results, outcome, t, job);
        PoolStart(k, ffs, ops, peaks, settings, simulator, next, jobs, t, job);
        jobs' := jobs[t := job];
      }
    case Busy(_, copy, pos) =>
      InPool(k, ffs, ops, peaks, settings, simulator, next, jobs, t);
      if pos < |copy.operations| {
        var job := TurnStep(k, ffs, ops, peaks, settings, simulator, bounds, next, jobs, t, outcome);
        jobs' := jobs[t := job];
      } else {
        TurnFinish(k, ffs, ops, peaks, settings, simulator, bounds, next, jobs, t, outcome);
        next', jobs' := next[t := next[t] + 1], jobs[t := Idle];
      }
  }

  /** The copy of a job has as many operations as the circuit. */
  lemma {:induction false} InPool<Peak, Rng, Sample>(
    k: Kernel<Peak, Rng, Sample>, ffs: seq<FeedForward>, ops: seq<Op>, peaks: seq<Peak>, settings: Settings<Rng>,
    simulator: Simulator<Peak, Rng>, next: seq<nat>, jobs: seq<Job<Peak, Rng>>, t: nat)
    requires Pool(k, ffs, ops, peaks, settings, simulator, next, jobs) && t < |jobs| && jobs[t].Busy? && WellFormed(ops, ffs)
    ensures jobs[t].pos <= |ops| == |jobs[t].circuit.operations|
    ensures jobs[t].state in States(jobs) && jobs[t].circuit in Circuits(jobs)
  {
    hide WellFormed, Run;
    assert Working(k, ffs, ops, peaks, settings, simulator, jobs[t], next[t]);
    RunsSettled(k, ffs, Start(ops, peaks, settings.RngOf(next[t])), jobs[t].pos);
  }

  lemma {:induction false} NobodyBusy<Peak, Rng, Sample>(
    k: Kernel<Peak, Rng, Sample>, ffs: seq<FeedForward>, ops: seq<Op>, peaks: seq<Peak>, settings: Settings<Rng>,
    simulator: Simulator<Peak, Rng>, next: seq<nat>, jobs: seq<Job<Peak, Rng>>)
    requires |next| == |jobs| && forall t | 0 <= t < |jobs| :: jobs[t].Idle?
    ensures Pool(k, ffs, ops, peaks, settings, simulator, next, jobs)
  {
  }

  /** The threads run their ranges of shots at the same time, operation by operation in any interleaving, each
      shot on its own copy of the circuit; they share the simulator object. */
  method RunThreads<Peak, Rng, Sample>(
    f: Functions, k: Kernel<Peak, Rng, Sample>, circuit: Circuit, peaks: seq<Peak>, settings: Settings<Rng>, simulator: Simulator<Peak, Rng>,
    bounds: seq<(nat, nat)>)
    returns (ok: bool)
    requires circuit.Valid() && AreChunks(bounds, |simulator.results|)
    requires WellFormed(CopiedOps(circuit.operations), circuit.ffList) && AnglesPresent(CopiedOps(circuit.operations))
    requires forall l | 0 <= l < |simulator.results| :: simulator.results[l] == ShotResult(None, map[])
    modifies simulator`results
    ensures |simulator.results| == |old(simulator.results)|
    ensures ok == AllConstructible(f, circuit.operations)
    ensures ok ==> forall shot | 0 <= shot < |simulator.results| ::
              simulator.results[shot] == ShotOutcome(k, circuit.ffList, CopiedOps(circuit.operations), peaks, settings, shot)
  {
    hide WellFormed, AnglesPresent, AllConstructible, CopiedOps, ShotOutcome, Slots, Circuit.Valid, Total, Apart, Pool, ShotsLeft, StepsLeft, AreChunks;
    ghost var ops, ffs := CopiedOps(circuit.operations), circuit.ffList;
    ghost var outcome := (shot: nat) => ShotOutcome(k, ffs, ops, peaks, settings, shot);
    assert |bounds| > 0 && bounds[0].0 < bounds[0].1 by { FirstChunk(bounds, |simulator.results|); }
    var idle: Job<Peak, Rng> := Idle;
    var next: seq<nat>, jobs := seq(|bounds|, t requires 0 <= t < |bounds| => bounds[t].0), seq(|bounds|, _ => idle);
    SlotsBegin(bounds, next, jobs, simulator.results, outcome);
    NobodyBusy(k, ffs, ops, peaks, settings, simulator, next, jobs);
    while exists t | 0 <= t < |bounds| :: next[t] < bounds[t].1
      invariant circuit.Valid() && |simulator.results| == |old(simulator.results)| && |next| == |jobs| == |bounds|
      invariant Slots(bounds, next, jobs, simulator.results, outcome)
      invariant Pool(k, ffs, ops, peaks, settings, simulator, next, jobs)
      invariant forall t | 0 <= t < |bounds| && jobs[t].Busy? :: fresh(jobs[t].state) && fresh(jobs[t].circuit)
      invariant forall t | 0 <= t < |bounds| && (jobs[t].Busy? || bounds[t].0 < next[t]) :: AllConstructible(f, circuit.operations)
      decreases Total(ShotsLeft(bounds, next)), Total(StepsLeft(jobs, |circuit.operations|))
    {
      var t: nat :| t < |bounds| && next[t] < bounds[t].1;
      ghost var next0, jobs0 := next, jobs;
      next, jobs, ok := Turn(f, k, circuit, peaks, settings, simulator, bounds, next, jobs, t, outcome);
      if !ok {
        return;
      }
      LessLeft(bounds, next0, jobs0, next, jobs, t, |circuit.operations|);
    }
    SlotsEnd(bounds, next, jobs, simulator.results, outcome);
    ok := true;
  }

  /** However the threads interleave, every shot has the result it has on its own, and the circuit is left as it
      was.  On a circuit as built, the copies are the circuit itself (`CopyOfPristine`). */
  method SimulateShotLevel<Peak, Rng, Sample>(
    f: Functions, k: Kernel<Peak, Rng, Sample>, circuit: Circuit, peaks: seq<Peak>, settings: Settings<Rng>, maxThreads: nat)
    returns (simulator: Simulator<Peak, Rng>, ok: bool)
    requires circuit.Valid() && WellFormed(circuit.operations, circuit.ffList) && AnglesPresent(circuit.operations)
    requires maxThreads >= 1
    ensures fresh(simulator) && |simulator.results| == settings.nShots
    ensures ok == (settings.nShots > 0 && AllConstructible(f, circuit.operations))
    ensures ok ==> forall shot | 0 <= shot < settings.nShots ::
              && simulator.results[shot] == ShotOutcome(k, circuit.ffList, CopiedOps(circuit.operations), peaks, settings, shot)
              && simulator.results[shot].measured
                 == ShotOutcome(k, circuit.ffList, CopiedOps(circuit.operations), peaks, settings.(seed := settings.seed + shot), 0).measured
  {
    hide WellFormed, AnglesPresent, AllConstructible, CopiedOps, ShotOutcome, Circuit.Valid, AreChunks, Balanced;
    CopiedFacts(circuit.operations, circuit.ffList);
    simulator := new Simulator(settings.nShots);
    var bounds;
    bounds, ok := Chunks(settings.nShots, maxThreads);
    if ok {
      ok := RunThreads(f, k, circuit, peaks, settings, simulator, bounds);
      AllBySeed(k, circuit.ffList, CopiedOps(circuit.operations), peaks, settings);
    }
  }

  lemma {:induction false} FirstChunk(bounds: seq<(nat, nat)>, n: nat)
    requires AreChunks(bounds, n)
    ensures |bounds| > 0 && bounds[0].0 < bounds[0].1
  {
  }

  lemma {:induction false} CopiedFacts(ops: seq<Op>, ffs: seq<FeedForward>)
    requires WellFormed(ops, ffs) && AnglesPresent(ops)
    ensures WellFormed(CopiedOps(ops), ffs) && AnglesPresent(CopiedOps(ops))
  {
    CopiedWellFormed(ops, ffs);
  }
}
