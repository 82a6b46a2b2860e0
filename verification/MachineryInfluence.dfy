/** Every feedforward of a machinery circuit can influence its runs. */
module MachineryInfluence {
  import opened Elementary
  import opened Operations
  import opened Engine
  import opened Machinery
  import opened MachineryRuns
  import opened MachineryRecycling
  import opened Influence
  import opened Reuse

  /** The gates of the circuit are beam splitters without parameters. */
  lemma {:induction false} GatesHaveNoParameters(f: Functions, cfg: Config, level: real, i: nat)
    requires cfg.Valid() && i < |MachineryOps(f, cfg, level)| && IsMatrixGate(MachineryOps(f, cfg, level)[i].kind)
    ensures MachineryOps(f, cfg, level)[i].params == []
  {
    hide MachineryOps, OpAt, ModeAllocator.ModeIdx;
    CircuitLength(f, cfg, level);
    var k, j := IndexSplit(i, cfg.Total());
    OpsAt(f, cfg, level, k, j);
    var a, b := BeamSplitterModes(f, cfg, level, k, j);
  }

  lemma {:induction false} ArityIsKept(f: Functions, cfg: Config, level: real)
    requires cfg.Valid()
    ensures ArityKept(MachineryOps(f, cfg, level))
  {
    var ops := MachineryOps(f, cfg, level);
    hide MachineryOps, ModeAllocator.ModeIdx;
    CircuitLength(f, cfg, level);
    forall i: nat | i < |ops| ensures ArityOk(ops[i].kind, |ops[i].params|) {
      var k, j := IndexSplit(i, cfg.Total());
      OpsAt(f, cfg, level, k, j);
    }
  }

  /** When the nonlinear feedforwards lead forward, every feedforward of the circuit, linear or not, can
      influence a run; so its runs can be repeated on one circuit, and none of them can be left out. */
  lemma {:induction false} MachineryInfluences(f: Functions, cfg: Config, level: real, n: nat)
    requires cfg.Valid() && Compiles(cfg) && cfg.Forward() && n < |MachineryFFs(f, cfg)|
    ensures Influences(MachineryOps(f, cfg, level), MachineryFFs(f, cfg)[n])
    ensures WellFormed(MachineryOps(f, cfg, level), MachineryFFs(f, cfg)) && Harmless(MachineryOps(f, cfg, level), MachineryFFs(f, cfg))
    ensures exists v: real :: !Removable(MachineryOps(f, cfg, level), MachineryFFs(f, cfg), n, v)
  {
    var ops, ffs := MachineryOps(f, cfg, level), MachineryFFs(f, cfg);
    hide MachineryOps, MachineryFFs, Compiles, Config.Forward, Removable, ArityKept;
    ForwardIsEnough(f, cfg, level);
    CausalIsHarmless(ops, ffs);
    assert WellFormedFF(ops, ffs[n]);
    if IsMatrixGate(ops[ffs[n].target.op].kind) {
      GatesHaveNoParameters(f, cfg, level, ffs[n].target.op);
    }
    ArityIsKept(f, cfg, level);
    InfluenceExactly(ops, ffs, n);
  }
}
