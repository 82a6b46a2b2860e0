/** Machinery circuits recycle modes safely. */
module MachineryRecycling {
  import opened Elementary
  import opened Operations
  import opened Engine
  import opened ModeAllocator
  import opened Machinery
  import opened GaussianPeaks
  import opened GaussianRuns
  import MachineryRuns

  /** The mode operation j of macronode k measures or replaces. */
  function ModeOf(f: Functions, cfg: Config, level: real, k: nat, j: nat): nat
    requires cfg.Valid() && k < cfg.Total() && j < OPS_PER_MACRONODE
  {
    Mode(OpAt(f, cfg, level, k, j))
  }

  /** The four modes measured in macronode k. */
  function MeasuredModes(f: Functions, cfg: Config, level: real, k: nat): set<nat>
    requires cfg.Valid() && k < cfg.Total()
  {
    {ModeOf(f, cfg, level, k, HOMODYNE_A), ModeOf(f, cfg, level, k, HOMODYNE_B),
     ModeOf(f, cfg, level, k, HOMODYNE_C), ModeOf(f, cfg, level, k, HOMODYNE_D)}
  }

  /** The four modes replaced at its end. */
  function ReplacedModes(f: Functions, cfg: Config, level: real, k: nat): set<nat>
    requires cfg.Valid() && k < cfg.Total()
  {
    {ModeOf(f, cfg, level, k, 14), ModeOf(f, cfg, level, k, 15), ModeOf(f, cfg, level, k, 16), ModeOf(f, cfg, level, k, 17)}
  }

  lemma {:induction false} ModesOfMacronode(f: Functions, cfg: Config, level: real, k: nat)
    requires cfg.Valid() && k < cfg.Total()
    ensures ModeOf(f, cfg, level, k, 7) == ModeIdx(cfg.n, k, 3) && ModeOf(f, cfg, level, k, 8) == ModeIdx(cfg.n, k, 0)
    ensures ModeOf(f, cfg, level, k, 9) == ModeIdx(cfg.n, k, 2) && ModeOf(f, cfg, level, k, 10) == ModeIdx(cfg.n, k, 1)
    ensures ModeOf(f, cfg, level, k, 14) == ModeIdx(cfg.n, k, 0) && ModeOf(f, cfg, level, k, 15) == ModeIdx(cfg.n, k, 1)
    ensures ModeOf(f, cfg, level, k, 16) == ModeIdx(cfg.n, k, 2) && ModeOf(f, cfg, level, k, 17) == ModeIdx(cfg.n, k, 3)
  {
    Renamed(cfg.n, k);
    hide ModeIdx;
  }

  /** A macronode replaces the very modes it measured. */
  lemma {:induction false} ReplacesMeasured(f: Functions, cfg: Config, level: real, k: nat)
    requires cfg.Valid() && k < cfg.Total()
    ensures ReplacedModes(f, cfg, level, k) == MeasuredModes(f, cfg, level, k) == OutputModes(cfg.n, k)
  {
    ModesOfMacronode(f, cfg, level, k);
    hide ModeIdx, ModeOf;
  }

  /** The modes of the first four micronodes. */
  function OutputModes(n: nat, k: nat): set<nat> { {ModeIdx(n, k, 0), ModeIdx(n, k, 1), ModeIdx(n, k, 2), ModeIdx(n, k, 3)} }

  lemma {:induction false} Renamed(n: nat, k: nat)
    requires n >= 1
    ensures ModeIdx(n, k + 1, 2) == ModeIdx(n, k, 0) && ModeIdx(n, k + 1, 3) == ModeIdx(n, k, 1)
    ensures ModeIdx(n, k + 1, 4) == ModeIdx(n, k, 2) && ModeIdx(n, k + 1, n + 4) == ModeIdx(n, k, 3)
  {
    hide ModeIdx;
    RenamingStep(n, k, 2);
    RenamingStep(n, k, 3);
    RenamingStep(n, k, 4);
    RenamingStep(n, k, n + 4);
  }

  lemma {:induction false} OpsAt(f: Functions, cfg: Config, level: real, k: nat, j: nat)
    requires cfg.Valid() && k < cfg.Total() && j < OPS_PER_MACRONODE
    ensures MacronodeOpIdx(k, j) < |MachineryOps(f, cfg, level)| && MachineryOps(f, cfg, level)[MacronodeOpIdx(k, j)] == OpAt(f, cfg, level, k, j)
  {
    hide OpAt;
    MacronodesAt(f, cfg, level, cfg.Total(), k, j);
  }

  /** The modes known to be separate after operation j of macronode k. */
  lemma {:induction false} ClearStep(f: Functions, cfg: Config, level: real, start: set<nat>, k: nat, j: nat)
    requires cfg.Valid() && k < cfg.Total() && j < OPS_PER_MACRONODE
    ensures MacronodeOpIdx(k, j) + 1 <= |MachineryOps(f, cfg, level)|
    ensures var op := OpAt(f, cfg, level, k, j);
      ClearAt(MachineryOps(f, cfg, level), start, MacronodeOpIdx(k, j) + 1)
      == After(ClearAt(MachineryOps(f, cfg, level), start, MacronodeOpIdx(k, j)), op.kind, op.modes)
  {
    hide OpAt, After, MachineryOps;
    OpsAt(f, cfg, level, k, j);
  }

  /** The modes measured by operations 7, ..., j - 1 of macronode k. */
  function MeasuredBefore(n: nat, k: nat, j: nat): set<nat> {
    (if j > 7 then {ModeIdx(n, k, 3)} else {}) + (if j > 8 then {ModeIdx(n, k, 0)} else {})
    + (if j > 9 then {ModeIdx(n, k, 2)} else {}) + (if j > 10 then {ModeIdx(n, k, 1)} else {})
  }

  lemma {:induction false} AfterOneMode(clear: set<nat>, op: Op)
    requires |op.modes| == 1 && !IsBinaryGate(op.kind)
    ensures After(clear, op.kind, op.modes) == if IsMeasurement(op.kind) then clear + {op.modes[0]} else clear
  {
  }

  lemma {:induction false} AfterBeamSplitter(clear: set<nat>, a: nat, b: nat)
    ensures After(clear, BeamSplitter50, [a, b]) == clear - {a, b}
  {
  }

  lemma {:induction false} LastBeamSplitter(n: nat, k: nat, j: nat, clear: set<nat>)
    requires n >= 1 && MeasuredBefore(n, k, j) <= clear
    ensures MeasuredBefore(n, k, j) <= clear - {ModeIdx(n, k, n + 4), ModeIdx(n, k, 4)}
  {
    forall i: nat | i < 4 ensures ModeIdx(n, k, i) != ModeIdx(n, k, 4) && ModeIdx(n, k, i) != ModeIdx(n, k, n + 4) {
      hide ModeIdx;
      Injective(n, k, i, 4);
      Injective(n, k, i, n + 4);
    }
    hide ModeIdx;
  }

  lemma {:induction false} MeasuredStep(f: Functions, cfg: Config, level: real, k: nat, j: nat, clear: set<nat>)
    requires cfg.Valid() && k < cfg.Total() && 7 <= j < OPS_PER_MACRONODE && MeasuredBefore(cfg.n, k, j) <= clear
    ensures MeasuredBefore(cfg.n, k, j + 1) <= After(clear, OpAt(f, cfg, level, k, j).kind, OpAt(f, cfg, level, k, j).modes)
  {
    hide ModeIdx, After;
    if j == 11 {
      AfterBeamSplitter(clear, ModeIdx(cfg.n, k, cfg.n + 4), ModeIdx(cfg.n, k, 4));
      LastBeamSplitter(cfg.n, k, j, clear);
    } else {
      AfterOneMode(clear, OpAt(f, cfg, level, k, j));
    }
  }

  lemma {:induction false} NextIndex(n: nat, k: nat, j: nat)
    ensures MacronodeOpIdx(k, j) + 1 == MacronodeOpIdx(k, j + 1) && MeasuredBefore(n, k, 7) == {}
  {
    hide ModeIdx;
  }

  /** Once measured, a mode stays separate to the end of its macronode. */
  lemma {:induction false} MeasuredStayClear(f: Functions, cfg: Config, level: real, start: set<nat>, k: nat, j: nat)
    requires cfg.Valid() && k < cfg.Total() && 7 <= j < OPS_PER_MACRONODE
    ensures MacronodeOpIdx(k, j) <= |MachineryOps(f, cfg, level)|
    ensures MeasuredBefore(cfg.n, k, j) <= ClearAt(MachineryOps(f, cfg, level), start, MacronodeOpIdx(k, j))
  {
    hide *;
    OpsAt(f, cfg, level, k, j);
    NextIndex(cfg.n, k, j - 1);
    if j > 7 {
      MeasuredStayClear(f, cfg, level, start, k, j - 1);
      ClearStep(f, cfg, level, start, k, j - 1);
      MeasuredStep(f, cfg, level, k, j - 1, ClearAt(MachineryOps(f, cfg, level), start, MacronodeOpIdx(k, j - 1)));
    }
  }

  lemma {:induction false} OnlyReplacements(f: Functions, cfg: Config, level: real, k: nat, j: nat)
    requires cfg.Valid() && k < cfg.Total() && j < OPS_PER_MACRONODE && OpAt(f, cfg, level, k, j).kind == ReplaceBySqueezedState
    ensures j >= 14 && |OpAt(f, cfg, level, k, j).modes| == 1 && OpAt(f, cfg, level, k, j).modes[0] in MeasuredBefore(cfg.n, k, j)
  {
    Renamed(cfg.n, k);
    hide ModeIdx;
  }

  /** Every mode a machinery circuit replaces was measured before and has been left alone since. */
  lemma {:induction false} MachineryRecyclesSafely(f: Functions, cfg: Config, level: real, start: set<nat>)
    requires cfg.Valid()
    ensures RecyclesSafely(MachineryOps(f, cfg, level), start)
  {
    var ops := MachineryOps(f, cfg, level);
    hide OpAt, MachineryOps, ClearAt, MeasuredBefore;
    assert |ops| == cfg.Total() * OPS_PER_MACRONODE by { MachineryRuns.CircuitLength(f, cfg, level); }
    forall i: nat | i < |ops| && ops[i].kind == ReplaceBySqueezedState && |ops[i].modes| == 1
      ensures ops[i].modes[0] in ClearAt(ops, start, i)
    {
      var k, j := IndexSplit(i, cfg.Total());
      OpsAt(f, cfg, level, k, j);
      OnlyReplacements(f, cfg, level, k, j);
      MeasuredStayClear(f, cfg, level, start, k, j);
    }
  }

  lemma {:induction false} BeamSplitterConstructible(f: Functions, a: nat, b: nat)
    requires a != b
    ensures Constructible(f, BeamSplitter50, [a, b], [])
  {
  }

  lemma {:induction false} BeamSplitterModes(f: Functions, cfg: Config, level: real, k: nat, j: nat)
    returns (i: nat, l: nat)
    requires cfg.Valid() && k < cfg.Total() && j < OPS_PER_MACRONODE && IsMatrixGate(OpAt(f, cfg, level, k, j).kind)
    ensures i < cfg.n + 5 && l < cfg.n + 5 && i != l
    ensures OpAt(f, cfg, level, k, j) == Emplace(BeamSplitter50, [ModeIdx(cfg.n, k, i), ModeIdx(cfg.n, k, l)], [])
  {
    hide ModeIdx;
    i, l := if j == 2 || j == 5 then 0 else if j == 3 then 3 else if j == 4 then 2 else if j == 6 then 1 else cfg.n + 4,
            if j == 2 then 1 else if j == 3 || j == 11 then 4 else if j == 4 then cfg.n + 4 else if j == 5 then 3 else 2;
  }

  lemma {:induction false} MachineryGates(f: Functions, cfg: Config, level: real)
    requires cfg.Valid()
    ensures GatesConstructible(f, MachineryOps(f, cfg, level))
  {
    var ops := MachineryOps(f, cfg, level);
    MachineryRuns.CircuitLength(f, cfg, level);
    hide OpAt, MachineryOps, Constructible, ModeIdx;
    forall i: nat | i < |ops| && IsMatrixGate(ops[i].kind) ensures Constructible(f, ops[i].kind, ops[i].modes, ops[i].built) {
      var k, j := IndexSplit(i, cfg.Total());
      OpsAt(f, cfg, level, k, j);
      var a, b := BeamSplitterModes(f, cfg, level, k, j);
      Injective(cfg.n, k, a, b);
      BeamSplitterConstructible(f, ModeIdx(cfg.n, k, a), ModeIdx(cfg.n, k, b));
    }
  }

  /** Every state a machinery run reaches is positive definite, whatever is fed forward; and when a
      macronode comes to replace a mode, that mode is uncorrelated with all others. */
  lemma {:induction false} MachineryStaysSound<Rng>(
    f: Functions, pow10: real -> real, sampler: (nat, Option<real>, seq<Peak>, Rng) -> (Sample, Rng), ffs: seq<FeedForward>,
    cfg: Config, level: real, s: Exec<Peak, Rng>, n: nat, k: nat, j: nat, m: nat)
    requires f.Lawful() && Powers(pow10) && cfg.Valid() && s.ops == MachineryOps(f, cfg, level) && AllSound(s.peaks, n, {})
    requires k < cfg.Total() && j < OPS_PER_MACRONODE
    requires Run(GaussianKernel(f, pow10, sampler), ffs, s, 0, MacronodeOpIdx(k, j)).Some?
    requires m < |Run(GaussianKernel(f, pow10, sampler), ffs, s, 0, MacronodeOpIdx(k, j)).value.peaks|
    ensures var g := Run(GaussianKernel(f, pow10, sampler), ffs, s, 0, MacronodeOpIdx(k, j)).value.peaks[m];
      Positive(g) && (j >= 14 ==> forall mode | mode in MeasuredModes(f, cfg, level, k) :: Separate(g, mode))
  {
    var i := MacronodeOpIdx(k, j);
    hide f.Lawful, Powers, OpAt, MachineryOps, ClearAt, Run, GaussianKernel, Positive, Separate, RecyclesSafely, GatesConstructible, ModeIdx, MacronodeOpIdx;
    MachineryRecyclesSafely(f, cfg, level, {});
    MachineryGates(f, cfg, level);
    OpsAt(f, cfg, level, k, j);
    ReachableSound(f, pow10, sampler, ffs, s, i, n, {});
    if j >= 14 {
      MeasuredStayClear(f, cfg, level, {}, k, j);
      ReplacesMeasured(f, cfg, level, k);
    }
  }

  // ----- the delay line -----

  /** Operation j of macronode k only acts on active micronodes of macronode k. */
  lemma {:induction false} ActsOnActive(f: Functions, cfg: Config, level: real, k: nat, j: nat, mode: nat) returns (i: nat)
    requires cfg.Valid() && k < cfg.Total() && j < OPS_PER_MACRONODE && mode in OpAt(f, cfg, level, k, j).modes
    ensures Active(cfg.n, i) && i < cfg.n + 5 && mode == ModeIdx(cfg.n, k, i)
  {
    var n := cfg.n;
    Renamed(n, k);
    i := if mode == ModeIdx(n, k, 0) then 0 else if mode == ModeIdx(n, k, 1) then 1 else if mode == ModeIdx(n, k, 2) then 2
         else if mode == ModeIdx(n, k, 3) then 3 else if mode == ModeIdx(n, k, 4) then 4 else n + 4;
    hide ModeIdx;
  }

  /** Between macronodes k and k + n no operation touches the mode macronode k emitted to the delay line;
      macronode k + n takes it as its left input. */
  lemma {:induction false} DelayedModeUntouched(f: Functions, cfg: Config, level: real, k: nat, d: nat, j: nat)
    requires cfg.Valid() && k + d < cfg.Total() && 1 <= d <= cfg.n && j < OPS_PER_MACRONODE
    ensures d < cfg.n ==> ModeIdx(cfg.n, k, cfg.n + 4) !in OpAt(f, cfg, level, k + d, j).modes
    ensures d == cfg.n ==> ModeIdx(cfg.n, k, cfg.n + 4) == ModeIdx(cfg.n, k + d, 1) && OpAt(f, cfg, level, k + d, 1).modes == [ModeIdx(cfg.n, k, cfg.n + 4)]
  {
    var mode := ModeIdx(cfg.n, k, cfg.n + 4);
    if d == cfg.n {
      DelayLine(cfg.n, k, d);
    } else if mode in OpAt(f, cfg, level, k + d, j).modes {
      hide OpAt, ModeIdx;
      var i := ActsOnActive(f, cfg, level, k + d, j, mode);
      DelayLineUntouched(cfg.n, k, d, i);
      assert false;
    }
  }
}
