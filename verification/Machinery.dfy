/** The measurement-based compiler: from a machinery program to a circuit, and what its circuits are. */
module Machinery {
  import opened Arithmetic
  import opened Elementary
  import opened Operations
  import opened Engine
  import opened ModeAllocator
  import opened Resolution
  import opened Points
  import opened Teleportation
  import opened Readout

  datatype GenerationMethod = Unspecified | FromHomodyneAngles | ZeroFilled

  datatype MachineryFF = MachineryFF(function_: nat, fromMacronode: nat, fromAbcd: nat, toMacronode: nat, toParameter: nat)

  /** `PhysicalCircuitConfiguration`, without the macronodes to read out. */
  datatype Config = Config(
    n: nat,
    steps: nat,
    angles: seq<MacronodeAngle>,
    methods1: seq<GenerationMethod>,
    methodsN: seq<GenerationMethod>,
    displacements1: seq<Quad>,
    displacementsN: seq<Quad>,
    nlffs: seq<MachineryFF>,
    functions: seq<seq<real> -> real>)
  {
    function Total(): nat { n * steps }

    /** What is read without a check: the lists are long enough, the functions exist; and the value a
        nonlinear feedforward reads is one of the four. */
    predicate Valid() {
      && n >= 1
      && |angles| >= Total() && |methods1| >= Total() && |methodsN| >= Total()
      && |displacements1| >= Total() && |displacementsN| >= Total()
      && (forall i | 0 <= i < |nlffs| :: nlffs[i].function_ < |functions| && nlffs[i].fromAbcd < 4)
    }

    /** Every nonlinear feedforward leads forward, to a macronode that exists. */
    predicate Forward() {
      forall i | 0 <= i < |nlffs| :: nlffs[i].fromMacronode < nlffs[i].toMacronode < Total()
    }
  }

  /** There are as many macronodes as fit in the steps: number k is the k % N-th of step k / N. */
  lemma {:induction false} TotalExactly(cfg: Config, k: nat)
    requires cfg.n >= 1
    ensures k < cfg.Total() <==> k / cfg.n < cfg.steps
  {
    StepsTimes(cfg.n, cfg.steps, k);
  }

  const OPS_PER_MACRONODE: nat := 18

  // Operation types, in the order of the operations of a macronode.
  const DISPLACEMENT_B: nat := 0
  const DISPLACEMENT_D: nat := 1
  const HOMODYNE_A: nat := 7
  const HOMODYNE_B: nat := 8
  const HOMODYNE_C: nat := 9
  const HOMODYNE_D: nat := 10
  const LINEAR_FF_B: nat := 12
  const LINEAR_FF_D: nat := 13

  function MacronodeOpIdx(k: nat, opType: nat): nat {
    k * OPS_PER_MACRONODE + opType
  }

  // ----- operations -----

  /** Operation j of macronode k. */
  function OpAt(f: Functions, cfg: Config, level: real, k: nat, j: nat): Op
    requires cfg.Valid() && k < cfg.Total() && j < OPS_PER_MACRONODE
  {
    var n := cfg.n;
    var s0, s1, s2, s3, s4, slast :=
      ModeIdx(n, k, 0), ModeIdx(n, k, 1), ModeIdx(n, k, 2), ModeIdx(n, k, 3), ModeIdx(n, k, 4), ModeIdx(n, k, n + 4);
    match j
    case 0 => Emplace(Displacement, [s0], [cfg.displacements1[k].x, cfg.displacements1[k].p])
    case 1 => Emplace(Displacement, [s1], [cfg.displacementsN[k].x, cfg.displacementsN[k].p])
    case 2 => Emplace(BeamSplitter50, [s0, s1], [])
    case 3 => Emplace(BeamSplitter50, [s3, s4], [])
    case 4 => Emplace(BeamSplitter50, [s2, slast], [])
    case 5 => Emplace(BeamSplitter50, [s0, s3], [])
    case 6 => Emplace(BeamSplitter50, [s1, s2], [])
    case 7 => Emplace(HomodyneSingleMode, [s3], [cfg.angles[k].a])
    case 8 => Emplace(HomodyneSingleMode, [s0], [cfg.angles[k].b])
    case 9 => Emplace(HomodyneSingleMode, [s2], [cfg.angles[k].c])
    case 10 => Emplace(HomodyneSingleMode, [s1], [cfg.angles[k].d])
    case 11 => Emplace(BeamSplitter50, [slast, s4], [])
    case 12 => Emplace(Displacement, [s4], [0.0, 0.0])
    case 13 => Emplace(Displacement, [slast], [0.0, 0.0])
    case 14 => Emplace(ReplaceBySqueezedState, [ModeIdx(n, k + 1, 2)], [level, f.halfPi])
    case 15 => Emplace(ReplaceBySqueezedState, [ModeIdx(n, k + 1, 3)], [level, f.halfPi])
    case 16 => Emplace(ReplaceBySqueezedState, [ModeIdx(n, k + 1, 4)], [level, 0.0])
    case _ => Emplace(ReplaceBySqueezedState, [ModeIdx(n, k + 1, n + 4)], [level, 0.0])
  }

  function Block(f: Functions, cfg: Config, level: real, k: nat): (r: seq<Op>)
    requires cfg.Valid() && k < cfg.Total()
    ensures |r| == OPS_PER_MACRONODE
  {
    seq(OPS_PER_MACRONODE, j requires 0 <= j < OPS_PER_MACRONODE => OpAt(f, cfg, level, k, j))
  }

  /** The blocks of the first k macronodes, one after the other. */
  function Macronodes(f: Functions, cfg: Config, level: real, k: nat): (r: seq<Op>)
    requires cfg.Valid() && k <= cfg.Total()
    ensures |r| == k * OPS_PER_MACRONODE
  {
    if k == 0 then [] else Macronodes(f, cfg, level, k - 1) + Block(f, cfg, level, k - 1)
  }

  lemma {:induction false} MacronodesAt(f: Functions, cfg: Config, level: real, total: nat, k: nat, j: nat)
    requires cfg.Valid() && k < total <= cfg.Total() && j < OPS_PER_MACRONODE
    ensures MacronodeOpIdx(k, j) < |Macronodes(f, cfg, level, total)|
    ensures Macronodes(f, cfg, level, total)[MacronodeOpIdx(k, j)] == OpAt(f, cfg, level, k, j)
  {
    if k < total - 1 {
      MacronodesAt(f, cfg, level, total - 1, k, j);
    }
  }

  /** Every index into the circuit is operation j of macronode k. */
  lemma {:induction false} IndexSplit(i: nat, total: nat) returns (k: nat, j: nat)
    requires i < total * OPS_PER_MACRONODE
    ensures k < total && j < OPS_PER_MACRONODE && i == MacronodeOpIdx(k, j)
  {
    k, j := i / OPS_PER_MACRONODE, i % OPS_PER_MACRONODE;
  }

  // ----- nonlinear feedforward -----

  function HomodyneOps(k: nat): seq<nat> {
    [MacronodeOpIdx(k, HOMODYNE_A), MacronodeOpIdx(k, HOMODYNE_B), MacronodeOpIdx(k, HOMODYNE_C), MacronodeOpIdx(k, HOMODYNE_D)]
  }

  /** Four measured values out of a longer list; the lists feedforwards receive are long enough. */
  function FourOf(m: seq<real>, i: nat): Measured {
    if i + 4 <= |m| then Measured(m[i], m[i + 1], m[i + 2], m[i + 3]) else Measured(0.0, 0.0, 0.0, 0.0)
  }

  function NonlinearFunction(abcd: nat, func: seq<real> -> real): seq<real> -> real {
    (m: seq<real>) => func([MReadout(abcd, FourOf(m, 0))])
  }

  function NonlinearTarget(nlff: MachineryFF): Option<ParamIdx> {
    var k := nlff.toMacronode;
    match nlff.toParameter
    case 0 => Some(ParamIdx(MacronodeOpIdx(k, HOMODYNE_A), 0))
    case 1 => Some(ParamIdx(MacronodeOpIdx(k, HOMODYNE_B), 0))
    case 2 => Some(ParamIdx(MacronodeOpIdx(k, HOMODYNE_C), 0))
    case 3 => Some(ParamIdx(MacronodeOpIdx(k, HOMODYNE_D), 0))
    case 4 => Some(ParamIdx(MacronodeOpIdx(k, DISPLACEMENT_B), 0))
    case 5 => Some(ParamIdx(MacronodeOpIdx(k, DISPLACEMENT_B), 1))
    case 6 => Some(ParamIdx(MacronodeOpIdx(k, DISPLACEMENT_D), 0))
    case 7 => Some(ParamIdx(MacronodeOpIdx(k, DISPLACEMENT_D), 1))
    case _ => None
  }

  /** The feedforward of nonlinear feedforward i. */
  function Nonlinear(cfg: Config, i: nat): FeedForward
    requires cfg.Valid() && i < |cfg.nlffs| && NonlinearTarget(cfg.nlffs[i]).Some?
  {
    var nlff := cfg.nlffs[i];
    FeedForward(HomodyneOps(nlff.fromMacronode), NonlinearTarget(nlff).value,
                NonlinearFunction(nlff.fromAbcd, cfg.functions[nlff.function_]))
  }

  /** The first i nonlinear feedforwards have valid targets, no two of them the same. */
  ghost predicate NonlinearOk(cfg: Config, i: nat)
    requires i <= |cfg.nlffs|
  {
    && (forall l | 0 <= l < i :: NonlinearTarget(cfg.nlffs[l]).Some?)
    && (forall l, l' | 0 <= l < l' < i :: NonlinearTarget(cfg.nlffs[l]) != NonlinearTarget(cfg.nlffs[l']))
  }

  function Nonlinears(cfg: Config, i: nat): (r: seq<FeedForward>)
    requires cfg.Valid() && i <= |cfg.nlffs|
    requires forall l | 0 <= l < i :: NonlinearTarget(cfg.nlffs[l]).Some?
    ensures |r| == i && forall l | 0 <= l < i :: r[l] == Nonlinear(cfg, l)
  {
    seq(i, l requires 0 <= l < i => Nonlinear(cfg, l))
  }

  // ----- linear feedforward -----

  /** Homodyne angle a, b, c or d of a macronode. */
  function AngleIdx(k: nat, i: nat): ParamIdx {
    ParamIdx(MacronodeOpIdx(k, HOMODYNE_A + i), 0)
  }

  datatype Four<+T> = Four(a: T, b: T, c: T, d: T) {
    function At(i: nat): T
      requires i < 4
    {
      match i case 0 => a case 1 => b case 2 => c case _ => d
    }
  }

  type Writers = Four<Option<FeedForward>>

  /** `GetNLFFsToHomodyneAngle`. */
  ghost function AngleWriters(ffs: seq<FeedForward>, k: nat): Writers {
    Four(Writer(ffs, AngleIdx(k, 0)), Writer(ffs, AngleIdx(k, 1)), Writer(ffs, AngleIdx(k, 2)), Writer(ffs, AngleIdx(k, 3)))
  }

  /** Where the measured values for angle i start among the values the linear feedforward receives. */
  function MovingIndex(w: Writers, i: nat): nat
    requires i <= 4
  {
    if i == 0 then 4 else MovingIndex(w, i - 1) + (if w.At(i - 1).Some? then 4 else 0)
  }

  /** Angle i as the linear feedforward sees it. */
  function AngleSeen(w: Writers, angles: MacronodeAngle, m: seq<real>, i: nat): real
    requires i < 4
  {
    if w.At(i).Some? then
      var v := FourOf(m, MovingIndex(w, i));
      w.At(i).value.func([v.a, v.b, v.c, v.d])
    else
      Four(angles.a, angles.b, angles.c, angles.d).At(i)
  }

  function AnglesSeen(w: Writers, angles: MacronodeAngle, m: seq<real>): MacronodeAngle {
    MacronodeAngle(AngleSeen(w, angles, m, 0), AngleSeen(w, angles, m, 1), AngleSeen(w, angles, m, 2), AngleSeen(w, angles, m, 3))
  }

  /** The loop of the closure made by `CreateMParametrizedFIMac`. */
  method ParametrizedAngles(w: Writers, angles: MacronodeAngle, m: seq<real>) returns (seen: MacronodeAngle)
    requires |m| >= MovingIndex(w, 4)
    ensures seen == AnglesSeen(w, angles, m)
  {
    var original := Four(angles.a, angles.b, angles.c, angles.d);
    var theta: seq<real> := [];
    var iM := 4;
    for iTheta := 0 to 4
      invariant |theta| == iTheta && iM == MovingIndex(w, iTheta)
      invariant forall i | 0 <= i < iTheta :: theta[i] == AngleSeen(w, angles, m, i)
    {
      MovingIndexGrows(w, iTheta + 1);
      if w.At(iTheta).Some? {
        theta := theta + [w.At(iTheta).value.func([m[iM], m[iM + 1], m[iM + 2], m[iM + 3]])];
        iM := iM + 4;
      } else {
        theta := theta + [original.At(iTheta)];
      }
    }
    seen := MacronodeAngle(theta[0], theta[1], theta[2], theta[3]);
  }

  lemma {:induction false} MovingIndexGrows(w: Writers, i: nat)
    requires i <= 4
    ensures MovingIndex(w, i) <= MovingIndex(w, 4)
    decreases 4 - i
  {
    if i < 4 {
      MovingIndexGrows(w, i + 1);
    }
  }

  /** The function of a linear feedforward: component (first or second output, x or p) of FIMac. */
  function LinearFunction(f: Functions, w: Writers, angles: MacronodeAngle, second: bool, p: bool): seq<real> -> real {
    (m: seq<real>) =>
      var (d1, dn) := FIMac(f, AnglesSeen(w, angles, m), FourOf(m, 0));
      var d := if second then dn else d1;
      if p then d.p else d.x
  }

  function SourcesOf(w: Option<FeedForward>): seq<nat> {
    if w.Some? then w.value.sources else []
  }

  function LinearSources(w: Writers, k: nat): seq<nat> {
    HomodyneOps(k) + SourcesOf(w.a) + SourcesOf(w.b) + SourcesOf(w.c) + SourcesOf(w.d)
  }

  function Linear(f: Functions, cfg: Config, w: Writers, k: nat, second: bool, p: bool): FeedForward
    requires k < |cfg.angles|
  {
    FeedForward(LinearSources(w, k),
                ParamIdx(MacronodeOpIdx(k, if second then LINEAR_FF_D else LINEAR_FF_B), if p then 1 else 0),
                LinearFunction(f, w, cfg.angles[k], second, p))
  }

  /** The linear feedforwards to one of the two outputs of macronode k. */
  function LinearTo(f: Functions, cfg: Config, w: Writers, k: nat, second: bool): seq<FeedForward>
    requires cfg.Valid() && k < cfg.Total()
  {
    if (if second then cfg.methodsN[k] else cfg.methods1[k]) == FromHomodyneAngles then
      [Linear(f, cfg, w, k, second, false), Linear(f, cfg, w, k, second, true)]
    else []
  }

  /** The linear feedforwards of the first k macronodes. */
  ghost function Linears(f: Functions, cfg: Config, nonlinears: seq<FeedForward>, k: nat): seq<FeedForward>
    requires cfg.Valid() && k <= cfg.Total()
  {
    if k == 0 then []
    else
      var w := AngleWriters(nonlinears, k - 1);
      Linears(f, cfg, nonlinears, k - 1) + (LinearTo(f, cfg, w, k - 1, false) + LinearTo(f, cfg, w, k - 1, true))
  }

  /** The generation methods of the first k macronodes are specified. */
  predicate MethodsOk(cfg: Config, k: nat)
    requires cfg.Valid() && k <= cfg.Total()
  {
    forall l | 0 <= l < k :: cfg.methods1[l] != Unspecified && cfg.methodsN[l] != Unspecified
  }

  /** The programs the compiler accepts. */
  ghost predicate Compiles(cfg: Config)
    requires cfg.Valid()
  {
    NonlinearOk(cfg, |cfg.nlffs|) && MethodsOk(cfg, cfg.Total())
  }

  ghost function MachineryOps(f: Functions, cfg: Config, level: real): seq<Op>
    requires cfg.Valid()
  {
    Macronodes(f, cfg, level, cfg.Total())
  }

  ghost function MachineryFFs(f: Functions, cfg: Config): seq<FeedForward>
    requires cfg.Valid() && Compiles(cfg)
  {
    var nonlinears := Nonlinears(cfg, |cfg.nlffs|);
    nonlinears + Linears(f, cfg, nonlinears, cfg.Total())
  }
}
