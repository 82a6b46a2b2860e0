/** What nonlinear feedforward does in a machinery run: the reported values it passes on and the angles and
    displacements it sets. */
module MachineryFeeding {
  import opened Elementary
  import opened Operations
  import opened Engine
  import opened Resolution
  import opened Points
  import opened Teleportation
  import opened Readout
  import opened Machinery
  import opened MachineryCompiler
  import opened MachineryRuns
  import opened MachineryPoints
  import opened MachineryBlocks
  import opened MachinerySimulation
  import Refinement

  /** What the parameters 0 to 7 of a macronode are. */
  function Aspect(data: MacronodeData, parameter: nat): real {
    match parameter
    case 0 => data.t.a
    case 1 => data.t.b
    case 2 => data.t.c
    case 3 => data.t.d
    case 4 => data.d1.x
    case 5 => data.d1.p
    case 6 => data.dn.x
    case _ => data.dn.p
  }

  /** The reported value a nonlinear feedforward asks for. */
  function Component(r: Reported, abcd: nat): real {
    match abcd case 0 => r.mA case 1 => r.mB case 2 => r.mC case _ => r.mD
  }

  function AspectIdx(k: nat, parameter: nat): ParamIdx {
    if parameter < 4 then AngleIdx(k, parameter) else InputIdx(k, parameter >= 6, parameter % 2 == 1)
  }

  lemma {:induction false} TargetIs(nlff: MachineryFF)
    requires NonlinearTarget(nlff).Some?
    ensures nlff.toParameter < 8 && NonlinearTarget(nlff) == Some(AspectIdx(nlff.toMacronode, nlff.toParameter))
  {
  }

  lemma {:induction false} AspectAt(ops: seq<Op>, k: nat, parameter: nat)
    requires Ready(ops, k) && parameter < 8
    ensures HasParam(ops, AspectIdx(k, parameter)) && Param(ops, AspectIdx(k, parameter)) == Aspect(DataOf(ops, k), parameter)
  {
    hide MacronodeOpIdx, HasParam, Param;
    var left, p := parameter >= 6, parameter % 2 == 1;
    assert HasParam(ops, InputIdx(k, left, p));
    if parameter < 4 {
      assert HasParam(ops, AngleIdx(k, parameter));
    }
  }

  lemma {:induction false} SelectedValue(abcd: nat, func: seq<real> -> real, measured: map<nat, real>, k: nat)
    requires AllMeasured(measured, k) && abcd < 4
    ensures NonlinearFunction(abcd, func)(Values(HomodyneOps(k), measured)) == func([Component(ReportOf(measured, k), abcd)])
  {
    hide MReadout, HomodyneOps;
    assert |HomodyneOps(k)| == 4 by { FourHomodynes(k); }
    assert FourOf(Values(HomodyneOps(k), measured), 0) == MeasuredIn(measured, k);
  }

  lemma {:induction false} NonlinearIs(f: Functions, cfg: Config, fin: seq<Op>, measured: map<nat, real>, level: real, i: nat)
    requires cfg.Valid() && Compiles(cfg) && i < |cfg.nlffs|
    requires LeftBy(MachineryOps(f, cfg, level), MachineryFFs(f, cfg), fin, measured)
    ensures NonlinearTarget(cfg.nlffs[i]).Some?
    ensures var ff := Nonlinear(cfg, i);
      Readable(ff.sources, measured) && HasParam(fin, ff.target) && Param(fin, ff.target) == ff.func(Values(ff.sources, measured))
  {
    hide Linears, MachineryOps, NonlinearTarget, NonlinearFunction, NonlinearOk, SameShapes, HomodyneOps, Values;
    AllHaveTargets(cfg, i);
    assert MachineryFFs(f, cfg)[i] == Nonlinear(cfg, i);
  }

  /** The parameter it names, at the end. */
  lemma {:induction false} LeftAspect(f: Functions, cfg: Config, level: real, fin: seq<Op>, measured: map<nat, real>, i: nat)
    requires cfg.Valid() && Compiles(cfg) && i < |cfg.nlffs| && cfg.nlffs[i].toMacronode < cfg.Total()
    requires LeftBy(MachineryOps(f, cfg, level), MachineryFFs(f, cfg), fin, measured)
    ensures var nlff := cfg.nlffs[i];
      && AllMeasured(measured, nlff.fromMacronode) && Ready(fin, nlff.toMacronode)
      && Aspect(DataOf(fin, nlff.toMacronode), nlff.toParameter)
         == cfg.functions[nlff.function_]([Component(ReportOf(measured, nlff.fromMacronode), nlff.fromAbcd)])
  {
    hide MachineryOps, MachineryFFs, Compiles, NonlinearTarget, NonlinearFunction, Ready, DataOf, LeftBy, Values, ReportOf;
    var nlff := cfg.nlffs[i];
    LeftByShapes(MachineryOps(f, cfg, level), MachineryFFs(f, cfg), fin, measured);
    NonlinearIs(f, cfg, fin, measured, level, i);
    IsReady(f, cfg, level, fin, nlff.toMacronode);
    TargetIs(nlff);
    AspectAt(fin, nlff.toMacronode, nlff.toParameter);
    SelectedValue(nlff.fromAbcd, cfg.functions[nlff.function_], measured, nlff.fromMacronode);
  }

  /** In every run, on any kind of state, the angle or displacement a nonlinear feedforward names ends as its
      function of the value that is reported of its source macronode. */
  lemma {:induction false} FeedsReport<Peak, Rng, Sample>(
    kernel: Kernel<Peak, Rng, Sample>, f: Functions, cfg: Config, level: real, s: Exec<Peak, Rng>, i: nat)
    requires cfg.Valid() && Compiles(cfg) && cfg.Forward() && i < |cfg.nlffs|
    requires s.ops == MachineryOps(f, cfg, level) && s.measured == map[]
    ensures Execute(kernel, MachineryFFs(f, cfg), s).Some?
    ensures var fin, nlff := Final(kernel, MachineryFFs(f, cfg), s), cfg.nlffs[i];
      && AllMeasured(fin.measured, nlff.fromMacronode) && Ready(fin.ops, nlff.toMacronode)
      && Aspect(DataOf(fin.ops, nlff.toMacronode), nlff.toParameter)
         == cfg.functions[nlff.function_]([Component(ReportOf(fin.measured, nlff.fromMacronode), nlff.fromAbcd)])
  {
    var ffs := MachineryFFs(f, cfg);
    ForwardIsEnough(f, cfg, level);
    hide WellFormed, Causal, Execute, MachineryFFs, MachineryOps, LeftBy, Compiles;
    FinalParameters(kernel, ffs, s);
    LeftAspect(f, cfg, level, Final(kernel, ffs, s).ops, Final(kernel, ffs, s).measured, i);
  }

  // ----- what is not fed -----

  ghost predicate Feeds(cfg: Config, i: nat, k: nat, parameter: nat) {
    i < |cfg.nlffs| && cfg.nlffs[i].toMacronode == k && cfg.nlffs[i].toParameter == parameter
  }

  /** The angles and displacements of macronode k as programmed. */
  function Programmed(cfg: Config, k: nat): MacronodeData
    requires cfg.Valid() && k < cfg.Total()
  {
    MacronodeData(cfg.angles[k], cfg.displacements1[k], cfg.displacementsN[k], ORIGIN, ORIGIN)
  }

  lemma {:induction false} SameAspect(k: nat, parameter: nat, l: nat, other: nat)
    requires parameter < 8 && other < 8
    ensures AspectIdx(k, parameter) == AspectIdx(l, other) ==> k == l && parameter == other
  {
  }

  lemma {:induction false} LinearsMissAspects(f: Functions, cfg: Config, nonlinears: seq<FeedForward>, n: nat, k: nat, parameter: nat)
    requires cfg.Valid() && n < |Linears(f, cfg, nonlinears, cfg.Total())| && parameter < 8
    ensures Linears(f, cfg, nonlinears, cfg.Total())[n].target != AspectIdx(k, parameter)
  {
    hide Linears;
    LinearsTargets(f, cfg, nonlinears, cfg.Total(), n);
  }

  lemma {:induction false} NobodyWrites(f: Functions, cfg: Config, k: nat, parameter: nat, n: nat)
    requires cfg.Valid() && Compiles(cfg) && parameter < 8 && (forall i :: !Feeds(cfg, i, k, parameter)) && n < |MachineryFFs(f, cfg)|
    ensures MachineryFFs(f, cfg)[n].target != AspectIdx(k, parameter)
  {
    var nonlinears := Nonlinears(cfg, |cfg.nlffs|);
    hide Linears, NonlinearFunction, NonlinearTarget, NonlinearOk, AspectIdx, HomodyneOps;
    if n < |nonlinears| {
      AllHaveTargets(cfg, n);
      assert MachineryFFs(f, cfg)[n] == Nonlinear(cfg, n);
      var nlff := cfg.nlffs[n];
      TargetIs(nlff);
      SameAspect(nlff.toMacronode, nlff.toParameter, k, parameter);
      assert !Feeds(cfg, n, k, parameter);
    } else {
      LinearsMissAspects(f, cfg, nonlinears, n - |nonlinears|, k, parameter);
    }
  }

  lemma {:induction false} AspectAsBuilt(f: Functions, cfg: Config, level: real, k: nat, parameter: nat)
    requires cfg.Valid() && k < cfg.Total() && parameter < 8
    ensures HasParam(MachineryOps(f, cfg, level), AspectIdx(k, parameter))
    ensures Param(MachineryOps(f, cfg, level), AspectIdx(k, parameter)) == Aspect(Programmed(cfg, k), parameter)
  {
    hide Macronodes, ModeAllocator.ModeIdx;
    MacronodesAt(f, cfg, level, cfg.Total(), k, if parameter < 4 then HOMODYNE_A + parameter else if parameter < 6 then DISPLACEMENT_B else DISPLACEMENT_D);
  }

  /** Every other angle and displacement of an input stays as programmed. */
  lemma {:induction false} KeepsProgrammed<Peak, Rng, Sample>(
    kernel: Kernel<Peak, Rng, Sample>, f: Functions, cfg: Config, level: real, s: Exec<Peak, Rng>, k: nat, parameter: nat)
    requires cfg.Valid() && Compiles(cfg) && cfg.Forward() && k < cfg.Total() && parameter < 8
    requires s.ops == MachineryOps(f, cfg, level) && s.measured == map[]
    requires forall i :: !Feeds(cfg, i, k, parameter)
    ensures Execute(kernel, MachineryFFs(f, cfg), s).Some?
    ensures var fin := Final(kernel, MachineryFFs(f, cfg), s);
      Ready(fin.ops, k) && Aspect(DataOf(fin.ops, k), parameter) == Aspect(Programmed(cfg, k), parameter)
  {
    var ops, ffs, t := MachineryOps(f, cfg, level), MachineryFFs(f, cfg), AspectIdx(k, parameter);
    ForwardIsEnough(f, cfg, level);
    hide WellFormed, Causal, Execute, MachineryFFs, MachineryOps, Compiles, Aspect, Programmed, DataOf, Ready, AspectIdx, Feeds;
    FinalParameters(kernel, ffs, s);
    var fin := Final(kernel, ffs, s);
    IsReady(f, cfg, level, fin.ops, k);
    AspectAt(fin.ops, k, parameter);
    AspectAsBuilt(f, cfg, level, k, parameter);
    forall n | 0 <= n < |ffs| ensures ffs[n].target != t {
      NobodyWrites(f, cfg, k, parameter, n);
    }
    NotWrittenTo(ops, ffs, fin.ops, fin.measured, t);
  }

  lemma {:induction false} NotWrittenTo(ops: seq<Op>, ffs: seq<FeedForward>, fin: seq<Op>, measured: map<nat, real>, t: ParamIdx)
    requires LeftBy(ops, ffs, fin, measured) && HasParam(ops, t) && HasParam(fin, t) && forall n | 0 <= n < |ffs| :: ffs[n].target != t
    ensures Param(fin, t) == Param(ops, t)
  {
  }

  // ----- from a measuring macronode -----

  /** The value a measuring macronode reports: a quadrature of one of its two displaced inputs, or of what its
      resources held. */
  function Observed(f: Functions, theta: real, abcd: nat, data: MacronodeData, v: seq<Quad>): real
    requires |v| == 6
  {
    match abcd
    case 0 => Quadrature(f, theta, Mix(v[3], Neg(v[4]), v[2], Neg(v[5])))
    case 1 => Quadrature(f, theta, Plus(v[0], data.d1))
    case 2 => Quadrature(f, theta, Mix(Neg(v[3]), v[4], v[2], Neg(v[5])))
    case _ => Quadrature(f, theta, Plus(v[1], data.dn))
  }

  lemma {:induction false} ObservedIs(f: Functions, theta: real, abcd: nat, data: MacronodeData, v: seq<Quad>)
    requires f.Lawful() && |v| == 6 && abcd < 4 && SameQuadratures(f, data.t, theta)
    ensures MReadout(abcd, Refinement.Outs(f, data, v).0) == Observed(f, theta, abcd, data, v)
  {
    hide Functions.Lawful, SameQuadratures, Macronode, MReadout, Quadrature, Mix, Plus, Neg;
    var b, d := Plus(v[0], data.d1), Plus(v[1], data.dn);
    SameQuadraturesRead(f, data.t, theta, b, d, v[2], v[3], v[4], v[5]);
    LocalCorrection(f, data.t, theta, b, d, v[2], v[3], v[4], v[5]);
  }

  /** On points, what reaches the target of feedforward i from a macronode that measures at theta is the theta
      quadrature of its displaced up input (for 1) or left input (for 3), whatever the squeezing. */
  lemma {:induction false} FeedsQuadrature(f: Functions, cfg: Config, level: real, pt: Point, i: nat, theta: real)
    requires f.Lawful() && cfg.Valid() && Compiles(cfg) && cfg.Forward() && i < |cfg.nlffs| && |pt.modes| == cfg.n + 5
    ensures var end, nlff := Refinement.MachineryEnd(f, cfg, level, pt), cfg.nlffs[i];
      var k := nlff.fromMacronode;
      && Ready(end.ops, k) && Ready(end.ops, nlff.toMacronode) && MacronodeOpIdx(k, 0) + 18 <= |end.ops|
      && Fits(PointAt(f, end.ops, pt, MacronodeOpIdx(k, 0)), SixModes(cfg.n, k))
      && (SameQuadratures(f, DataOf(end.ops, k).t, theta) ==>
            Aspect(DataOf(end.ops, nlff.toMacronode), nlff.toParameter)
            == cfg.functions[nlff.function_](
                 [Observed(f, theta, nlff.fromAbcd, DataOf(end.ops, k), View(PointAt(f, end.ops, pt, MacronodeOpIdx(k, 0)), SixModes(cfg.n, k)))]))
  {
    hide *;
    var end, nlff := Refinement.MachineryEnd(f, cfg, level, pt), cfg.nlffs[i];
    Refinement.EndIs(f, cfg, level, pt);
    ForwardAt(cfg, i);
    LeftAspect(f, cfg, level, end.ops, end.measured, i);
    Refinement.MeasuredAreRead(f, cfg, level, pt, nlff.fromMacronode);
    BlockOfFinal(f, cfg, level, end.ops, end.measured, nlff.fromMacronode);
    ModesStay(f, end.ops, pt, MacronodeOpIdx(nlff.fromMacronode, 0));
    Refinement.FitsSix(cfg.n, nlff.fromMacronode, PointAt(f, end.ops, pt, MacronodeOpIdx(nlff.fromMacronode, 0)));
    Refinement.BlockOuts(f, end.ops, pt, MacronodeOpIdx(nlff.fromMacronode, 0), SixModes(cfg.n, nlff.fromMacronode), level, DataOf(end.ops, nlff.fromMacronode));
    if SameQuadratures(f, DataOf(end.ops, nlff.fromMacronode).t, theta) {
      var v := View(PointAt(f, end.ops, pt, MacronodeOpIdx(nlff.fromMacronode, 0)), SixModes(cfg.n, nlff.fromMacronode));
      ObservedIs(f, theta, nlff.fromAbcd, DataOf(end.ops, nlff.fromMacronode), v);
      ReportedComponent(end.measured, nlff.fromMacronode, nlff.fromAbcd);
    }
  }

  lemma {:induction false} ForwardAt(cfg: Config, i: nat)
    requires cfg.Valid() && cfg.Forward() && i < |cfg.nlffs|
    ensures cfg.nlffs[i].fromMacronode < cfg.nlffs[i].toMacronode < cfg.Total() && cfg.nlffs[i].fromAbcd < 4
    ensures cfg.n >= 1 && cfg.nlffs[i].function_ < |cfg.functions|
  {
  }

  lemma {:induction false} ReportedComponent(measured: map<nat, real>, k: nat, abcd: nat)
    requires AllMeasured(measured, k) && abcd < 4
    ensures Readable(HomodyneOps(k), measured)
    ensures Component(ReportOf(measured, k), abcd) == MReadout(abcd, MeasuredIn(measured, k))
  {
    hide MReadout, MeasuredIn, HomodyneOps;
  }

  /** No operation changes the number of modes. */
  lemma {:induction false} ModesStay(f: Functions, ops: seq<Op>, pt: Point, i: nat)
    requires i <= |ops|
    ensures |PointAt(f, ops, pt, i).modes| == |pt.modes|
  {
    if i > 0 {
      ModesStay(f, ops, pt, i - 1);
      OneStays(f, ops[i - 1], PointAt(f, ops, pt, i - 1));
    }
  }

  lemma {:induction false} OneStays(f: Functions, op: Op, pt: Point)
    ensures |OnPoint(f, op, pt).modes| == |pt.modes|
  {
  }
}
