/** What the circuits of the measurement-based compiler do in every run. */
module MachineryRuns {
  import opened Elementary
  import opened Operations
  import opened Engine
  import opened CircuitObject
  import opened Points
  import opened Teleportation
  import opened Machinery
  import opened MachineryCompiler
  import opened Resolution

  // ----- the feedforwards, one by one -----

  /** Linear feedforward is computed for this output of macronode k. */
  predicate Generated(cfg: Config, k: nat, second: bool)
    requires cfg.Valid()
  {
    k < cfg.Total() && (if second then cfg.methodsN[k] else cfg.methods1[k]) == FromHomodyneAngles
  }

  ghost function LinearOf(f: Functions, cfg: Config, nonlinears: seq<FeedForward>, k: nat, second: bool, p: bool): FeedForward
    requires cfg.Valid() && k < cfg.Total()
  {
    Linear(f, cfg, AngleWriters(nonlinears, k), k, second, p)
  }

  ghost predicate IsLinear(f: Functions, cfg: Config, nonlinears: seq<FeedForward>, ff: FeedForward, k: nat, second: bool, p: bool)
    requires cfg.Valid()
  {
    Generated(cfg, k, second) && ff == LinearOf(f, cfg, nonlinears, k, second, p)
  }

  lemma {:induction false} LinearsAre(f: Functions, cfg: Config, nonlinears: seq<FeedForward>, total: nat, n: nat)
    returns (k: nat, second: bool, p: bool)
    requires cfg.Valid() && total <= cfg.Total() && n < |Linears(f, cfg, nonlinears, total)|
    ensures k < total && IsLinear(f, cfg, nonlinears, Linears(f, cfg, nonlinears, total)[n], k, second, p)
  {
    hide Linear;
    var front := Linears(f, cfg, nonlinears, total - 1);
    if n < |front| {
      k, second, p := LinearsAre(f, cfg, nonlinears, total - 1, n);
    } else {
      var w := AngleWriters(nonlinears, total - 1);
      var first, i := LinearTo(f, cfg, w, total - 1, false), n - |front|;
      k := total - 1;
      second := i >= |first|;
      p := (if second then i - |first| else i) == 1;
    }
  }

  lemma {:induction false} LinearIsThere(f: Functions, cfg: Config, nonlinears: seq<FeedForward>, total: nat, k: nat, second: bool, p: bool)
    requires cfg.Valid() && k < total <= cfg.Total() && Generated(cfg, k, second)
    ensures LinearOf(f, cfg, nonlinears, k, second, p) in Linears(f, cfg, nonlinears, total)
  {
    hide Linear;
    if k < total - 1 {
      LinearIsThere(f, cfg, nonlinears, total - 1, k, second, p);
    } else {
      var w := AngleWriters(nonlinears, k);
      var to := LinearTo(f, cfg, w, k, second);
      assert LinearOf(f, cfg, nonlinears, k, second, p) == to[if p then 1 else 0];
      var both := LinearTo(f, cfg, w, k, false) + LinearTo(f, cfg, w, k, true);
      assert to[if p then 1 else 0] in both;
      assert Linears(f, cfg, nonlinears, total) == Linears(f, cfg, nonlinears, total - 1) + both;
    }
  }

  // ----- well-formed and causal -----

  lemma {:induction false} HomodyneOpsAre(f: Functions, cfg: Config, level: real, k: nat, s: nat)
    requires cfg.Valid() && k < cfg.Total() && s in HomodyneOps(k)
    ensures s < |MachineryOps(f, cfg, level)| && IsMeasurement(MachineryOps(f, cfg, level)[s].kind)
    ensures MacronodeOpIdx(k, HOMODYNE_A) <= s <= MacronodeOpIdx(k, HOMODYNE_D)
  {
    hide Macronodes;
    var j :| 0 <= j < 4 && s == HomodyneOps(k)[j];
    assert s == MacronodeOpIdx(k, HOMODYNE_A + j);
    MacronodesAt(f, cfg, level, cfg.Total(), k, HOMODYNE_A + j);
  }

  lemma {:induction false} NonlinearFits(f: Functions, cfg: Config, level: real, i: nat)
    requires cfg.Valid() && cfg.Forward() && i < |cfg.nlffs| && NonlinearTarget(cfg.nlffs[i]).Some?
    ensures WellFormedFF(MachineryOps(f, cfg, level), Nonlinear(cfg, i))
    ensures MaxSource(Nonlinear(cfg, i).sources) < Nonlinear(cfg, i).target.op
  {
    hide Macronodes, NonlinearFunction;
    var nlff := cfg.nlffs[i];
    var from, to := nlff.fromMacronode, nlff.toMacronode;
    forall s | s in HomodyneOps(from)
      ensures s < |MachineryOps(f, cfg, level)| && IsMeasurement(MachineryOps(f, cfg, level)[s].kind)
      ensures s <= MacronodeOpIdx(from, HOMODYNE_D) < MacronodeOpIdx(to, 0)
    {
      HomodyneOpsAre(f, cfg, level, from, s);
    }
    var t := NonlinearTarget(nlff).value;
    MacronodesAt(f, cfg, level, cfg.Total(), to, t.op - MacronodeOpIdx(to, 0));
  }

  /** The nonlinear feedforwards that write an angle of macronode k come from earlier macronodes. */
  lemma {:induction false} WriterIsEarlier(cfg: Config, k: nat, i: nat) returns (from: nat)
    requires cfg.Valid() && Compiles(cfg) && cfg.Forward() && i < 4
    requires AngleWriters(Nonlinears(cfg, |cfg.nlffs|), k).At(i).Some?
    ensures from < k && AngleWriters(Nonlinears(cfg, |cfg.nlffs|), k).At(i).value.sources == HomodyneOps(from)
  {
    hide NonlinearFunction;
    var ffs := Nonlinears(cfg, |cfg.nlffs|);
    var ff := AngleWriters(ffs, k).At(i).value;
    var n :| 0 <= n < |ffs| && ff == ffs[n] && ffs[n].target == AngleIdx(k, i);
    assert ffs[n] == Nonlinear(cfg, n);
    from := cfg.nlffs[n].fromMacronode;
    SameMacronode(cfg.nlffs[n], k, i);
  }

  lemma {:induction false} SameMacronode(nlff: MachineryFF, k: nat, i: nat)
    requires NonlinearTarget(nlff) == Some(AngleIdx(k, i)) && i < 4
    ensures nlff.toMacronode == k && nlff.toParameter == i
  {
  }

  lemma {:induction false} LinearFits(f: Functions, cfg: Config, level: real, k: nat, second: bool, p: bool)
    requires cfg.Valid() && Compiles(cfg) && cfg.Forward() && k < cfg.Total()
    ensures var ff := LinearOf(f, cfg, Nonlinears(cfg, |cfg.nlffs|), k, second, p);
      WellFormedFF(MachineryOps(f, cfg, level), ff) && MaxSource(ff.sources) < ff.target.op
  {
    hide Macronodes, LinearFunction, MachineryOps;
    var w := AngleWriters(Nonlinears(cfg, |cfg.nlffs|), k);
    var ff := LinearOf(f, cfg, Nonlinears(cfg, |cfg.nlffs|), k, second, p);
    forall s | s in ff.sources
      ensures s < |MachineryOps(f, cfg, level)| && IsMeasurement(MachineryOps(f, cfg, level)[s].kind)
      ensures s <= MacronodeOpIdx(k, HOMODYNE_D)
    {
      if s in HomodyneOps(k) {
        HomodyneOpsAre(f, cfg, level, k, s);
      } else {
        var i := if s in SourcesOf(w.a) then 0 else if s in SourcesOf(w.b) then 1 else if s in SourcesOf(w.c) then 2 else 3;
        var from := WriterIsEarlier(cfg, k, i);
        HomodyneOpsAre(f, cfg, level, from, s);
      }
    }
    var t := ff.target;
    LinearTargetExists(f, cfg, level, k, second, p);
  }

  lemma {:induction false} LinearTargetExists(f: Functions, cfg: Config, level: real, k: nat, second: bool, p: bool)
    requires cfg.Valid() && k < cfg.Total()
    ensures HasParam(MachineryOps(f, cfg, level), ParamIdx(MacronodeOpIdx(k, if second then LINEAR_FF_D else LINEAR_FF_B), if p then 1 else 0))
  {
    hide Macronodes;
    MacronodesAt(f, cfg, level, cfg.Total(), k, if second then LINEAR_FF_D else LINEAR_FF_B);
  }

  lemma {:induction false} LinearTargetsDiffer(f: Functions, cfg: Config, nonlinears: seq<FeedForward>, total: nat)
    requires cfg.Valid() && total <= cfg.Total() && LinearFrom(nonlinears, 0) && UniqueTargets(nonlinears)
    ensures UniqueTargets(nonlinears + Linears(f, cfg, nonlinears, total))
    ensures LinearFrom(nonlinears + Linears(f, cfg, nonlinears, total), total)
  {
    hide Linears, UniqueTargets, LinearFrom, AngleWriters, LinearTo;
    if total == 0 {
      NoLinears(f, cfg, nonlinears);
    } else {
      LinearTargetsDiffer(f, cfg, nonlinears, total - 1);
      var before := nonlinears + Linears(f, cfg, nonlinears, total - 1);
      var w := AngleWriters(nonlinears, total - 1);
      MoreTargets(f, cfg, w, total - 1, before);
      SumIsNext(nonlinears, Linears(f, cfg, nonlinears, total - 1), LinearTo(f, cfg, w, total - 1, false), LinearTo(f, cfg, w, total - 1, true));
      LinearsStep(f, cfg, nonlinears, total);
    }
  }

  lemma {:induction false} NoLinears(f: Functions, cfg: Config, nonlinears: seq<FeedForward>)
    requires cfg.Valid()
    ensures nonlinears + Linears(f, cfg, nonlinears, 0) == nonlinears
  {
  }

  lemma {:induction false} TargetsDiffer(f: Functions, cfg: Config)
    requires cfg.Valid() && Compiles(cfg)
    ensures UniqueTargets(MachineryFFs(f, cfg))
  {
    var nonlinears := Nonlinears(cfg, |cfg.nlffs|);
    hide Linears, UniqueTargets, LinearFrom;
    NonlinearTargetsDiffer(cfg);
    NonlinearsKeepClear(cfg);
    LinearTargetsDiffer(f, cfg, nonlinears, cfg.Total());
  }

  lemma {:induction false} NonlinearTargetsDiffer(cfg: Config)
    requires cfg.Valid() && Compiles(cfg)
    ensures UniqueTargets(Nonlinears(cfg, |cfg.nlffs|))
  {
    hide NonlinearTarget, NonlinearFunction;
    var nonlinears := Nonlinears(cfg, |cfg.nlffs|);
    forall m, n | 0 <= m < n < |nonlinears| ensures nonlinears[m].target != nonlinears[n].target {
      assert nonlinears[m] == Nonlinear(cfg, m) && nonlinears[n] == Nonlinear(cfg, n);
    }
  }

  lemma {:induction false} LinearsStep(f: Functions, cfg: Config, nonlinears: seq<FeedForward>, total: nat)
    requires cfg.Valid() && 0 < total <= cfg.Total()
    ensures var w := AngleWriters(nonlinears, total - 1);
      Linears(f, cfg, nonlinears, total)
      == Linears(f, cfg, nonlinears, total - 1) + (LinearTo(f, cfg, w, total - 1, false) + LinearTo(f, cfg, w, total - 1, true))
  {
  }

  lemma {:induction false} MoreTargets(f: Functions, cfg: Config, w: Writers, k: nat, before: seq<FeedForward>)
    requires cfg.Valid() && k < cfg.Total() && LinearFrom(before, k) && UniqueTargets(before)
    ensures UniqueTargets(before + LinearTo(f, cfg, w, k, false) + LinearTo(f, cfg, w, k, true))
    ensures LinearFrom(before + LinearTo(f, cfg, w, k, false) + LinearTo(f, cfg, w, k, true), k + 1)
  {
    hide LinearSources, LinearFunction;
    var first, second := LinearTo(f, cfg, w, k, false), LinearTo(f, cfg, w, k, true);
    var all := before + first + second;
    forall m, n | 0 <= m < n < |all| ensures all[m].target != all[n].target {
      if n < |before| {
        assert all[m] == before[m] && all[n] == before[n];
      } else if m < |before| {
        assert all[m] == before[m];
      }
    }
  }

  lemma {:induction false} EachFits(f: Functions, cfg: Config, level: real, n: nat)
    requires cfg.Valid() && Compiles(cfg) && cfg.Forward() && n < |MachineryFFs(f, cfg)|
    ensures var ff := MachineryFFs(f, cfg)[n];
      WellFormedFF(MachineryOps(f, cfg, level), ff) && MaxSource(ff.sources) < ff.target.op
  {
    hide MachineryOps, LinearOf, Linears, Linear, Config.Forward, WellFormedFF;
    var nonlinears, ffs := Nonlinears(cfg, |cfg.nlffs|), MachineryFFs(f, cfg);
    if n < |nonlinears| {
      assert ffs[n] == Nonlinear(cfg, n);
      AllHaveTargets(cfg, n);
      NonlinearFits(f, cfg, level, n);
    } else {
      var k, second, p := LinearsAre(f, cfg, nonlinears, cfg.Total(), n - |nonlinears|);
      LinearFits(f, cfg, level, k, second, p);
    }
  }

  lemma {:induction false} ForwardIsEnough(f: Functions, cfg: Config, level: real)
    requires cfg.Valid() && Compiles(cfg) && cfg.Forward()
    ensures WellFormed(MachineryOps(f, cfg, level), MachineryFFs(f, cfg)) && Causal(MachineryFFs(f, cfg))
  {
    TargetsDiffer(f, cfg);
    var ffs := MachineryFFs(f, cfg);
    assert UniqueTargets(ffs);
    hide *;
    forall n | 0 <= n < |ffs|
      ensures WellFormedFF(MachineryOps(f, cfg, level), ffs[n]) && MaxSource(ffs[n].sources) < ffs[n].target.op
    {
      EachFits(f, cfg, level, n);
    }
    FitTogether(MachineryOps(f, cfg, level), ffs);
  }

  lemma {:induction false} FitTogether(ops: seq<Op>, ffs: seq<FeedForward>)
    requires UniqueTargets(ffs)
    requires forall n | 0 <= n < |ffs| :: WellFormedFF(ops, ffs[n]) && MaxSource(ffs[n].sources) < ffs[n].target.op
    ensures WellFormed(ops, ffs) && Causal(ffs)
  {
  }

  lemma {:induction false} AllHaveTargets(cfg: Config, i: nat)
    requires cfg.Valid() && Compiles(cfg) && i < |cfg.nlffs|
    ensures NonlinearTarget(cfg.nlffs[i]).Some?
  {
  }

  /** A nonlinear feedforward that does not lead forward makes the circuit ill-formed or acausal. */
  lemma {:induction false} ForwardIsNeeded(f: Functions, cfg: Config, level: real, i: nat)
    requires cfg.Valid() && Compiles(cfg) && i < |cfg.nlffs|
    requires WellFormed(MachineryOps(f, cfg, level), MachineryFFs(f, cfg)) && Causal(MachineryFFs(f, cfg))
    ensures cfg.nlffs[i].fromMacronode < cfg.nlffs[i].toMacronode < cfg.Total()
  {
    hide MachineryOps, NonlinearFunction, Linears, UniqueTargets;
    var ffs, nlff := MachineryFFs(f, cfg), cfg.nlffs[i];
    AllHaveTargets(cfg, i);
    assert ffs[i] == Nonlinear(cfg, i);
    assert WellFormedFF(MachineryOps(f, cfg, level), ffs[i]);
    assert MacronodeOpIdx(nlff.fromMacronode, HOMODYNE_D) == ffs[i].sources[3] && ffs[i].sources[3] in ffs[i].sources;
    assert MaxSource(ffs[i].sources) < ffs[i].target.op < |MachineryOps(f, cfg, level)|;
    assert |MachineryOps(f, cfg, level)| == cfg.Total() * OPS_PER_MACRONODE by { CircuitLength(f, cfg, level); }
  }

  lemma {:induction false} CircuitLength(f: Functions, cfg: Config, level: real)
    requires cfg.Valid()
    ensures |MachineryOps(f, cfg, level)| == cfg.Total() * OPS_PER_MACRONODE
  {
  }

  /** A circuit of the compiler is well formed and causal exactly when its nonlinear feedforwards lead
      forward; linear feedforward never spoils it. */
  lemma {:induction false} MachineryWellFormed(f: Functions, cfg: Config, level: real)
    requires cfg.Valid() && Compiles(cfg)
    ensures cfg.Forward() <==> WellFormed(MachineryOps(f, cfg, level), MachineryFFs(f, cfg)) && Causal(MachineryFFs(f, cfg))
  {
    hide WellFormed, Causal, Compiles;
    if cfg.Forward() {
      ForwardIsEnough(f, cfg, level);
    }
    if WellFormed(MachineryOps(f, cfg, level), MachineryFFs(f, cfg)) && Causal(MachineryFFs(f, cfg)) {
      forall i | 0 <= i < |cfg.nlffs| ensures cfg.nlffs[i].fromMacronode < cfg.nlffs[i].toMacronode < cfg.Total() {
        ForwardIsNeeded(f, cfg, level, i);
      }
    }
  }

  // ----- the angles a macronode is measured with -----

  /** Each nonlinear feedforward finds its own values in the list of the linear one. */
  lemma {:induction false} SliceAligned(w: Writers, k: nat, i: nat, j: nat)
    requires i < 4 && j < 4 && w.At(i).Some? && WholeMacronodes(w)
    ensures |w.At(i).value.sources| == 4
    ensures MovingIndex(w, i) + 4 <= |LinearSources(w, k)|
    ensures LinearSources(w, k)[MovingIndex(w, i) + j] == w.At(i).value.sources[j]
  {
    assert w.At(0) == w.a && w.At(1) == w.b && w.At(2) == w.c && w.At(3) == w.d;
    assert |SourcesOf(w.a)| == (if w.a.Some? then 4 else 0) && |SourcesOf(w.b)| == (if w.b.Some? then 4 else 0);
    assert |SourcesOf(w.c)| == (if w.c.Some? then 4 else 0) && |SourcesOf(w.d)| == (if w.d.Some? then 4 else 0);
    assert MovingIndex(w, 1) == 4 + |SourcesOf(w.a)| && MovingIndex(w, 2) == MovingIndex(w, 1) + |SourcesOf(w.b)|;
    assert MovingIndex(w, 3) == MovingIndex(w, 2) + |SourcesOf(w.c)|;
    hide HomodyneOps, MovingIndex;
    assert |HomodyneOps(k)| == 4 by { FourHomodynes(k); }
    assert MovingIndex(w, 0) == 4 by { MovingIndexStart(w); }
  }

  lemma {:induction false} FourHomodynes(k: nat)
    ensures |HomodyneOps(k)| == 4
  {
  }

  lemma {:induction false} MovingIndexStart(w: Writers)
    ensures MovingIndex(w, 0) == 4
  {
  }

  /** The values measured in macronode k. */
  function MeasuredIn(measured: map<nat, real>, k: nat): Measured
    requires Readable(HomodyneOps(k), measured)
  {
    var v := Values(HomodyneOps(k), measured);
    Measured(v[0], v[1], v[2], v[3])
  }

  /** The angles the measurements of macronode k hold. */
  function AnglesIn(ops: seq<Op>, k: nat): MacronodeAngle
    requires forall i | 0 <= i < 4 :: HasParam(ops, AngleIdx(k, i))
  {
    MacronodeAngle(Param(ops, AngleIdx(k, 0)), Param(ops, AngleIdx(k, 1)), Param(ops, AngleIdx(k, 2)), Param(ops, AngleIdx(k, 3)))
  }

  /** Parameter x or p of the displacement after macronode k. */
  function LinearIdx(k: nat, second: bool, p: bool): ParamIdx {
    ParamIdx(MacronodeOpIdx(k, if second then LINEAR_FF_D else LINEAR_FF_B), if p then 1 else 0)
  }

  /** The linear feedforward sees, for angle i, the value its nonlinear feedforward wrote. */
  lemma {:induction false} AngleSeenIs(w: Writers, angles: MacronodeAngle, k: nat, measured: map<nat, real>, i: nat)
    requires i < 4 && WholeMacronodes(w) && Readable(LinearSources(w, k), measured)
    ensures w.At(i).Some? ==> Readable(w.At(i).value.sources, measured)
    ensures AngleSeen(w, angles, Values(LinearSources(w, k), measured), i)
            == if w.At(i).Some? then w.At(i).value.func(Values(w.At(i).value.sources, measured))
               else Four(angles.a, angles.b, angles.c, angles.d).At(i)
  {
    if w.At(i).Some? {
      hide LinearSources, MovingIndex, AngleSeen, FourOf, HomodyneOps, WholeMacronodes;
      var m, sources := Values(LinearSources(w, k), measured), w.At(i).value.sources;
      SliceAligned(w, k, i, 0);
      forall j: nat | j < 4
        ensures sources[j] in measured && m[MovingIndex(w, i) + j] == measured[sources[j]]
      {
        SliceAligned(w, k, i, j);
        assert sources[j] in LinearSources(w, k);
      }
      SeesValues(w, angles, m, i, Values(sources, measured));
    }
  }

  lemma {:induction false} SeesValues(w: Writers, angles: MacronodeAngle, m: seq<real>, i: nat, values: seq<real>)
    requires i < 4 && w.At(i).Some? && |values| == 4 && MovingIndex(w, i) + 4 <= |m|
    requires forall j: nat | j < 4 :: m[MovingIndex(w, i) + j] == values[j]
    ensures AngleSeen(w, angles, m, i) == w.At(i).value.func(values)
  {
    hide MovingIndex;
    var v := FourOf(m, MovingIndex(w, i));
    assert m[MovingIndex(w, i) + 0] == values[0];
    assert [v.a, v.b, v.c, v.d] == values;
  }

  lemma {:induction false} MeasuredSlice(w: Writers, k: nat, measured: map<nat, real>)
    requires Readable(LinearSources(w, k), measured)
    ensures Readable(HomodyneOps(k), measured)
    ensures FourOf(Values(LinearSources(w, k), measured), 0) == MeasuredIn(measured, k)
  {
    forall s | s in HomodyneOps(k) ensures s in measured {
      assert s in LinearSources(w, k);
    }
    var sources := LinearSources(w, k);
    assert forall j | 0 <= j < 4 :: sources[j] == HomodyneOps(k)[j];
    hide LinearSources;
  }

  /** The linear feedforward computes FIMac of the angles it sees and the values of its macronode. */
  lemma {:induction false} LinearValue(
    f: Functions, w: Writers, angles: MacronodeAngle, k: nat, measured: map<nat, real>, seen: MacronodeAngle, second: bool)
    requires WholeMacronodes(w) && Readable(LinearSources(w, k), measured)
    requires seen == AnglesSeen(w, angles, Values(LinearSources(w, k), measured))
    ensures Readable(HomodyneOps(k), measured)
    ensures var (d1, dn) := FIMac(f, seen, MeasuredIn(measured, k));
      var m := Values(LinearSources(w, k), measured);
      Quad(LinearFunction(f, w, angles, second, false)(m), LinearFunction(f, w, angles, second, true)(m)) == if second then dn else d1
  {
    hide AnglesSeen, FIMac, LinearSources;
    MeasuredSlice(w, k, measured);
  }

  /** In any assignment of final parameters that the feedforwards of a circuit leave behind, the angles
      the linear feedforward of macronode k sees are the ones its measurements hold. */
  lemma {:induction false} SeenAreHeld(
    f: Functions, cfg: Config, level: real, fin: seq<Op>, measured: map<nat, real>, k: nat)
    requires cfg.Valid() && Compiles(cfg) && cfg.Forward() && k < cfg.Total()
    requires LeftBy(MachineryOps(f, cfg, level), MachineryFFs(f, cfg), fin, measured)
    requires Readable(LinearSources(AngleWriters(Nonlinears(cfg, |cfg.nlffs|), k), k), measured)
    ensures forall i | 0 <= i < 4 :: HasParam(fin, AngleIdx(k, i))
    ensures var w := AngleWriters(Nonlinears(cfg, |cfg.nlffs|), k);
      AnglesSeen(w, cfg.angles[k], Values(LinearSources(w, k), measured)) == AnglesIn(fin, k)
  {
    var w := AngleWriters(Nonlinears(cfg, |cfg.nlffs|), k);
    hide *;
    WritersAreWhole(cfg, k) by { CompilesMeans(cfg); }
    forall i: nat | i < 4
      ensures HasParam(fin, AngleIdx(k, i))
      ensures AngleSeen(w, cfg.angles[k], Values(LinearSources(w, k), measured), i) == Param(fin, AngleIdx(k, i))
    {
      AngleSeenIs(w, cfg.angles[k], k, measured, i);
      HeldAngle(f, cfg, level, fin, measured, k, i);
    }
    Gather(w, cfg.angles[k], Values(LinearSources(w, k), measured), fin, k);
  }

  lemma {:induction false} CompilesMeans(cfg: Config)
    requires cfg.Valid() && Compiles(cfg)
    ensures NonlinearOk(cfg, |cfg.nlffs|)
  {
  }

  lemma {:induction false} Gather(w: Writers, angles: MacronodeAngle, m: seq<real>, fin: seq<Op>, k: nat)
    requires forall i: nat | i < 4 :: HasParam(fin, AngleIdx(k, i)) && AngleSeen(w, angles, m, i) == Param(fin, AngleIdx(k, i))
    ensures AnglesSeen(w, angles, m) == AnglesIn(fin, k)
  {
    hide AngleSeen;
  }

  lemma {:induction false} AngleAsBuilt(f: Functions, cfg: Config, level: real, k: nat, i: nat)
    requires cfg.Valid() && k < cfg.Total() && i < 4
    ensures HasParam(MachineryOps(f, cfg, level), AngleIdx(k, i))
    ensures var angles := cfg.angles[k];
      Param(MachineryOps(f, cfg, level), AngleIdx(k, i)) == Four(angles.a, angles.b, angles.c, angles.d).At(i)
  {
    hide Macronodes;
    MacronodesAt(f, cfg, level, cfg.Total(), k, HOMODYNE_A + i);
  }

  /** Angle i of macronode k at the end: written by its nonlinear feedforward, or as built. */
  lemma {:induction false} HeldAngle(
    f: Functions, cfg: Config, level: real, fin: seq<Op>, measured: map<nat, real>, k: nat, i: nat)
    requires cfg.Valid() && Compiles(cfg) && k < cfg.Total() && i < 4
    requires LeftBy(MachineryOps(f, cfg, level), MachineryFFs(f, cfg), fin, measured)
    ensures HasParam(fin, AngleIdx(k, i))
    ensures var w := AngleWriters(Nonlinears(cfg, |cfg.nlffs|), k);
      var angles := cfg.angles[k];
      && (w.At(i).Some? ==> Readable(w.At(i).value.sources, measured)
                            && Param(fin, AngleIdx(k, i)) == w.At(i).value.func(Values(w.At(i).value.sources, measured)))
      && (w.At(i).None? ==> Param(fin, AngleIdx(k, i)) == Four(angles.a, angles.b, angles.c, angles.d).At(i))
  {
    hide *;
    var ops, ffs, t := MachineryOps(f, cfg, level), MachineryFFs(f, cfg), AngleIdx(k, i);
    AngleAsBuilt(f, cfg, level, k, i);
    LeftByShapes(ops, ffs, fin, measured);
    ShapesKeepParams(ops, fin, t);
    WriterOfAngle(f, cfg, k, i);
    LeftByWriter(ops, ffs, fin, measured, t);
  }

  /** Only nonlinear feedforwards write angles. */
  lemma {:induction false} WriterOfAngle(f: Functions, cfg: Config, k: nat, i: nat)
    requires cfg.Valid() && Compiles(cfg) && i < 4
    ensures Writer(MachineryFFs(f, cfg), AngleIdx(k, i)) == AngleWriters(Nonlinears(cfg, |cfg.nlffs|), k).At(i)
  {
    var nonlinears, linears := Nonlinears(cfg, |cfg.nlffs|), Linears(f, cfg, Nonlinears(cfg, |cfg.nlffs|), cfg.Total());
    hide Linears, Nonlinears, Compiles, Writer;
    TargetsDiffer(f, cfg);
    forall n | 0 <= n < |linears| ensures linears[n].target != AngleIdx(k, i) {
      LinearsMissAngles(f, cfg, nonlinears, n, k, i);
    }
    OneWriterUnaffected(nonlinears, linears, AngleIdx(k, i));
  }

  lemma {:induction false} LinearsMissAngles(f: Functions, cfg: Config, nonlinears: seq<FeedForward>, n: nat, k: nat, i: nat)
    requires cfg.Valid() && n < |Linears(f, cfg, nonlinears, cfg.Total())| && i < 4
    ensures Linears(f, cfg, nonlinears, cfg.Total())[n].target != AngleIdx(k, i)
  {
    hide Linears;
    LinearsTargets(f, cfg, nonlinears, cfg.Total(), n);
  }

  /** The displacement after macronode k on its first or second output. */
  function LinearDisplacement(ops: seq<Op>, k: nat, second: bool): Quad
    requires HasParam(ops, LinearIdx(k, second, false)) && HasParam(ops, LinearIdx(k, second, true))
  {
    Quad(Param(ops, LinearIdx(k, second, false)), Param(ops, LinearIdx(k, second, true)))
  }

  /** The parameters and measured values of macronode k are all there. */
  ghost predicate Complete(ops: seq<Op>, measured: map<nat, real>, k: nat) {
    && Readable(HomodyneOps(k), measured)
    && (forall i: nat | i < 4 :: HasParam(ops, AngleIdx(k, i)))
    && (forall second, p :: HasParam(ops, LinearIdx(k, second, p)))
  }

  /** What the feedforward of macronode k has to be. */
  function Correction(f: Functions, t: MacronodeAngle, m: Measured, second: bool): Quad {
    if second then FIMac(f, t, m).1 else FIMac(f, t, m).0
  }

  lemma {:induction false} GeneratedDisplacement(
    f: Functions, cfg: Config, level: real, fin: seq<Op>, measured: map<nat, real>, k: nat, second: bool)
    requires cfg.Valid() && Compiles(cfg) && cfg.Forward() && Generated(cfg, k, second)
    requires LeftBy(MachineryOps(f, cfg, level), MachineryFFs(f, cfg), fin, measured)
    requires Complete(fin, measured, k)
    ensures LinearDisplacement(fin, k, second) == Correction(f, AnglesIn(fin, k), MeasuredIn(measured, k), second)
  {
    var nonlinears, linears := Nonlinears(cfg, |cfg.nlffs|), Linears(f, cfg, Nonlinears(cfg, |cfg.nlffs|), cfg.Total());
    var ffs, w := MachineryFFs(f, cfg), AngleWriters(nonlinears, k);
    assert ffs == nonlinears + linears;
    LinearIsThere(f, cfg, nonlinears, cfg.Total(), k, second, false);
    LinearIsThere(f, cfg, nonlinears, cfg.Total(), k, second, true);
    hide MachineryOps, MachineryFFs, Linears, Nonlinears, Compiles, AngleWriters, LinearFunction, LinearSources, MeasuredIn, AnglesIn, AnglesSeen,
      FIMac, Config.Forward, Complete;
    var x, p := LinearOf(f, cfg, nonlinears, k, second, false), LinearOf(f, cfg, nonlinears, k, second, true);
    assert x in ffs && p in ffs;
    WritersAreWhole(cfg, k) by { CompilesMeans(cfg); }
    SeenAreHeld(f, cfg, level, fin, measured, k);
    LinearValue(f, w, cfg.angles[k], k, measured, AnglesIn(fin, k), second);
  }

  lemma {:induction false} ZeroDisplacement(
    f: Functions, cfg: Config, level: real, fin: seq<Op>, measured: map<nat, real>, k: nat, second: bool)
    requires cfg.Valid() && Compiles(cfg) && k < cfg.Total() && !Generated(cfg, k, second)
    requires LeftBy(MachineryOps(f, cfg, level), MachineryFFs(f, cfg), fin, measured)
    requires Complete(fin, measured, k)
    ensures LinearDisplacement(fin, k, second) == Quad(0.0, 0.0)
  {
    var ffs := MachineryFFs(f, cfg);
    hide MachineryOps, MachineryFFs, Compiles;
    forall p
      ensures HasParam(fin, LinearIdx(k, second, p)) && Param(fin, LinearIdx(k, second, p)) == 0.0
    {
      forall n | 0 <= n < |ffs| ensures ffs[n].target != LinearIdx(k, second, p) {
        NotWritten(f, cfg, n, k, second, p);
      }
      LinearTargetExists(f, cfg, level, k, second, p);
      ShapesKeepParams(MachineryOps(f, cfg, level), fin, LinearIdx(k, second, p));
      BuiltZero(f, cfg, level, k, second, p);
    }
  }

  lemma {:induction false} BuiltZero(f: Functions, cfg: Config, level: real, k: nat, second: bool, p: bool)
    requires cfg.Valid() && k < cfg.Total() && HasParam(MachineryOps(f, cfg, level), LinearIdx(k, second, p))
    ensures Param(MachineryOps(f, cfg, level), LinearIdx(k, second, p)) == 0.0
  {
    hide Macronodes;
    MacronodesAt(f, cfg, level, cfg.Total(), k, if second then LINEAR_FF_D else LINEAR_FF_B);
  }

  lemma {:induction false} NotWritten(f: Functions, cfg: Config, n: nat, k: nat, second: bool, p: bool)
    requires cfg.Valid() && Compiles(cfg) && k < cfg.Total() && !Generated(cfg, k, second) && n < |MachineryFFs(f, cfg)|
    ensures MachineryFFs(f, cfg)[n].target != LinearIdx(k, second, p)
  {
    var nonlinears := Nonlinears(cfg, |cfg.nlffs|);
    hide Linears, LinearOf, AngleWriters, NonlinearTarget, NonlinearFunction, NonlinearOk, MacronodeOpIdx;
    if n < |nonlinears| {
      AllHaveTargets(cfg, n);
      assert MachineryFFs(f, cfg)[n] == Nonlinear(cfg, n);
      NonlinearTargetOps(cfg.nlffs[n], k);
    } else {
      var l, s, q := LinearsAre(f, cfg, nonlinears, cfg.Total(), n - |nonlinears|);
      TargetOfLinear(f, cfg, nonlinears, l, s, q);
      SameLinearTarget(l, s, q, k, second, p);
    }
  }

  lemma {:induction false} TargetOfLinear(f: Functions, cfg: Config, nonlinears: seq<FeedForward>, k: nat, second: bool, p: bool)
    requires cfg.Valid() && k < cfg.Total()
    ensures LinearOf(f, cfg, nonlinears, k, second, p).target == LinearIdx(k, second, p)
  {
  }

  lemma {:induction false} SameLinearTarget(l: nat, s: bool, q: bool, k: nat, second: bool, p: bool)
    ensures LinearIdx(l, s, q) == LinearIdx(k, second, p) ==> l == k && s == second
  {
  }

  lemma {:induction false} IsComplete(f: Functions, cfg: Config, level: real, fin: seq<Op>, measured: map<nat, real>, k: nat)
    requires cfg.Valid() && k < cfg.Total() && SameShapes(MachineryOps(f, cfg, level), fin)
    requires forall j: nat :: j in measured <==> j < |MachineryOps(f, cfg, level)| && IsMeasurement(MachineryOps(f, cfg, level)[j].kind)
    ensures Complete(fin, measured, k)
  {
    hide MachineryOps, SameShapes;
    forall s | s in HomodyneOps(k) ensures s in measured {
      HomodyneOpsAre(f, cfg, level, k, s);
    }
    forall i: nat | i < 4 ensures HasParam(fin, AngleIdx(k, i)) {
      AngleAsBuilt(f, cfg, level, k, i);
      ShapesKeepParams(MachineryOps(f, cfg, level), fin, AngleIdx(k, i));
    }
    forall second, p ensures HasParam(fin, LinearIdx(k, second, p)) {
      LinearTargetExists(f, cfg, level, k, second, p);
      ShapesKeepParams(MachineryOps(f, cfg, level), fin, LinearIdx(k, second, p));
    }
  }

  /** In every run, on any kind of state, the displacements after macronode k are FIMac of the values
      measured in macronode k and of exactly the angles they were measured with, nonlinear feedforward
      into those angles included; or zero, when the program asks for that. */
  lemma {:induction false} CorrectedWithMeasuredAngles<Peak, Rng, Sample>(
    kernel: Kernel<Peak, Rng, Sample>, f: Functions, cfg: Config, level: real, s: Exec<Peak, Rng>, k: nat)
    requires cfg.Valid() && Compiles(cfg) && cfg.Forward() && k < cfg.Total()
    requires s.ops == MachineryOps(f, cfg, level) && s.measured == map[]
    ensures Execute(kernel, MachineryFFs(f, cfg), s).Some?
    ensures var fin := Resolution.Final(kernel, MachineryFFs(f, cfg), s);
      && Complete(fin.ops, fin.measured, k)
      && (forall second :: LinearDisplacement(fin.ops, k, second) ==
            if Generated(cfg, k, second) then Correction(f, AnglesIn(fin.ops, k), MeasuredIn(fin.measured, k), second)
            else Quad(0.0, 0.0))
    ensures forall i: nat | i < |s.ops| :: ExecutedAsFinal(kernel, MachineryFFs(f, cfg), s, i)
  {
    var ffs := MachineryFFs(f, cfg);
    ForwardIsEnough(f, cfg, level);
    hide *;
    Resolution.FinalParameters(kernel, ffs, s);
    var fin := Resolution.Final(kernel, ffs, s);
    IsComplete(f, cfg, level, fin.ops, fin.measured, k);
    forall second
      ensures LinearDisplacement(fin.ops, k, second) ==
                if Generated(cfg, k, second) then Correction(f, AnglesIn(fin.ops, k), MeasuredIn(fin.measured, k), second) else Quad(0.0, 0.0)
    {
      if Generated(cfg, k, second) {
        GeneratedDisplacement(f, cfg, level, fin.ops, fin.measured, k, second);
      } else {
        ZeroDisplacement(f, cfg, level, fin.ops, fin.measured, k, second);
      }
    }
    AllExecutedAsFinal(kernel, ffs, s);
  }

  /** No feedforward is computed only where the program asks for zero: a program that leaves this open does not compile. */
  lemma {:induction false} ZeroAsProgrammed(cfg: Config, k: nat, second: bool)
    requires cfg.Valid() && Compiles(cfg) && k < cfg.Total() && !Generated(cfg, k, second)
    ensures (if second then cfg.methodsN[k] else cfg.methods1[k]) == ZeroFilled
  {
    hide NonlinearOk;
  }

  lemma {:induction false} InCircuit(f: Functions, cfg: Config, level: real, k: nat, j: nat)
    requires cfg.Valid() && k < cfg.Total() && j < OPS_PER_MACRONODE
    ensures MacronodeOpIdx(k, j) < |MachineryOps(f, cfg, level)|
  {
    MacronodesAt(f, cfg, level, cfg.Total(), k, j);
  }
}
