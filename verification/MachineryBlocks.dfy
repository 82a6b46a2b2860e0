/** The operations of a machinery circuit at the end of a run, macronode by macronode. */
module MachineryBlocks {
  import opened Elementary
  import opened Operations
  import opened Engine
  import opened Resolution
  import opened ModeAllocator
  import opened Points
  import opened Machinery
  import opened MachineryCompiler
  import opened MachineryRuns
  import opened MachineryPoints

  /** Micronodes b, d, c, a of macronode k, b of k + 1 and d of k + N. */
  function SixModes(n: nat, k: nat): seq<nat> {
    [ModeIdx(n, k, 0), ModeIdx(n, k, 1), ModeIdx(n, k, 2), ModeIdx(n, k, 3), ModeIdx(n, k, 4), ModeIdx(n, k, n + 4)]
  }

  lemma {:induction false} SixModesDistinct(n: nat, k: nat)
    requires n >= 1
    ensures Distinct(SixModes(n, k)) && forall i | 0 <= i < 6 :: SixModes(n, k)[i] < n + 5
  {
    hide ModeIdx;
    var ms := SixModes(n, k);
    forall i, j | 0 <= i < j < 6 ensures ms[i] != ms[j] {
      Injective(n, k, if i < 5 then i else n + 4, if j < 5 then j else n + 4);
    }
    forall i | 0 <= i < 6 ensures ms[i] < n + 5 {
      Injective(n, k, if i < 5 then i else n + 4, if i == 0 then 1 else 0);
    }
  }

  /** Seen from the next macronode, the four replaced modes are its fresh micronodes. */
  lemma {:induction false} NextModes(n: nat, k: nat)
    requires n >= 1
    ensures var ms, next := SixModes(n, k), SixModes(n, k + 1);
      next[2] == ms[0] && next[3] == ms[1] && next[4] == ms[2] && next[5] == ms[3] && next[0] == ms[4]
  {
    hide ModeIdx;
    RenamingStep(n, k, 0);
    RenamingStep(n, k, 2);
    RenamingStep(n, k, 3);
    RenamingStep(n, k, 4);
    RenamingStep(n, k, n + 4);
  }

  /** Parameter x or p of the displacement before macronode k on its up or left input. */
  function InputIdx(k: nat, left: bool, p: bool): ParamIdx {
    ParamIdx(MacronodeOpIdx(k, if left then DISPLACEMENT_D else DISPLACEMENT_B), if p then 1 else 0)
  }

  ghost predicate HasInputs(ops: seq<Op>, k: nat) {
    forall left, p :: HasParam(ops, InputIdx(k, left, p))
  }

  function InputDisplacement(ops: seq<Op>, k: nat, left: bool): Quad
    requires HasParam(ops, InputIdx(k, left, false)) && HasParam(ops, InputIdx(k, left, true))
  {
    Quad(Param(ops, InputIdx(k, left, false)), Param(ops, InputIdx(k, left, true)))
  }

  /** Everything macronode k acts with is there. */
  ghost predicate Ready(ops: seq<Op>, k: nat) {
    && (forall i: nat | i < 4 :: HasParam(ops, AngleIdx(k, i)))
    && (forall second, p :: HasParam(ops, LinearIdx(k, second, p)))
    && HasInputs(ops, k)
  }

  ghost function DataOf(ops: seq<Op>, k: nat): MacronodeData
    requires Ready(ops, k)
  {
    MacronodeData(AnglesIn(ops, k), InputDisplacement(ops, k, false), InputDisplacement(ops, k, true),
                  LinearDisplacement(ops, k, false), LinearDisplacement(ops, k, true))
  }

  /** Operation j of macronode k keeps its kind, its modes and what it was built with. */
  lemma {:induction false} Member(f: Functions, cfg: Config, level: real, fin: seq<Op>, k: nat, j: nat)
    requires cfg.Valid() && k < cfg.Total() && j < OPS_PER_MACRONODE && SameShapes(MachineryOps(f, cfg, level), fin)
    ensures MacronodeOpIdx(k, j) < |fin| && OpAt(f, cfg, level, k, j).SameShape(fin[MacronodeOpIdx(k, j)])
  {
    hide OpAt, Macronodes;
    MacronodesAt(f, cfg, level, cfg.Total(), k, j);
    assert MachineryOps(f, cfg, level)[MacronodeOpIdx(k, j)].SameShape(fin[MacronodeOpIdx(k, j)]);
  }

  lemma {:induction false} IsReady(f: Functions, cfg: Config, level: real, fin: seq<Op>, k: nat)
    requires cfg.Valid() && k < cfg.Total() && SameShapes(MachineryOps(f, cfg, level), fin)
    ensures Ready(fin, k)
  {
    hide MachineryOps, SameShapes, ModeIdx;
    forall j | j in {0, 1, 7, 8, 9, 10, 12, 13}
      ensures MacronodeOpIdx(k, j) < |fin| && |fin[MacronodeOpIdx(k, j)].params| == if 7 <= j <= 10 then 1 else 2
    {
      Member(f, cfg, level, fin, k, j);
    }
  }

  /** A displacement acts with its current parameters. */
  lemma {:induction false} ActsDisplacement(f: Functions, cfg: Config, level: real, fin: seq<Op>, k: nat, j: nat, q: Quad)
    requires cfg.Valid() && k < cfg.Total() && j in {0, 1, 12, 13} && SameShapes(MachineryOps(f, cfg, level), fin)
    requires HasParam(fin, ParamIdx(MacronodeOpIdx(k, j), 0)) && HasParam(fin, ParamIdx(MacronodeOpIdx(k, j), 1))
    requires q == Quad(Param(fin, ParamIdx(MacronodeOpIdx(k, j), 0)), Param(fin, ParamIdx(MacronodeOpIdx(k, j), 1)))
    ensures MacronodeOpIdx(k, j) < |fin|
    ensures Acts(fin[MacronodeOpIdx(k, j)], Displacement,
                 [SixModes(cfg.n, k)[if j == 0 then 0 else if j == 1 then 1 else if j == 12 then 4 else 5]], [q.x, q.p])
  {
    hide MachineryOps, SameShapes, ModeIdx, MacronodeOpIdx;
    Member(f, cfg, level, fin, k, j);
  }

  /** A measurement reads at its current angle. */
  lemma {:induction false} ActsHomodyne(f: Functions, cfg: Config, level: real, fin: seq<Op>, k: nat, j: nat, theta: real)
    requires cfg.Valid() && k < cfg.Total() && 7 <= j <= 10 && SameShapes(MachineryOps(f, cfg, level), fin)
    requires HasParam(fin, ParamIdx(MacronodeOpIdx(k, j), 0)) && theta == Param(fin, ParamIdx(MacronodeOpIdx(k, j), 0))
    ensures MacronodeOpIdx(k, j) < |fin|
    ensures Acts(fin[MacronodeOpIdx(k, j)], HomodyneSingleMode,
                 [SixModes(cfg.n, k)[if j == 7 then 3 else if j == 8 then 0 else if j == 9 then 2 else 1]], [theta])
  {
    hide MachineryOps, SameShapes, ModeIdx, MacronodeOpIdx;
    Member(f, cfg, level, fin, k, j);
  }

  function BeamModes(j: nat): (nat, nat)
    ensures BeamModes(j).0 < 6 && BeamModes(j).1 < 6
  {
    if j == 2 then (0, 1) else if j == 3 then (3, 4) else if j == 4 then (2, 5) else if j == 5 then (0, 3) else if j == 6 then (1, 2) else (5, 4)
  }

  lemma {:induction false} ActsBeam(f: Functions, cfg: Config, level: real, fin: seq<Op>, k: nat, j: nat)
    requires cfg.Valid() && k < cfg.Total() && j in {2, 3, 4, 5, 6, 11} && SameShapes(MachineryOps(f, cfg, level), fin)
    ensures MacronodeOpIdx(k, j) < |fin|
    ensures var ms := SixModes(cfg.n, k);
      Acts(fin[MacronodeOpIdx(k, j)], BeamSplitter50, [ms[BeamModes(j).0], ms[BeamModes(j).1]], [])
  {
    hide MachineryOps, SameShapes, ModeIdx, MacronodeOpIdx;
    Member(f, cfg, level, fin, k, j);
  }

  lemma {:induction false} NonlinearAway(nlff: MachineryFF, k: nat, j: nat)
    requires NonlinearTarget(nlff).Some? && 14 <= j < OPS_PER_MACRONODE
    ensures NonlinearTarget(nlff).value.op != MacronodeOpIdx(k, j)
  {
  }

  lemma {:induction false} LinearAway(t: ParamIdx, total: nat, k: nat, j: nat)
    requires (exists l :: 0 <= l < total && IsLinearTarget(t, l)) && 14 <= j < OPS_PER_MACRONODE
    ensures t.op != MacronodeOpIdx(k, j)
  {
  }

  /** No feedforward writes to the replacements. */
  lemma {:induction false} ReplacementUntouched(f: Functions, cfg: Config, k: nat, j: nat)
    requires cfg.Valid() && Compiles(cfg) && 14 <= j < OPS_PER_MACRONODE
    ensures forall n | 0 <= n < |MachineryFFs(f, cfg)| :: MachineryFFs(f, cfg)[n].target.op != MacronodeOpIdx(k, j)
  {
    var ffs, nonlinears := MachineryFFs(f, cfg), Nonlinears(cfg, |cfg.nlffs|);
    hide Linears, NonlinearFunction, NonlinearTarget, MacronodeOpIdx, IsLinearTarget;
    forall n | 0 <= n < |ffs| ensures ffs[n].target.op != MacronodeOpIdx(k, j) {
      if n < |nonlinears| {
        AllHaveTargets(cfg, n);
        assert ffs[n] == Nonlinear(cfg, n);
        NonlinearAway(cfg.nlffs[n], k, j);
      } else {
        LinearsTargets(f, cfg, nonlinears, cfg.Total(), n - |nonlinears|);
        LinearAway(ffs[n].target, cfg.Total(), k, j);
      }
    }
  }

  lemma {:induction false} ActsReplacement(f: Functions, cfg: Config, level: real, fin: seq<Op>, measured: map<nat, real>, k: nat, j: nat)
    requires cfg.Valid() && Compiles(cfg) && k < cfg.Total() && 14 <= j < OPS_PER_MACRONODE
    requires LeftBy(MachineryOps(f, cfg, level), MachineryFFs(f, cfg), fin, measured)
    ensures MacronodeOpIdx(k, j) < |fin|
    ensures Acts(fin[MacronodeOpIdx(k, j)], ReplaceBySqueezedState, [SixModes(cfg.n, k)[j - 14]], [level, if j < 16 then f.halfPi else 0.0])
  {
    var ops, ffs, i := MachineryOps(f, cfg, level), MachineryFFs(f, cfg), MacronodeOpIdx(k, j);
    hide MachineryOps, MachineryFFs, SameShapes, ModeIdx, MacronodeOpIdx, LeftBy, Compiles, Macronodes;
    LeftByShapes(ops, ffs, fin, measured);
    Member(f, cfg, level, fin, k, j);
    ReplacementUntouched(f, cfg, k, j);
    MacronodesAt(f, cfg, level, cfg.Total(), k, j);
    assert ops[i] == OpAt(f, cfg, level, k, j) by { assert ops == Macronodes(f, cfg, level, cfg.Total()) by { OpsAre(f, cfg, level); } }
    SameParams(ops, ffs, fin, measured, i);
    RenamingStep(cfg.n, k, 2);
    RenamingStep(cfg.n, k, 3);
    RenamingStep(cfg.n, k, 4);
    RenamingStep(cfg.n, k, cfg.n + 4);
  }

  lemma {:induction false} OpsAre(f: Functions, cfg: Config, level: real)
    requires cfg.Valid()
    ensures MachineryOps(f, cfg, level) == Macronodes(f, cfg, level, cfg.Total())
  {
  }

  /** An operation nobody writes to keeps its parameters. */
  lemma {:induction false} SameParams(ops: seq<Op>, ffs: seq<FeedForward>, fin: seq<Op>, measured: map<nat, real>, i: nat)
    requires LeftBy(ops, ffs, fin, measured) && i < |ops| && forall n | 0 <= n < |ffs| :: ffs[n].target.op != i
    ensures i < |fin| && fin[i].params == ops[i].params
  {
    assert ops[i].SameShape(fin[i]);
    hide SameShapes;
    forall q | 0 <= q < |ops[i].params| ensures fin[i].params[q] == ops[i].params[q] {
      var t := ParamIdx(i, q);
      assert HasParam(ops, t) && HasParam(fin, t) && Param(fin, t) == Param(ops, t);
    }
  }

  /** Macronode k of the circuit, with the parameters left by the feedforward. */
  lemma {:induction false} BlockOfFinal(f: Functions, cfg: Config, level: real, fin: seq<Op>, measured: map<nat, real>, k: nat)
    requires cfg.Valid() && Compiles(cfg) && k < cfg.Total()
    requires LeftBy(MachineryOps(f, cfg, level), MachineryFFs(f, cfg), fin, measured)
    ensures Ready(fin, k) && IsBlock(f, fin, MacronodeOpIdx(k, 0), SixModes(cfg.n, k), level, DataOf(fin, k))
  {
    hide MachineryOps, MachineryFFs, SameShapes, ModeIdx, LeftBy, Compiles, Acts, HasParam, Param, Config.Valid;
    LeftByShapes(MachineryOps(f, cfg, level), MachineryFFs(f, cfg), fin, measured);
    IsReady(f, cfg, level, fin, k);
    var data := DataOf(fin, k);
    InLength(f, cfg, level, fin, k);
    ActsDisplacement(f, cfg, level, fin, k, 0, data.d1);
    ActsDisplacement(f, cfg, level, fin, k, 1, data.dn);
    ActsBeam(f, cfg, level, fin, k, 2);
    ActsBeam(f, cfg, level, fin, k, 3);
    ActsBeam(f, cfg, level, fin, k, 4);
    ActsBeam(f, cfg, level, fin, k, 5);
    ActsBeam(f, cfg, level, fin, k, 6);
    ActsHomodyne(f, cfg, level, fin, k, 7, data.t.a);
    ActsHomodyne(f, cfg, level, fin, k, 8, data.t.b);
    ActsHomodyne(f, cfg, level, fin, k, 9, data.t.c);
    ActsHomodyne(f, cfg, level, fin, k, 10, data.t.d);
    ActsBeam(f, cfg, level, fin, k, 11);
    ActsDisplacement(f, cfg, level, fin, k, 12, data.l1);
    ActsDisplacement(f, cfg, level, fin, k, 13, data.ln);
    ActsReplacement(f, cfg, level, fin, measured, k, 14);
    ActsReplacement(f, cfg, level, fin, measured, k, 15);
    ActsReplacement(f, cfg, level, fin, measured, k, 16);
    ActsReplacement(f, cfg, level, fin, measured, k, 17);
  }

  lemma {:induction false} InLength(f: Functions, cfg: Config, level: real, fin: seq<Op>, k: nat)
    requires cfg.Valid() && k < cfg.Total() && SameShapes(MachineryOps(f, cfg, level), fin)
    ensures MacronodeOpIdx(k, 0) + 18 <= |fin|
  {
    Member(f, cfg, level, fin, k, 17);
  }
}
