/** `MachineryCircuit`: the loops that build the circuit object. */
module MachineryCompiler {
  import opened Elementary
  import opened Operations
  import opened Engine
  import opened CircuitObject
  import opened ModeAllocator
  import opened Machinery
  import opened Resolution

  /** The modes a beam splitter of macronode k acts on. */
  lemma {:induction false} DistinctModes(n: nat, k: nat)
    requires n >= 1
    ensures ModeIdx(n, k, 0) != ModeIdx(n, k, 1) && ModeIdx(n, k, 3) != ModeIdx(n, k, 4) && ModeIdx(n, k, 2) != ModeIdx(n, k, n + 4)
    ensures ModeIdx(n, k, 0) != ModeIdx(n, k, 3) && ModeIdx(n, k, 1) != ModeIdx(n, k, 2) && ModeIdx(n, k, n + 4) != ModeIdx(n, k, 4)
    ensures forall i | 0 <= i < n + 5 :: ModeIdx(n, k, i) < n + 5
  {
    hide ModeIdx;
    Injective(n, k, 0, 1);
    Injective(n, k, 3, 4);
    Injective(n, k, 2, n + 4);
    Injective(n, k, 0, 3);
    Injective(n, k, 1, 2);
    Injective(n, k, n + 4, 4);
    forall i | 0 <= i < n + 5 ensures ModeIdx(n, k, i) < n + 5 {
      Injective(n, k, i, if i == 0 then 1 else 0);
    }
  }

  /** No constructor refuses an operation of a macronode: beam splitters always get two modes. */
  lemma {:induction false} BlockConstructible(f: Functions, cfg: Config, level: real, k: nat, j: nat)
    requires cfg.Valid() && k < cfg.Total() && j < OPS_PER_MACRONODE
    ensures OpConstructible(f, OpAt(f, cfg, level, k, j))
  {
    hide ModeIdx, Functions.EquivModPi;
    DistinctModes(cfg.n, k);
  }

  lemma {:induction false} OneMore(f: Functions, cfg: Config, level: real, k: nat, j: nat, before: seq<Op>, now: seq<Op>)
    requires cfg.Valid() && k < cfg.Total() && j < OPS_PER_MACRONODE
    requires now == before + Block(f, cfg, level, k)[..j]
    ensures now + [OpAt(f, cfg, level, k, j)] == before + Block(f, cfg, level, k)[..j + 1]
  {
  }

  /** Appends one operation of a macronode. */
  method EmplaceNext(
    f: Functions, cfg: Config, level: real, k: nat, j: nat, circuit: Circuit, kind: Kind, modes: seq<nat>, params: seq<real>,
    ghost before: seq<Op>)
    requires cfg.Valid() && k < cfg.Total() && j < OPS_PER_MACRONODE
    requires Emplace(kind, modes, params) == OpAt(f, cfg, level, k, j)
    requires circuit.Valid() && circuit.operations == before + Block(f, cfg, level, k)[..j]
    modifies circuit`operations
    ensures circuit.Valid() && circuit.operations == before + Block(f, cfg, level, k)[..j + 1]
  {
    BlockConstructible(f, cfg, level, k, j);
    OneMore(f, cfg, level, k, j, before, circuit.operations);
    var _ := circuit.EmplaceOperation(f, kind, modes, params);
  }

  /** The modes macronode k works on. */
  datatype TemporaryModes = TemporaryModes(s0: nat, s1: nat, s2: nat, s3: nat, s4: nat, slast: nat)

  function ModesOf(n: nat, k: nat): TemporaryModes {
    TemporaryModes(ModeIdx(n, k, 0), ModeIdx(n, k, 1), ModeIdx(n, k, 2), ModeIdx(n, k, 3), ModeIdx(n, k, 4), ModeIdx(n, k, n + 4))
  }

  /** Appends the displacements and the first five beam splitters of macronode k. */
  method EmplaceEntanglement(f: Functions, cfg: Config, level: real, k: nat, s: TemporaryModes, circuit: Circuit, ghost before: seq<Op>)
    requires cfg.Valid() && k < cfg.Total() && s == ModesOf(cfg.n, k)
    requires circuit.Valid() && circuit.operations == before
    modifies circuit`operations
    ensures circuit.Valid() && circuit.operations == before + Block(f, cfg, level, k)[..7]
  {
    hide ModeIdx, Block, Circuit.Valid;
    assert before == before + Block(f, cfg, level, k)[..0];
    var d1, dn := cfg.displacements1[k], cfg.displacementsN[k];
    EmplaceNext(f, cfg, level, k, 0, circuit, Displacement, [s.s0], [d1.x, d1.p], before);
    EmplaceNext(f, cfg, level, k, 1, circuit, Displacement, [s.s1], [dn.x, dn.p], before);
    EmplaceNext(f, cfg, level, k, 2, circuit, BeamSplitter50, [s.s0, s.s1], [], before);
    EmplaceNext(f, cfg, level, k, 3, circuit, BeamSplitter50, [s.s3, s.s4], [], before);
    EmplaceNext(f, cfg, level, k, 4, circuit, BeamSplitter50, [s.s2, s.slast], [], before);
    EmplaceNext(f, cfg, level, k, 5, circuit, BeamSplitter50, [s.s0, s.s3], [], before);
    EmplaceNext(f, cfg, level, k, 6, circuit, BeamSplitter50, [s.s1, s.s2], [], before);
  }

  /** Appends the measurements, the last beam splitter and the targets of the linear feedforward. */
  method EmplaceMeasurements(f: Functions, cfg: Config, level: real, k: nat, s: TemporaryModes, circuit: Circuit, ghost before: seq<Op>)
    requires cfg.Valid() && k < cfg.Total() && s == ModesOf(cfg.n, k)
    requires circuit.Valid() && circuit.operations == before + Block(f, cfg, level, k)[..7]
    modifies circuit`operations
    ensures circuit.Valid() && circuit.operations == before + Block(f, cfg, level, k)[..14]
  {
    hide ModeIdx, Block, Circuit.Valid;
    var angle := cfg.angles[k];
    EmplaceNext(f, cfg, level, k, 7, circuit, HomodyneSingleMode, [s.s3], [angle.a], before);
    EmplaceNext(f, cfg, level, k, 8, circuit, HomodyneSingleMode, [s.s0], [angle.b], before);
    EmplaceNext(f, cfg, level, k, 9, circuit, HomodyneSingleMode, [s.s2], [angle.c], before);
    EmplaceNext(f, cfg, level, k, 10, circuit, HomodyneSingleMode, [s.s1], [angle.d], before);
    EmplaceNext(f, cfg, level, k, 11, circuit, BeamSplitter50, [s.slast, s.s4], [], before);
    EmplaceNext(f, cfg, level, k, 12, circuit, Displacement, [s.s4], [0.0, 0.0], before);
    EmplaceNext(f, cfg, level, k, 13, circuit, Displacement, [s.slast], [0.0, 0.0], before);
  }

  /** Appends the replacements of the four measured modes. */
  method EmplaceReplacements(f: Functions, cfg: Config, level: real, k: nat, modeIdx: StateObjModeIdx, circuit: Circuit, ghost before: seq<Op>)
    requires cfg.Valid() && k < cfg.Total() && modeIdx.Valid() && modeIdx.n == cfg.n
    requires circuit.Valid() && circuit.operations == before + Block(f, cfg, level, k)[..14]
    modifies circuit`operations
    ensures circuit.Valid() && circuit.operations == before + Block(f, cfg, level, k)
  {
    hide ModeIdx, Block, Circuit.Valid;
    var c := modeIdx.Call(k + 1, 2);
    EmplaceNext(f, cfg, level, k, 14, circuit, ReplaceBySqueezedState, [c], [level, f.halfPi], before);
    var a := modeIdx.Call(k + 1, 3);
    EmplaceNext(f, cfg, level, k, 15, circuit, ReplaceBySqueezedState, [a], [level, f.halfPi], before);
    var b := modeIdx.Call(k + 1, 4);
    EmplaceNext(f, cfg, level, k, 16, circuit, ReplaceBySqueezedState, [b], [level, 0.0], before);
    var d := modeIdx.Call(k + 1, cfg.n + 4);
    EmplaceNext(f, cfg, level, k, 17, circuit, ReplaceBySqueezedState, [d], [level, 0.0], before);
    assert Block(f, cfg, level, k)[..18] == Block(f, cfg, level, k);
  }

  /** Appends the operations of all macronodes. */
  method EmplaceMacronodes(f: Functions, cfg: Config, level: real, circuit: Circuit)
    requires cfg.Valid() && circuit.Valid() && circuit.operations == []
    modifies circuit`operations
    ensures circuit.Valid() && circuit.operations == MachineryOps(f, cfg, level)
  {
    hide ModeIdx, Block, Circuit.Valid;
    var modeIdx := new StateObjModeIdx(cfg.n);
    for k := 0 to cfg.Total()
      invariant circuit.Valid() && circuit.operations == Macronodes(f, cfg, level, k)
      invariant modeIdx.Valid() && modeIdx.n == cfg.n
    {
      ghost var before := circuit.operations;
      var s0 := modeIdx.Call(k, 0);
      var s1 := modeIdx.Call(k, 1);
      var s2 := modeIdx.Call(k, 2);
      var s3 := modeIdx.Call(k, 3);
      var s4 := modeIdx.Call(k, 4);
      var slast := modeIdx.Call(k, cfg.n + 4);
      var s := TemporaryModes(s0, s1, s2, s3, s4, slast);
      EmplaceEntanglement(f, cfg, level, k, s, circuit, before);
      EmplaceMeasurements(f, cfg, level, k, s, circuit, before);
      EmplaceReplacements(f, cfg, level, k, modeIdx, circuit, before);
    }
  }

  lemma {:induction false} HomodyneOpsDiffer(k: nat)
    ensures NoAdjacentDuplicates(HomodyneOps(k)) && HomodyneOps(k) != []
  {
  }

  lemma {:induction false} NonlinearOkStep(cfg: Config, i: nat)
    requires cfg.Valid() && i < |cfg.nlffs| && NonlinearOk(cfg, i)
    ensures NonlinearOk(cfg, i + 1) <==>
              NonlinearTarget(cfg.nlffs[i]).Some?
              && forall l | 0 <= l < i :: Nonlinears(cfg, i)[l].target != NonlinearTarget(cfg.nlffs[i]).value
  {
    hide NonlinearTarget, NonlinearFunction, HomodyneOps;
    if NonlinearTarget(cfg.nlffs[i]).Some? {
      forall l | 0 <= l < i
        ensures Nonlinears(cfg, i)[l].target == NonlinearTarget(cfg.nlffs[i]).value <==> NonlinearTarget(cfg.nlffs[l]) == NonlinearTarget(cfg.nlffs[i])
      {
      }
    }
  }

  lemma {:induction false} NonlinearNotOk(cfg: Config, i: nat, j: nat)
    requires i <= j <= |cfg.nlffs| && NonlinearOk(cfg, j)
    ensures NonlinearOk(cfg, i)
  {
    hide NonlinearTarget;
  }

  /** Adds the nonlinear feedforwards, in order. */
  method AddNonlinears(cfg: Config, circuit: Circuit) returns (ok: bool)
    requires cfg.Valid() && circuit.Valid() && circuit.ffList == []
    modifies circuit`ffList, circuit`ffFuncs, circuit`ffTargets
    ensures circuit.Valid()
    ensures ok == NonlinearOk(cfg, |cfg.nlffs|)
    ensures ok ==> circuit.ffList == Nonlinears(cfg, |cfg.nlffs|)
  {
    hide NonlinearTarget, NonlinearFunction, HomodyneOps, NonlinearOk, Circuit.Valid;
    assert NonlinearOk(cfg, 0) by { NothingYet(cfg); }
    for i := 0 to |cfg.nlffs|
      invariant circuit.Valid()
      invariant NonlinearOk(cfg, i) && forall l | 0 <= l < i :: NonlinearTarget(cfg.nlffs[l]).Some?
      invariant circuit.ffList == Nonlinears(cfg, i)
    {
      NonlinearOkStep(cfg, i);
      var nlff := cfg.nlffs[i];
      var target := NonlinearTarget(nlff);
      if target.None? {
        if NonlinearOk(cfg, |cfg.nlffs|) {
          NonlinearNotOk(cfg, i + 1, |cfg.nlffs|);
        }
        return false;
      }
      HomodyneOpsDiffer(nlff.fromMacronode);
      var created := NewFeedForward(HomodyneOps(nlff.fromMacronode), target.value,
                                    NonlinearFunction(nlff.fromAbcd, cfg.functions[nlff.function_]));
      ok := circuit.AddFF(created.value);
      if !ok {
        if NonlinearOk(cfg, |cfg.nlffs|) {
          NonlinearNotOk(cfg, i + 1, |cfg.nlffs|);
        }
        return;
      }
    }
    ok := true;
  }

  lemma {:induction false} NothingYet(cfg: Config)
    ensures NonlinearOk(cfg, 0)
  {
  }

  // ----- linear feedforward -----

  lemma {:induction false} WriterIs(ffs: seq<FeedForward>, funcs: map<nat, set<nat>>, targets: map<ParamIdx, nat>, t: ParamIdx)
    requires Indexed(ffs, funcs, targets)
    ensures Writer(ffs, t) == if t in targets then Some(ffs[targets[t]]) else None
  {
  }

  /** `GetNLFFsToHomodyneAngle`. */
  method GetAngleWriters(k: nat, circuit: Circuit) returns (w: Writers)
    requires circuit.Valid()
    ensures w == AngleWriters(circuit.ffList, k)
  {
    var found: seq<Option<FeedForward>> := [];
    for i := 0 to 4
      invariant |found| == i
      invariant forall l | 0 <= l < i :: found[l] == Writer(circuit.ffList, AngleIdx(k, l))
    {
      WriterIs(circuit.ffList, circuit.ffFuncs, circuit.ffTargets, AngleIdx(k, i));
      var none: Option<FeedForward> := None;
      found := found + [if AngleIdx(k, i) in circuit.ffTargets then Some(circuit.ffList[circuit.ffTargets[AngleIdx(k, i)]]) else none];
    }
    w := Four(found[0], found[1], found[2], found[3]);
  }

  /** Nothing yet writes to the linear feedforward displacements of macronode k or a later one. */
  ghost predicate LinearFrom(ffs: seq<FeedForward>, k: nat) {
    forall n, l: nat | 0 <= n < |ffs| && l >= k ::
      ffs[n].target.op != MacronodeOpIdx(l, LINEAR_FF_B) && ffs[n].target.op != MacronodeOpIdx(l, LINEAR_FF_D)
  }

  lemma {:induction false} NonlinearsKeepClear(cfg: Config)
    requires cfg.Valid() && NonlinearOk(cfg, |cfg.nlffs|)
    ensures LinearFrom(Nonlinears(cfg, |cfg.nlffs|), 0)
  {
    var ffs := Nonlinears(cfg, |cfg.nlffs|);
    forall n, l: nat | 0 <= n < |ffs|
      ensures ffs[n].target.op != MacronodeOpIdx(l, LINEAR_FF_B) && ffs[n].target.op != MacronodeOpIdx(l, LINEAR_FF_D)
    {
      assert ffs[n] == Nonlinear(cfg, n);
      NonlinearTargetOps(cfg.nlffs[n], l);
    }
  }

  lemma {:induction false} NonlinearTargetOps(nlff: MachineryFF, l: nat)
    requires NonlinearTarget(nlff).Some?
    ensures NonlinearTarget(nlff).value.op != MacronodeOpIdx(l, LINEAR_FF_B)
    ensures NonlinearTarget(nlff).value.op != MacronodeOpIdx(l, LINEAR_FF_D)
  {
    var k := nlff.toMacronode;
    if k < l {
      assert (k + 1) * OPS_PER_MACRONODE <= l * OPS_PER_MACRONODE;
    } else if l < k {
      assert (l + 1) * OPS_PER_MACRONODE <= k * OPS_PER_MACRONODE;
    }
  }

  /** What looks up the angles of a macronode does not see linear feedforwards. */
  lemma {:induction false} WritersUnaffected(nonlinears: seq<FeedForward>, more: seq<FeedForward>, k: nat)
    requires forall n | 0 <= n < |more| :: more[n].target.op % OPS_PER_MACRONODE in {LINEAR_FF_B, LINEAR_FF_D}
    requires UniqueTargets(nonlinears + more)
    ensures AngleWriters(nonlinears + more, k) == AngleWriters(nonlinears, k)
  {
    forall i | 0 <= i < 4 ensures Writer(nonlinears + more, AngleIdx(k, i)) == Writer(nonlinears, AngleIdx(k, i)) {
      OneWriterUnaffected(nonlinears, more, AngleIdx(k, i));
    }
  }

  lemma {:induction false} OneWriterUnaffected(nonlinears: seq<FeedForward>, more: seq<FeedForward>, t: ParamIdx)
    requires forall n | 0 <= n < |more| :: more[n].target != t
    requires UniqueTargets(nonlinears + more)
    ensures Writer(nonlinears + more, t) == Writer(nonlinears, t)
  {
    var all := nonlinears + more;
    if n :| 0 <= n < |nonlinears| && nonlinears[n].target == t {
      assert all[n].target == t;
      forall m | 0 <= m < |nonlinears| && m != n ensures nonlinears[m].target != t {
        assert all[m].target != all[n].target;
      }
      assert forall m | 0 <= m < |all| && m != n :: all[m].target != t;
    } else {
      assert forall m | 0 <= m < |all| :: all[m].target != t;
    }
  }

  lemma {:induction false} LinearsTargets(f: Functions, cfg: Config, nonlinears: seq<FeedForward>, k: nat, n: nat)
    requires cfg.Valid() && k <= cfg.Total() && n < |Linears(f, cfg, nonlinears, k)|
    ensures var t := Linears(f, cfg, nonlinears, k)[n].target;
      exists l :: 0 <= l < k && IsLinearTarget(t, l)
  {
    if n < |Linears(f, cfg, nonlinears, k - 1)| {
      LinearsTargets(f, cfg, nonlinears, k - 1, n);
    } else {
      assert IsLinearTarget(Linears(f, cfg, nonlinears, k)[n].target, k - 1);
    }
  }

  ghost predicate IsLinearTarget(t: ParamIdx, k: nat) {
    (t.op == MacronodeOpIdx(k, LINEAR_FF_B) || t.op == MacronodeOpIdx(k, LINEAR_FF_D)) && t.param < 2
  }

  /** Every source list consists of the measurements of whole macronodes. */
  ghost predicate WholeMacronodes(w: Writers) {
    forall i | 0 <= i < 4 && w.At(i).Some? :: exists k :: w.At(i).value.sources == HomodyneOps(k)
  }

  lemma {:induction false} WritersAreWhole(cfg: Config, k: nat)
    requires cfg.Valid() && NonlinearOk(cfg, |cfg.nlffs|)
    ensures WholeMacronodes(AngleWriters(Nonlinears(cfg, |cfg.nlffs|), k))
  {
    var ffs := Nonlinears(cfg, |cfg.nlffs|);
    forall i | 0 <= i < 4 && AngleWriters(ffs, k).At(i).Some?
      ensures exists l :: AngleWriters(ffs, k).At(i).value.sources == HomodyneOps(l)
    {
      var n :| 0 <= n < |ffs| && AngleWriters(ffs, k).At(i).value == ffs[n];
      assert ffs[n] == Nonlinear(cfg, n);
      assert ffs[n].sources == HomodyneOps(cfg.nlffs[n].fromMacronode);
    }
  }

  /** Appending the measurements of a macronode keeps neighbours different. */
  lemma {:induction false} AppendWhole(sources: seq<nat>, w: Option<FeedForward>)
    requires NoAdjacentDuplicates(sources) && sources != [] && sources[|sources| - 1] % OPS_PER_MACRONODE == HOMODYNE_D
    requires w.Some? ==> exists k :: w.value.sources == HomodyneOps(k)
    ensures var r := sources + SourcesOf(w);
      NoAdjacentDuplicates(r) && r != [] && r[|r| - 1] % OPS_PER_MACRONODE == HOMODYNE_D
  {
    var r := sources + SourcesOf(w);
    if w.Some? {
      var k :| w.value.sources == HomodyneOps(k);
      forall j | 0 < j < |r| ensures r[j - 1] != r[j] {
        if j > |sources| {
          assert r[j - 1] == HomodyneOps(k)[j - 1 - |sources|] && r[j] == HomodyneOps(k)[j - |sources|];
        } else if j < |sources| {
          assert r[j - 1] == sources[j - 1];
        } else {
          assert r[j] == HomodyneOps(k)[0] && r[j - 1] == sources[|sources| - 1];
        }
      }
      assert r[|r| - 1] == HomodyneOps(k)[3];
    } else {
      assert r == sources;
    }
  }

  lemma {:induction false} LinearSourcesDiffer(w: Writers, k: nat)
    requires WholeMacronodes(w)
    ensures NoAdjacentDuplicates(LinearSources(w, k)) && LinearSources(w, k) != []
  {
    assert w.At(0) == w.a && w.At(1) == w.b && w.At(2) == w.c && w.At(3) == w.d;
    HomodyneOpsDiffer(k);
    var s := HomodyneOps(k);
    AppendWhole(s, w.a);
    AppendWhole(s + SourcesOf(w.a), w.b);
    AppendWhole(s + SourcesOf(w.a) + SourcesOf(w.b), w.c);
    AppendWhole(s + SourcesOf(w.a) + SourcesOf(w.b) + SourcesOf(w.c), w.d);
  }

  /** Adds the linear feedforwards to one output of macronode k. */
  method AddLinear(f: Functions, cfg: Config, w: Writers, k: nat, second: bool, circuit: Circuit) returns (ok: bool)
    requires cfg.Valid() && k < cfg.Total() && circuit.Valid() && WholeMacronodes(w)
    requires forall n | 0 <= n < |circuit.ffList| ::
               circuit.ffList[n].target.op != MacronodeOpIdx(k, if second then LINEAR_FF_D else LINEAR_FF_B)
    modifies circuit`ffList, circuit`ffFuncs, circuit`ffTargets
    ensures circuit.Valid()
    ensures ok == ((if second then cfg.methodsN[k] else cfg.methods1[k]) != Unspecified)
    ensures ok ==> circuit.ffList == old(circuit.ffList) + LinearTo(f, cfg, w, k, second)
  {
    hide Circuit.Valid, LinearFunction;
    LinearSourcesDiffer(w, k);
    var idx := MacronodeOpIdx(k, if second then LINEAR_FF_D else LINEAR_FF_B);
    ok := true;
    match if second then cfg.methodsN[k] else cfg.methods1[k]
    case FromHomodyneAngles =>
      var x := NewFeedForward(LinearSources(w, k), ParamIdx(idx, 0), LinearFunction(f, w, cfg.angles[k], second, false));
      ok := circuit.AddFF(x.value);
      var p := NewFeedForward(LinearSources(w, k), ParamIdx(idx, 1), LinearFunction(f, w, cfg.angles[k], second, true));
      ok := circuit.AddFF(p.value);
    case ZeroFilled =>
    case Unspecified => ok := false;
  }

  /** After the linear feedforwards of the first k macronodes, the targets in macronode k are free
      and its angles are still written by nonlinear feedforwards only. */
  lemma {:induction false} BeforeMacronode(f: Functions, cfg: Config, k: nat)
    requires cfg.Valid() && NonlinearOk(cfg, |cfg.nlffs|) && k <= cfg.Total()
    ensures var nonlinears := Nonlinears(cfg, |cfg.nlffs|);
      var all := nonlinears + Linears(f, cfg, nonlinears, k);
      && LinearFrom(all, k)
      && (UniqueTargets(all) ==> AngleWriters(all, k) == AngleWriters(nonlinears, k))
  {
    var nonlinears := Nonlinears(cfg, |cfg.nlffs|);
    var linears := Linears(f, cfg, nonlinears, k);
    NonlinearsKeepClear(cfg);
    hide *;
    forall n | 0 <= n < |linears| ensures KeepsClear(linears[n].target, k) {
      LinearsTargets(f, cfg, nonlinears, k, n);
      LinearTargetsKeepClear(linears[n].target, k);
    }
    AllKeepClear(nonlinears, linears, k);
    if UniqueTargets(nonlinears + linears) {
      WritersUnaffected(nonlinears, linears, k);
    }
  }

  /** The target of a linear feedforward of a macronode before k. */
  ghost predicate KeepsClear(t: ParamIdx, k: nat) {
    && t.op % OPS_PER_MACRONODE in {LINEAR_FF_B, LINEAR_FF_D}
    && forall l: nat | l >= k :: t.op != MacronodeOpIdx(l, LINEAR_FF_B) && t.op != MacronodeOpIdx(l, LINEAR_FF_D)
  }

  lemma {:induction false} LinearTargetsKeepClear(t: ParamIdx, k: nat)
    requires exists l :: 0 <= l < k && IsLinearTarget(t, l)
    ensures KeepsClear(t, k)
  {
  }

  lemma {:induction false} AllKeepClear(nonlinears: seq<FeedForward>, linears: seq<FeedForward>, k: nat)
    requires LinearFrom(nonlinears, 0) && forall n | 0 <= n < |linears| :: KeepsClear(linears[n].target, k)
    ensures LinearFrom(nonlinears + linears, k)
    ensures forall n | 0 <= n < |linears| :: linears[n].target.op % OPS_PER_MACRONODE in {LINEAR_FF_B, LINEAR_FF_D}
  {
    hide MacronodeOpIdx;
  }

  method MachineryCircuit(f: Functions, cfg: Config, level: real) returns (circuit: Circuit, ok: bool)
    requires cfg.Valid()
    ensures fresh(circuit) && circuit.Valid()
    ensures ok == Compiles(cfg)
    ensures ok ==> circuit.operations == MachineryOps(f, cfg, level) && circuit.ffList == MachineryFFs(f, cfg)
  {
    hide Circuit.Valid, NonlinearOk, MachineryOps, Nonlinears, AngleWriters, LinearTo, MacronodeOpIdx;
    circuit := new Circuit();
    EmplaceMacronodes(f, cfg, level, circuit);
    ok := AddNonlinears(cfg, circuit);
    if !ok {
      return;
    }
    ghost var nonlinears := circuit.ffList;
    assert nonlinears == nonlinears + Linears(f, cfg, nonlinears, 0);
    for k := 0 to cfg.Total()
      invariant fresh(circuit) && circuit.Valid() && circuit.operations == MachineryOps(f, cfg, level)
      invariant circuit.ffList == nonlinears + Linears(f, cfg, nonlinears, k)
      invariant MethodsOk(cfg, k)
    {
      assert UniqueTargets(circuit.ffList) by { ValidIsUnique(circuit); }
      BeforeMacronode(f, cfg, k);
      var w := GetAngleWriters(k, circuit);
      WritersAreWhole(cfg, k);
      ok := AddLinear(f, cfg, w, k, false, circuit);
      if !ok {
        return;
      }
      assert forall n | 0 <= n < |circuit.ffList| :: circuit.ffList[n].target.op != MacronodeOpIdx(k, LINEAR_FF_D) by {
        StillClear(f, cfg, w, k, nonlinears + Linears(f, cfg, nonlinears, k));
      }
      ok := AddLinear(f, cfg, w, k, true, circuit);
      if !ok {
        return;
      }
      SumIsNext(nonlinears, Linears(f, cfg, nonlinears, k), LinearTo(f, cfg, w, k, false), LinearTo(f, cfg, w, k, true));
    }
  }

  lemma {:induction false} StillClear(f: Functions, cfg: Config, w: Writers, k: nat, ffs: seq<FeedForward>)
    requires cfg.Valid() && k < cfg.Total() && LinearFrom(ffs, k)
    ensures forall n | 0 <= n < |ffs + LinearTo(f, cfg, w, k, false)| ::
              (ffs + LinearTo(f, cfg, w, k, false))[n].target.op != MacronodeOpIdx(k, LINEAR_FF_D)
  {
  }

  lemma {:induction false} SumIsNext<T>(a: seq<T>, b: seq<T>, c: seq<T>, d: seq<T>)
    ensures a + b + c + d == a + (b + (c + d))
  {
  }
}
