/** A run of a machinery circuit with ideal resources is a run of the graph circuit whose macronodes have
    the angles and displacements the machinery run ended up with. */
module Refinement {
  import opened Elementary
  import opened Operations
  import opened Engine
  import opened Resolution
  import opened ModeAllocator
  import opened Points
  import opened Teleportation
  import opened Readout
  import opened Machinery
  import opened MachineryRuns
  import opened MachineryPoints
  import opened MachineryBlocks
  import opened GraphProgram
  import opened GraphCircuitBuilder
  import opened GraphResult
  import opened GraphPoints

  // ----- the graph program -----

  /** The macronode teleports: two different angles in each pair. */
  predicate Teleports(f: Functions, t: MacronodeAngle) {
    !f.EquivModPi(t.a, t.b) && !f.EquivModPi(t.c, t.d)
  }

  /** The macronode measures: four angles with the same sine and cosine. */
  predicate Measures(f: Functions, t: MacronodeAngle) {
    SameQuadratures(f, t, t.a)
  }

  ghost function GraphOperationOf(f: Functions, data: MacronodeData, k: nat): GraphOperation {
    if Measures(f, data.t) then GraphOperation(Measurement, k, false, [data.t.a], Some(data.d1), Some(data.dn), true)
    else GraphOperation(ManualType, k, false, [data.t.a, data.t.b, data.t.c, data.t.d], Some(data.d1), Some(data.dn), false)
  }

  /** All macronodes before total are complete and of one of the two kinds. */
  ghost predicate AllUsed(f: Functions, fin: seq<Op>, total: nat) {
    forall k: nat | k < total :: Ready(fin, k) && (Teleports(f, AnglesIn(fin, k)) || Measures(f, AnglesIn(fin, k)))
  }

  lemma {:induction false} UsedAt(f: Functions, fin: seq<Op>, total: nat, k: nat)
    requires AllUsed(f, fin, total) && k < total
    ensures Ready(fin, k) && DataOf(fin, k).t == AnglesIn(fin, k)
    ensures Teleports(f, DataOf(fin, k).t) || Measures(f, DataOf(fin, k).t)
  {
    hide Ready, Measures, Teleports;
    DataAngles(fin, k);
  }

  lemma {:induction false} DataAngles(ops: seq<Op>, k: nat)
    requires Ready(ops, k)
    ensures DataOf(ops, k).t == AnglesIn(ops, k)
  {
  }

  /** The graph program with the angles and displacements of these operations, without swaps. */
  ghost function Program(f: Functions, fin: seq<Op>, total: nat): (r: seq<GraphOperation>)
    requires AllUsed(f, fin, total)
    ensures |r| == total && forall k | 0 <= k < total :: r[k] == GraphOperationOf(f, DataOf(fin, k), k)
  {
    seq(total, k requires 0 <= k < total => GraphOperationOf(f, DataOf(fin, k), k))
  }

  lemma {:induction false} ProgramOpFor(f: Functions, fin: seq<Op>, total: nat, m: nat)
    requires AllUsed(f, fin, total) && m <= total
    ensures OpIndex(Program(f, fin, total), m) == m
    ensures m < total ==> OpFor(Program(f, fin, total), m) == GraphOperationOf(f, DataOf(fin, m), m)
  {
    hide AllUsed, DataOf;
    if m > 0 {
      ProgramOpFor(f, fin, total, m - 1);
    }
  }

  lemma {:induction false} ProgramModes(f: Functions, fin: seq<Op>, total: nat, n: nat, m: nat)
    requires AllUsed(f, fin, total) && m <= total && n >= 1
    ensures InputModes(n, Program(f, fin, total), m) == seq(n + 1, i => i)
    ensures UpMode(n, Program(f, fin, total), m) == 0 && LeftMode(n, Program(f, fin, total), m) == m % n + 1
  {
    hide AllUsed, DataOf, Program, OpFor;
    if m > 0 {
      ProgramModes(f, fin, total, n, m - 1);
      ProgramOpFor(f, fin, total, m - 1);
    }
  }

  lemma {:induction false} ProgramGroup(f: Functions, fin: seq<Op>, total: nat, n: nat, level: real, m: nat)
    requires AllUsed(f, fin, total) && m < total && n >= 1
    ensures GroupOk(f, n, Program(f, fin, total), level, m)
    ensures GroupOf(f, n, Program(f, fin, total), level, m) == Group(f, GraphOperationOf(f, DataOf(fin, m), m), 0, m % n + 1, level)
  {
    hide DataOf, Program, OpFor, UpMode, LeftMode, Functions.EquivModPi, AllUsed, Measures, Group, Constructible;
    UsedAt(f, fin, total, m);
    ProgramOpFor(f, fin, total, m);
    ProgramModes(f, fin, total, n, m);
    GroupIsFine(f, DataOf(fin, m), m, m % n + 1, level);
  }

  lemma {:induction false} GroupIsFine(f: Functions, data: MacronodeData, k: nat, left: nat, level: real)
    requires (Teleports(f, data.t) || Measures(f, data.t)) && left != 0
    ensures var g := Group(f, GraphOperationOf(f, data, k), 0, left, level);
      g.Some? && |g.value| == (if Measures(f, data.t) then 6 else 3)
      && forall j | 0 <= j < |g.value| :: Constructible(f, g.value[j].kind, g.value[j].modes, g.value[j].params)
  {
    hide Functions.EquivModPi, Measures;
  }

  /** The program compiles. */
  lemma {:induction false} ProgramCompiles(f: Functions, fin: seq<Op>, total: nat, n: nat, level: real)
    requires AllUsed(f, fin, total) && n >= 1
    ensures GroupsOk(f, n, Program(f, fin, total), level, total)
  {
    hide AllUsed, Program, GroupOk;
    forall m | 0 <= m < total ensures GroupOk(f, n, Program(f, fin, total), level, m) {
      ProgramGroup(f, fin, total, n, level, m);
    }
  }

  ghost function GraphOpsOf(f: Functions, fin: seq<Op>, total: nat, n: nat, level: real): seq<Op>
    requires AllUsed(f, fin, total) && n >= 1
  {
    ProgramCompiles(f, fin, total, n, level);
    GraphOps(f, n, Program(f, fin, total), level, total)
  }

  /** Macronode m of the graph circuit. */
  lemma {:induction false} ProgramMember(f: Functions, fin: seq<Op>, total: nat, n: nat, level: real, m: nat)
    requires AllUsed(f, fin, total) && m < total && n >= 1
    ensures var ops, first, data := GraphOpsOf(f, fin, total, n, level), First(Program(f, fin, total), m), DataOf(fin, m);
      && (Measures(f, data.t) ==>
            First(Program(f, fin, total), m + 1) == first + 6
            && IsMeasurementGroup(f, ops, first, 0, m % n + 1, data.d1, data.dn, data.t.a, level))
      && (!Measures(f, data.t) ==>
            First(Program(f, fin, total), m + 1) == first + 3
            && IsManualGroup(ops, first, 0, m % n + 1, data.d1, data.dn, data.t))
  {
    hide *;
    ProgramCompiles(f, fin, total, n, level);
    UsedAt(f, fin, total, m);
    ProgramGroup(f, fin, total, n, level, m);
    var data, first, ops := DataOf(fin, m), First(Program(f, fin, total), m), GraphOpsOf(f, fin, total, n, level);
    GroupIsFine(f, data, m, m % n + 1, level);
    var group := Group(f, GraphOperationOf(f, data, m), 0, m % n + 1, level).value;
    forall j: nat | j < |group| ensures first + j < |ops| && group[j] == ops[first + j] {
      GraphOpsAt(f, n, Program(f, fin, total), level, total, m, j);
      OpsOfProgram(f, fin, total, n, level);
    }
    NextFirst(f, fin, total, m);
    GraphOpsAt(f, n, Program(f, fin, total), level, total, m, |group| - 1);
    OpsOfProgram(f, fin, total, n, level);
    if Measures(f, data.t) {
      MeasurementMembers(f, data, m, m % n + 1, level, ops, first);
    } else {
      ManualMembers(f, data, m, m % n + 1, level, ops, first);
    }
  }

  lemma {:induction false} OpsOfProgram(f: Functions, fin: seq<Op>, total: nat, n: nat, level: real)
    requires AllUsed(f, fin, total) && n >= 1
    ensures GroupsOk(f, n, Program(f, fin, total), level, total)
    ensures GraphOpsOf(f, fin, total, n, level) == GraphOps(f, n, Program(f, fin, total), level, total)
  {
    hide AllUsed, Program, GroupsOk;
    ProgramCompiles(f, fin, total, n, level);
  }

  lemma {:induction false} NextFirst(f: Functions, fin: seq<Op>, total: nat, m: nat)
    requires AllUsed(f, fin, total) && m < total
    ensures Ready(fin, m)
    ensures First(Program(f, fin, total), m + 1) == First(Program(f, fin, total), m) + (if Measures(f, DataOf(fin, m).t) then 6 else 3)
  {
    hide AllUsed, Program, OpFor, DataOf, Measures;
    UsedAt(f, fin, total, m);
    ProgramOpFor(f, fin, total, m);
    FirstStep(Program(f, fin, total), m);
  }

  lemma {:induction false} MeasurementMembers(f: Functions, data: MacronodeData, k: nat, left: nat, level: real, ops: seq<Op>, first: nat)
    requires Measures(f, data.t) && Group(f, GraphOperationOf(f, data, k), 0, left, level).Some?
    requires var group := Group(f, GraphOperationOf(f, data, k), 0, left, level).value;
      |group| == 6 && first + 6 <= |ops| && forall j: nat | j < |group| :: group[j] == ops[first + j]
    ensures IsMeasurementGroup(f, ops, first, 0, left, data.d1, data.dn, data.t.a, level)
  {
    hide Measures;
    var group := Group(f, GraphOperationOf(f, data, k), 0, left, level).value;
    assert group[0] == ops[first] && group[1] == ops[first + 1] && group[2] == ops[first + 2];
    assert group[3] == ops[first + 3] && group[4] == ops[first + 4] && group[5] == ops[first + 5];
  }

  lemma {:induction false} ManualMembers(f: Functions, data: MacronodeData, k: nat, left: nat, level: real, ops: seq<Op>, first: nat)
    requires !Measures(f, data.t) && Group(f, GraphOperationOf(f, data, k), 0, left, level).Some?
    requires var group := Group(f, GraphOperationOf(f, data, k), 0, left, level).value;
      |group| == 3 && first + 3 <= |ops| && forall j: nat | j < |group| :: group[j] == ops[first + j]
    ensures IsManualGroup(ops, first, 0, left, data.d1, data.dn, data.t)
  {
    hide Measures;
    var group := Group(f, GraphOperationOf(f, data, k), 0, left, level).value;
    assert group[0] == ops[first] && group[1] == ops[first + 1] && group[2] == ops[first + 2];
  }

  // ----- the relation between the two runs -----

  /** Before macronode k its resource modes are perfectly squeezed, and so are those still to come. */
  ghost predicate Fresh(n: nat, k: nat, p: Point) {
    && |p.modes| == n + 5 && IdealSupply(p.supply)
    && ModeIdx(n, k, 2) < n + 5 && p.modes[ModeIdx(n, k, 2)].p == 0.0
    && ModeIdx(n, k, 3) < n + 5 && p.modes[ModeIdx(n, k, 3)].p == 0.0
    && ModeIdx(n, k, 4) < n + 5 && p.modes[ModeIdx(n, k, 4)].x == 0.0
    && ModeIdx(n, k, n + 4) < n + 5 && p.modes[ModeIdx(n, k, n + 4)].x == 0.0
  }

  /** Graph mode 0 is the up input of macronode k; the other graph modes are the modes waiting in the
      delay line, each to be consumed as the left input of one of the next n macronodes. */
  ghost predicate Related(n: nat, k: nat, p: Point, g: Point) {
    && n >= 1 && |p.modes| == n + 5 && |g.modes| == n + 1
    && ModeIdx(n, k, 0) < n + 5 && g.modes[0] == p.modes[ModeIdx(n, k, 0)]
    && forall d: nat | d < n :: Waiting(n, k, d, p, g)
  }

  ghost predicate Waiting(n: nat, k: nat, d: nat, p: Point, g: Point)
    requires n >= 1 && |p.modes| == n + 5 && |g.modes| == n + 1
  {
    ModeIdx(n, k + d, 1) < n + 5 && g.modes[(k + d) % n + 1] == p.modes[ModeIdx(n, k + d, 1)]
  }

  /** What the machinery does to its modes in macronode k: new outputs, fresh resources, nothing else. */
  ghost predicate Moves(n: nat, k: nat, p: Point, p': Point, o1: Quad, on: Quad) {
    && |p.modes| == |p'.modes| == n + 5
    && ModeIdx(n, k, 4) < n + 5 && p'.modes[ModeIdx(n, k, 4)] == o1
    && ModeIdx(n, k, n + 4) < n + 5 && p'.modes[ModeIdx(n, k, n + 4)] == on
    && forall m: nat | m < n + 5 && m !in SixModes(n, k) :: p'.modes[m] == p.modes[m]
  }

  lemma {:induction false} OtherSlot(n: nat, k: nat, e: nat)
    requires 0 < e < n
    ensures (k + e) % n != k % n
  {
    var q, r := k / n, k % n;
    assert k == q * n + r;
    if r + e < n {
      ModUnique(k + e, n, q, r + e);
    } else {
      assert k + e == (q + 1) * n + (r + e - n);
      ModUnique(k + e, n, q + 1, r + e - n);
    }
  }

  lemma {:induction false} WaitingModes(n: nat, k: nat, d: nat)
    requires n >= 1 && 1 <= d < n
    ensures ModeIdx(n, k + d, 1) < n + 5 && ModeIdx(n, k + d, 1) !in SixModes(n, k)
  {
    DelayLine(n, k, d);
    hide ModeIdx;
    var s := DelaySlot(d);
    forall i | 0 <= i < 6 ensures SixModes(n, k)[i] != ModeIdx(n, k, s) {
      Injective(n, k, if i < 5 then i else n + 4, s);
    }
    Injective(n, k, s, 0);
  }

  lemma {:induction false} WaitingStep(n: nat, k: nat, d: nat, p: Point, g: Point, p': Point, g': Point, o1: Quad, on: Quad)
    requires Related(n, k, p, g) && Moves(n, k, p, p', o1, on) && d < n
    requires |g'.modes| == n + 1 && g'.modes == g.modes[0 := o1][k % n + 1 := on]
    ensures Waiting(n, k + 1, d, p', g')
  {
    hide ModeIdx, SixModes;
    if d == n - 1 {
      DelayLine(n, k, n);
      WrapAround(k, n);
      assert k + 1 + d == k + n;
      Injective(n, k, n + 4, 0);
    } else {
      assert Waiting(n, k, d + 1, p, g);
      assert k + 1 + d == k + (d + 1);
      OtherSlot(n, k, d + 1);
      WaitingModes(n, k, d + 1);
    }
  }

  lemma {:induction false} RelatedStep(n: nat, k: nat, p: Point, g: Point, p': Point, g': Point, o1: Quad, on: Quad)
    requires Related(n, k, p, g) && Moves(n, k, p, p', o1, on)
    requires |g'.modes| == n + 1 && g'.modes == g.modes[0 := o1][k % n + 1 := on]
    ensures Related(n, k + 1, p', g')
  {
    RenamingStep(n, k, 0);
    hide ModeIdx, SixModes, Waiting;
    var next := k + 1;
    forall d: nat | d < n ensures Waiting(n, next, d, p', g') {
      WaitingStep(n, k, d, p, g, p', g', o1, on);
    }
  }

  // ----- one macronode -----

  /** The measured values and the corrected outputs of a macronode whose six modes are v. */
  ghost function Outs(f: Functions, data: MacronodeData, v: seq<Quad>): (Measured, Quad, Quad)
    requires |v| == 6
  {
    var (m, wb1, wd1) := Macronode(f, data.t, Plus(v[0], data.d1), Plus(v[1], data.dn), v[2], v[3], v[4], v[5]);
    (m, Plus(wb1, data.l1), Plus(wd1, data.ln))
  }

  /** The values read by the four measurements whose operations start at base. */
  ghost function ReadingsAt(f: Functions, ops: seq<Op>, pt: Point, base: nat): Measured
    requires base + 18 <= |ops|
  {
    Measured(Reading(f, ops[base + 7], PointAt(f, ops, pt, base + 7)), Reading(f, ops[base + 8], PointAt(f, ops, pt, base + 8)),
             Reading(f, ops[base + 9], PointAt(f, ops, pt, base + 9)), Reading(f, ops[base + 10], PointAt(f, ops, pt, base + 10)))
  }

  lemma {:induction false} FitsSix(n: nat, k: nat, p: Point)
    requires n >= 1 && |p.modes| == n + 5
    ensures Fits(p, SixModes(n, k)) && |SixModes(n, k)| == 6
  {
    SixModesDistinct(n, k);
    hide ModeIdx, Distinct;
  }

  lemma {:induction false} BecomesMoves(n: nat, k: nat, p: Point, b: Point, c: Point, v: seq<Quad>)
    requires n >= 1 && |p.modes| == n + 5 && |v| == 6 && Becomes(p, b, SixModes(n, k), v)
    requires BringsIn(b, c, SixModes(n, k))
    ensures Moves(n, k, p, c, v[4], v[5])
  {
    SixModesDistinct(n, k);
    var ms := SixModes(n, k);
    assert ms[4] == ModeIdx(n, k, 4) && ms[5] == ModeIdx(n, k, n + 4);
    hide ModeIdx, SixModes;
    assert forall i | 0 <= i < 4 :: ms[i] != ms[4] && ms[i] != ms[5];
    forall m: nat | m < n + 5 && m !in ms ensures c.modes[m] == p.modes[m] {
      assert m !in {ms[0], ms[1], ms[2], ms[3]};
    }
  }

  /** From p to p' macronode k of the machinery is executed. */
  ghost predicate MacronodeDone(f: Functions, n: nat, k: nat, data: MacronodeData, p: Point, p': Point, readings: Measured) {
    && Fits(p, SixModes(n, k)) && |SixModes(n, k)| == 6 && Fresh(n, k + 1, p')
    && readings == Outs(f, data, View(p, SixModes(n, k))).0
    && Moves(n, k, p, p', Outs(f, data, View(p, SixModes(n, k))).1, Outs(f, data, View(p, SixModes(n, k))).2)
  }

  lemma {:induction false} MachineStep(f: Functions, fin: seq<Op>, pt: Point, n: nat, k: nat, level: real, data: MacronodeData, base: nat)
    requires f.Lawful() && n >= 1 && base + 18 <= |fin| && IsBlock(f, fin, base, SixModes(n, k), level, data)
    requires Fresh(n, k, PointAt(f, fin, pt, base))
    ensures MacronodeDone(f, n, k, data, PointAt(f, fin, pt, base), PointAt(f, fin, pt, base + 18), ReadingsAt(f, fin, pt, base))
  {
    hide *;
    var ms := SixModes(n, k);
    var p, b, p' := PointAt(f, fin, pt, base), PointAt(f, fin, pt, base + 14), PointAt(f, fin, pt, base + 18);
    FreshMeans(n, k, p);
    FitsSix(n, k, p);
    BlockOuts(f, fin, pt, base, ms, level, data);
    var outs := Outs(f, data, View(p, ms));
    var o := Quad(0.0, 0.0);
    BecomesMeans(p, b, ms, [o, o, o, o, outs.1, outs.2]);
    Replaces(f, fin, pt, base, ms, level, data);
    BecomesMoves(n, k, p, b, p', [o, o, o, o, outs.1, outs.2]);
    StaysFresh(n, k, p, b, p');
    MeansDone(f, n, k, data, p, p', ReadingsAt(f, fin, pt, base));
  }

  lemma {:induction false} MeansDone(f: Functions, n: nat, k: nat, data: MacronodeData, p: Point, p': Point, readings: Measured)
    requires Fits(p, SixModes(n, k)) && |SixModes(n, k)| == 6 && Fresh(n, k + 1, p')
    requires readings == Outs(f, data, View(p, SixModes(n, k))).0
    requires Moves(n, k, p, p', Outs(f, data, View(p, SixModes(n, k))).1, Outs(f, data, View(p, SixModes(n, k))).2)
    ensures MacronodeDone(f, n, k, data, p, p', readings)
  {
    hide Fits, SixModes, Fresh, Outs, Moves;
  }

  lemma {:induction false} FreshMeans(n: nat, k: nat, p: Point)
    requires Fresh(n, k, p)
    ensures |p.modes| == n + 5 && IdealSupply(p.supply)
  {
    hide IdealSupply, ModeIdx;
  }

  lemma {:induction false} BlockOuts(f: Functions, fin: seq<Op>, pt: Point, base: nat, ms: seq<nat>, level: real, data: MacronodeData)
    requires f.Lawful() && base + 18 <= |fin| && |ms| == 6 && IsBlock(f, fin, base, ms, level, data) && Fits(PointAt(f, fin, pt, base), ms)
    ensures var outs, o := Outs(f, data, View(PointAt(f, fin, pt, base), ms)), Quad(0.0, 0.0);
      outs.0 == ReadingsAt(f, fin, pt, base)
      && Becomes(PointAt(f, fin, pt, base), PointAt(f, fin, pt, base + 14), ms, [o, o, o, o, outs.1, outs.2])
  {
    hide IsBlock, PointAt, Functions.Lawful, Macronode, Plus, Reading, Becomes, Fits;
    BlockIsMacronode(f, fin, pt, base, ms, level, data);
  }

  lemma {:induction false} BecomesMeans(a: Point, b: Point, ms: seq<nat>, v: seq<Quad>)
    requires Becomes(a, b, ms, v)
    ensures Fits(b, ms) && b.supply == a.supply && |a.modes| == |b.modes|
  {
  }

  lemma {:induction false} StaysFresh(n: nat, k: nat, p: Point, b: Point, c: Point)
    requires n >= 1 && |p.modes| == n + 5 && |b.modes| == n + 5
    requires BringsIn(b, c, SixModes(n, k))
    ensures Fresh(n, k + 1, c)
  {
    NextModes(n, k);
    var next := SixModes(n, k + 1);
    assert next[2] == ModeIdx(n, k + 1, 2) && next[3] == ModeIdx(n, k + 1, 3);
    assert next[4] == ModeIdx(n, k + 1, 4) && next[5] == ModeIdx(n, k + 1, n + 4);
    hide ModeIdx, SixModes, IdealSupply;
  }

  /** The outputs of a macronode that teleports are those of its Manual gate. */
  lemma {:induction false} TeleportedOuts(f: Functions, data: MacronodeData, v: seq<Quad>)
    requires f.Lawful() && |v| == 6 && v[2].p == 0.0 && v[3].p == 0.0 && v[4].x == 0.0 && v[5].x == 0.0
    requires Teleports(f, data.t)
    requires data.l1 == FIMac(f, data.t, Outs(f, data, v).0).0 && data.ln == FIMac(f, data.t, Outs(f, data, v).0).1
    ensures (Outs(f, data, v).1, Outs(f, data, v).2)
            == Act4(ManualMatrix(f, data.t.a, data.t.b, data.t.c, data.t.d), Plus(v[0], data.d1), Plus(v[1], data.dn))
  {
    hide Macronode, FIMac, ManualMatrix, Act4, Plus, Functions.Lawful;
    MacronodeTeleports(f, data.t, Plus(v[0], data.d1), Plus(v[1], data.dn), v[2], v[3], v[4], v[5]);
  }

  /** The outputs of a macronode that measures are resource states, and it reports the quadratures of its inputs. */
  lemma {:induction false} MeasuredOuts(f: Functions, data: MacronodeData, v: seq<Quad>)
    requires f.Lawful() && |v| == 6 && v[2].p == 0.0 && v[3].p == 0.0 && v[4].x == 0.0 && v[5].x == 0.0
    requires Measures(f, data.t)
    requires data.l1 == FIMac(f, data.t, Outs(f, data, v).0).0 && data.ln == FIMac(f, data.t, Outs(f, data, v).0).1
    ensures var theta, (m, o1, on) := data.t.a, Outs(f, data, v);
      && o1 == Resource(f, theta - f.halfPi, Quad(0.0, Stretched(f, theta, o1)))
      && on == Resource(f, theta - f.halfPi, Quad(0.0, Stretched(f, theta, on)))
      && MReadout(1, m) == Quadrature(f, theta, Plus(v[0], data.d1))
      && MReadout(3, m) == Quadrature(f, theta, Plus(v[1], data.dn))
  {
    hide Macronode, FIMac, Plus, Functions.Lawful, Resource, MReadout, Quadrature, SameQuadratures, Stretched, Squeezed;
    var theta := data.t.a;
    var b, d := Plus(v[0], data.d1), Plus(v[1], data.dn);
    SameQuadraturesRead(f, data.t, theta, b, d, v[2], v[3], v[4], v[5]);
    Initialized(f, data.t, theta, b, d, v[2], v[3], v[4], v[5]);
    var (m, o1, on) := Outs(f, data, v);
    assert Squeezed(f, theta, o1) == 0.0 && Squeezed(f, theta, on) == 0.0;
    AsResource(f, theta, o1);
    AsResource(f, theta, on);
  }

  // ----- the whole run -----

  /** fin and measured are the final operations and measured values of a run of the machinery circuit from
      the point pt, whose linear feedforward is all computed from the angles. */
  ghost predicate MachineryRun(f: Functions, cfg: Config, level: real, fin: seq<Op>, measured: map<nat, real>, pt: Point) {
    && f.Lawful() && cfg.Valid() && Compiles(cfg) && cfg.Forward()
    && LeftBy(MachineryOps(f, cfg, level), MachineryFFs(f, cfg), fin, measured)
    && |fin| == cfg.Total() * OPS_PER_MACRONODE
    && forall k: nat | k < cfg.Total() ::
         Generated(cfg, k, false) && Generated(cfg, k, true) && Complete(fin, measured, k)
         && MacronodeOpIdx(k, 0) + 18 <= |fin| && MeasuredIn(measured, k) == ReadingsAt(f, fin, pt, MacronodeOpIdx(k, 0))
  }

  /** The point before macronode k of the machinery circuit. */
  ghost function MachinePoint(f: Functions, fin: seq<Op>, pt: Point, k: nat): Point
    requires k * OPS_PER_MACRONODE <= |fin|
  {
    PointAt(f, fin, pt, k * OPS_PER_MACRONODE)
  }

  /** The corrections macronode k applies are FIMac of its angles and its readings. */
  lemma {:induction false} CorrectionsOf(f: Functions, cfg: Config, level: real, fin: seq<Op>, measured: map<nat, real>, pt: Point, k: nat)
    requires MachineryRun(f, cfg, level, fin, measured, pt) && k < cfg.Total()
    ensures Ready(fin, k) && MacronodeOpIdx(k, 0) + 18 <= |fin|
    ensures IsBlock(f, fin, MacronodeOpIdx(k, 0), SixModes(cfg.n, k), level, DataOf(fin, k))
    ensures var data, m := DataOf(fin, k), ReadingsAt(f, fin, pt, MacronodeOpIdx(k, 0));
      data.t == AnglesIn(fin, k) && data.l1 == FIMac(f, data.t, m).0 && data.ln == FIMac(f, data.t, m).1
  {
    hide Compiles, LeftBy, Complete, IsBlock, FIMac, Ready, MeasuredIn, Config.Valid, Config.Forward, AnglesIn, LinearDisplacement;
    BlockOfFinal(f, cfg, level, fin, measured, k);
    GeneratedDisplacement(f, cfg, level, fin, measured, k, false);
    GeneratedDisplacement(f, cfg, level, fin, measured, k, true);
    DataAngles(fin, k);
    DataLinear(fin, k);
  }

  lemma {:induction false} DataLinear(ops: seq<Op>, k: nat)
    requires Ready(ops, k)
    ensures DataOf(ops, k).l1 == LinearDisplacement(ops, k, false) && DataOf(ops, k).ln == LinearDisplacement(ops, k, true)
  {
  }

  /** Macronode k of the machinery run. */
  lemma {:induction false} MachineMacronode(f: Functions, cfg: Config, level: real, fin: seq<Op>, measured: map<nat, real>, pt: Point, k: nat)
    requires MachineryRun(f, cfg, level, fin, measured, pt) && k < cfg.Total()
    requires (k + 1) * OPS_PER_MACRONODE <= |fin| && Fresh(cfg.n, k, MachinePoint(f, fin, pt, k))
    ensures Ready(fin, k) && MacronodeOpIdx(k, 0) + 18 <= |fin|
    ensures MacronodeDone(f, cfg.n, k, DataOf(fin, k), MachinePoint(f, fin, pt, k), MachinePoint(f, fin, pt, k + 1),
                          ReadingsAt(f, fin, pt, MacronodeOpIdx(k, 0)))
  {
    hide *;
    CorrectionsOf(f, cfg, level, fin, measured, pt, k);
    RunIsLawful(f, cfg, level, fin, measured, pt);
    PointsMeet(f, fin, pt, k);
    MachineStep(f, fin, pt, cfg.n, k, level, DataOf(fin, k), MacronodeOpIdx(k, 0));
  }

  lemma {:induction false} RunIsLawful(f: Functions, cfg: Config, level: real, fin: seq<Op>, measured: map<nat, real>, pt: Point)
    requires MachineryRun(f, cfg, level, fin, measured, pt)
    ensures f.Lawful() && cfg.n >= 1 && |fin| == cfg.Total() * OPS_PER_MACRONODE
  {
    hide Functions.Lawful, Compiles, LeftBy, Complete;
  }

  lemma {:induction false} PointsMeet(f: Functions, fin: seq<Op>, pt: Point, k: nat)
    requires (k + 1) * OPS_PER_MACRONODE <= |fin|
    ensures MacronodeOpIdx(k, 0) + 18 <= |fin|
    ensures MachinePoint(f, fin, pt, k) == PointAt(f, fin, pt, MacronodeOpIdx(k, 0))
    ensures MachinePoint(f, fin, pt, k + 1) == PointAt(f, fin, pt, MacronodeOpIdx(k, 0) + 18)
  {
    hide PointAt;
    assert (k + 1) * OPS_PER_MACRONODE == MacronodeOpIdx(k, 0) + 18;
  }

  lemma {:induction false} DoneIsFresh(f: Functions, n: nat, k: nat, data: MacronodeData, p: Point, p': Point, readings: Measured)
    requires MacronodeDone(f, n, k, data, p, p', readings)
    ensures Fresh(n, k + 1, p')
  {
    hide Fresh, Moves, Outs, Fits;
  }

  lemma {:induction false} Within(total: nat, k: nat)
    requires k <= total
    ensures k * OPS_PER_MACRONODE <= total * OPS_PER_MACRONODE
    ensures k < total ==> (k + 1) * OPS_PER_MACRONODE <= total * OPS_PER_MACRONODE
  {
  }

  /** Recycling: before every macronode its resource modes are fresh. */
  lemma {:induction false} AlwaysFresh(f: Functions, cfg: Config, level: real, fin: seq<Op>, measured: map<nat, real>, pt: Point, k: nat)
    requires MachineryRun(f, cfg, level, fin, measured, pt) && k <= cfg.Total() && Fresh(cfg.n, 0, pt)
    ensures k * OPS_PER_MACRONODE <= |fin| && Fresh(cfg.n, k, MachinePoint(f, fin, pt, k))
  {
    hide *;
    RunIsLawful(f, cfg, level, fin, measured, pt);
    Within(cfg.Total(), k);
    if k == 0 {
      StartsAt(f, fin, pt);
    } else {
      Within(cfg.Total(), k - 1);
      AlwaysFresh(f, cfg, level, fin, measured, pt, k - 1);
      MachineMacronode(f, cfg, level, fin, measured, pt, k - 1);
      DoneIsFresh(f, cfg.n, k - 1, DataOf(fin, k - 1), MachinePoint(f, fin, pt, k - 1), MachinePoint(f, fin, pt, k),
                  ReadingsAt(f, fin, pt, MacronodeOpIdx(k - 1, 0)));
    }
  }

  lemma {:induction false} StartsAt(f: Functions, fin: seq<Op>, pt: Point)
    ensures MachinePoint(f, fin, pt, 0) == pt
  {
  }

  // ----- the graph side -----

  /** The states the replacements of the graph run bring in, from macronode k on: perfectly squeezed, and
      otherwise as the machinery produces them. */
  ghost function SupplyFrom(f: Functions, fin: seq<Op>, pt: Point, n: nat, total: nat, k: nat): (r: seq<Quad>)
    requires AllUsed(f, fin, total) && k <= total && total * OPS_PER_MACRONODE <= |fin|
    decreases total - k
  {
    if k == total then []
    else
      UsedAt(f, fin, total, k);
      var data, rest := DataOf(fin, k), SupplyFrom(f, fin, pt, n, total, k + 1);
      if Measures(f, data.t) then
        [Quad(0.0, OutputStretched(f, fin, pt, data.t.a, ModeIdx(n, k, 4), k)), Quad(0.0, OutputStretched(f, fin, pt, data.t.a, ModeIdx(n, k, n + 4), k))]
        + rest
      else rest
  }

  /** The stretched quadrature of an output mode of macronode k. */
  ghost function OutputStretched(f: Functions, fin: seq<Op>, pt: Point, theta: real, mode: nat, k: nat): real
    requires (k + 1) * OPS_PER_MACRONODE <= |fin|
  {
    var p := MachinePoint(f, fin, pt, k + 1);
    if mode < |p.modes| then Stretched(f, theta, p.modes[mode]) else 0.0
  }

  lemma {:induction false} SupplyIdeal(f: Functions, fin: seq<Op>, pt: Point, n: nat, total: nat, k: nat)
    requires AllUsed(f, fin, total) && k <= total && total * OPS_PER_MACRONODE <= |fin|
    ensures IdealSupply(SupplyFrom(f, fin, pt, n, total, k))
    decreases total - k
  {
    hide AllUsed, DataOf, Measures, OutputStretched, ModeIdx;
    if k < total {
      UsedAt(f, fin, total, k);
      SupplyIdeal(f, fin, pt, n, total, k + 1);
    }
  }

  /** The point the graph run starts from: the same inputs. */
  ghost function GraphStart(f: Functions, fin: seq<Op>, pt: Point, n: nat, total: nat): Point
    requires AllUsed(f, fin, total) && total * OPS_PER_MACRONODE <= |fin|
    requires n >= 1 && |pt.modes| == n + 5
  {
    Point(seq(n + 1, i requires 0 <= i < n + 1 => if i == 0 then pt.modes[0] else InputAt(n, pt, i - 1)), SupplyFrom(f, fin, pt, n, total, 0))
  }

  /** The initial left input of macronode d < n. */
  function InputAt(n: nat, pt: Point, d: nat): Quad {
    if ModeIdx(n, d, 1) < |pt.modes| then pt.modes[ModeIdx(n, d, 1)] else Quad(0.0, 0.0)
  }

  lemma {:induction false} RelatedAtStart(f: Functions, fin: seq<Op>, pt: Point, n: nat, total: nat)
    requires AllUsed(f, fin, total) && total * OPS_PER_MACRONODE <= |fin|
    requires n >= 1 && |pt.modes| == n + 5
    ensures Related(n, 0, pt, GraphStart(f, fin, pt, n, total))
  {
    var g := GraphStart(f, fin, pt, n, total);
    hide AllUsed, SupplyFrom, ModeIdx;
    Initially(n, 0);
    forall d: nat | d < n ensures Waiting(n, 0, d, pt, g) {
      Injective(n, d, 1, 0);
      ModUnique(d, n, 0, d);
    }
  }

  /** The graph point before macronode k. */
  ghost function GraphPoint(f: Functions, fin: seq<Op>, pt: Point, n: nat, total: nat, level: real, k: nat): Point
    requires AllUsed(f, fin, total) && total * OPS_PER_MACRONODE <= |fin| && k <= total
    requires n >= 1 && |pt.modes| == n + 5
  {
    FirstInGraph(f, fin, total, n, level, k);
    PointAt(f, GraphOpsOf(f, fin, total, n, level), GraphStart(f, fin, pt, n, total), First(Program(f, fin, total), k))
  }

  lemma {:induction false} FirstInGraph(f: Functions, fin: seq<Op>, total: nat, n: nat, level: real, k: nat)
    requires AllUsed(f, fin, total) && n >= 1 && k <= total
    ensures First(Program(f, fin, total), k) <= |GraphOpsOf(f, fin, total, n, level)|
  {
    hide AllUsed, Program, First, GraphOps, GroupsOk;
    ProgramCompiles(f, fin, total, n, level);
    FirstIsLength(f, n, Program(f, fin, total), level, total);
    FirstGrows(Program(f, fin, total), k, total);
  }

  /** The two runs agree before macronode k. */
  ghost predicate InStep(f: Functions, cfg: Config, mlevel: real, fin: seq<Op>, pt: Point, k: nat)
    requires AllUsed(f, fin, cfg.Total()) && cfg.Total() * OPS_PER_MACRONODE <= |fin| && k <= cfg.Total() && k * OPS_PER_MACRONODE <= |fin|
    requires cfg.n >= 1 && |pt.modes| == cfg.n + 5
  {
    var g := GraphPoint(f, fin, pt, cfg.n, cfg.Total(), mlevel, k);
    Related(cfg.n, k, MachinePoint(f, fin, pt, k), g) && g.supply == SupplyFrom(f, fin, pt, cfg.n, cfg.Total(), k)
  }

  /** For a macronode that measures, the graph run reads M_b and M_d. */
  ghost predicate SameReadouts(f: Functions, cfg: Config, mlevel: real, fin: seq<Op>, pt: Point, k: nat)
    requires AllUsed(f, fin, cfg.Total()) && cfg.Total() * OPS_PER_MACRONODE <= |fin| && k < cfg.Total() && MacronodeOpIdx(k, 0) + 18 <= |fin|
    requires cfg.n >= 1 && |pt.modes| == cfg.n + 5
  {
    var ops, first := GraphOpsOf(f, fin, cfg.Total(), cfg.n, mlevel), First(Program(f, fin, cfg.Total()), k);
    var start, m := GraphStart(f, fin, pt, cfg.n, cfg.Total()), ReadingsAt(f, fin, pt, MacronodeOpIdx(k, 0));
    && first + 6 <= |ops|
    && Reading(f, ops[first + 1], PointAt(f, ops, start, first + 1)) == MReadout(1, m)
    && Reading(f, ops[first + 4], PointAt(f, ops, start, first + 4)) == MReadout(3, m)
  }

  // ----- one macronode in both runs -----

  /** The six modes of macronode k: the inputs are the graph's, the resources are ideal. */
  lemma {:induction false} ViewIs(n: nat, k: nat, p: Point, g: Point)
    requires Related(n, k, p, g) && Fresh(n, k, p) && Fits(p, SixModes(n, k)) && |SixModes(n, k)| == 6
    ensures var v := View(p, SixModes(n, k));
      && v[0] == g.modes[0] && v[1] == g.modes[k % n + 1]
      && v[2].p == 0.0 && v[3].p == 0.0 && v[4].x == 0.0 && v[5].x == 0.0
  {
    hide ModeIdx, IdealSupply, Distinct;
    assert Waiting(n, k, 0, p, g);
  }

  /** From g to g' macronode k of the graph is executed, with outputs o1 and on. */
  ghost predicate GraphDone(n: nat, k: nat, g: Point, g': Point, o1: Quad, on: Quad)
    requires n >= 1
  {
    |g.modes| == |g'.modes| == n + 1 && g'.modes == g.modes[0 := o1][k % n + 1 := on]
  }

  /** Macronode k of the graph run, for a macronode that teleports. */
  lemma {:induction false} GraphTeleports(f: Functions, fin: seq<Op>, pt: Point, n: nat, total: nat, level: real, k: nat, o1: Quad, on: Quad)
    requires AllUsed(f, fin, total) && total * OPS_PER_MACRONODE <= |fin| && k < total
    requires n >= 1 && |pt.modes| == n + 5 && Ready(fin, k) && !Measures(f, DataOf(fin, k).t)
    requires var data, g := DataOf(fin, k), GraphPoint(f, fin, pt, n, total, level, k);
      |g.modes| == n + 1
      && (o1, on) == Act4(ManualMatrix(f, data.t.a, data.t.b, data.t.c, data.t.d), Plus(g.modes[0], data.d1), Plus(g.modes[k % n + 1], data.dn))
    ensures var g, g' := GraphPoint(f, fin, pt, n, total, level, k), GraphPoint(f, fin, pt, n, total, level, k + 1);
      GraphDone(n, k, g, g', o1, on) && g'.supply == g.supply
  {
    hide AllUsed, SupplyFrom, GraphOpsOf, Program, First, DataOf, Ready, Act4, ManualMatrix, Plus, Measures, IsManualGroup, PointAt, GraphStart;
    ProgramMember(f, fin, total, n, level, k);
    var ops, start, first, data := GraphOpsOf(f, fin, total, n, level), GraphStart(f, fin, pt, n, total), First(Program(f, fin, total), k), DataOf(fin, k);
    FirstInGraph(f, fin, total, n, level, k);
    FirstInGraph(f, fin, total, n, level, k + 1);
    ManualGroupRuns(f, ops, start, first, 0, k % n + 1, data.d1, data.dn, data.t);
  }

  /** Macronode k of the graph run, for a macronode that measures. */
  lemma {:induction false} GraphMeasures(f: Functions, fin: seq<Op>, pt: Point, n: nat, total: nat, level: real, k: nat, o1: Quad, on: Quad, x: Quad, y: Quad, rest: seq<Quad>)
    requires f.Lawful() && AllUsed(f, fin, total) && total * OPS_PER_MACRONODE <= |fin| && k < total
    requires n >= 1 && |pt.modes| == n + 5 && Ready(fin, k) && Measures(f, DataOf(fin, k).t)
    requires var theta, g := DataOf(fin, k).t.a, GraphPoint(f, fin, pt, n, total, level, k);
      |g.modes| == n + 1 && g.supply == [x, y] + rest
      && o1 == Resource(f, theta - f.halfPi, x) && on == Resource(f, theta - f.halfPi, y)
    ensures var g, g' := GraphPoint(f, fin, pt, n, total, level, k), GraphPoint(f, fin, pt, n, total, level, k + 1);
      GraphDone(n, k, g, g', o1, on) && g'.supply == rest
    ensures var ops, first := GraphOpsOf(f, fin, total, n, level), First(Program(f, fin, total), k);
      var start, data, g := GraphStart(f, fin, pt, n, total), DataOf(fin, k), GraphPoint(f, fin, pt, n, total, level, k);
      && first + 6 <= |ops|
      && Reading(f, ops[first + 1], PointAt(f, ops, start, first + 1)) == Quadrature(f, data.t.a, Plus(g.modes[0], data.d1))
      && Reading(f, ops[first + 4], PointAt(f, ops, start, first + 4)) == Quadrature(f, data.t.a, Plus(g.modes[k % n + 1], data.dn))
  {
    hide AllUsed, SupplyFrom, GraphOpsOf, Program, First, DataOf, Ready, Plus, Measures, PointAt, GraphStart, Resource,
      Functions.Lawful, Reading, Quadrature, Acts;
    ProgramMember(f, fin, total, n, level, k);
    var ops, start, first, data := GraphOpsOf(f, fin, total, n, level), GraphStart(f, fin, pt, n, total), First(Program(f, fin, total), k), DataOf(fin, k);
    FirstInGraph(f, fin, total, n, level, k);
    FirstInGraph(f, fin, total, n, level, k + 1);
    MeasurementGroupRuns(f, ops, start, first, 0, k % n + 1, data.d1, data.dn, data.t.a, level);
    TwoNext(x, y, rest);
  }

  lemma {:induction false} TwoNext(x: Quad, y: Quad, rest: seq<Quad>)
    ensures Next([x, y] + rest) == x && Next(Rest([x, y] + rest)) == y && Rest(Rest([x, y] + rest)) == rest
  {
    assert ([x, y] + rest)[1..] == [y] + rest && ([y] + rest)[1..] == rest;
  }

  lemma {:induction false} DoneMeans(f: Functions, n: nat, k: nat, data: MacronodeData, p: Point, p': Point, readings: Measured)
    requires MacronodeDone(f, n, k, data, p, p', readings)
    ensures Fits(p, SixModes(n, k)) && |SixModes(n, k)| == 6
    ensures var outs := Outs(f, data, View(p, SixModes(n, k)));
      readings == outs.0 && Moves(n, k, p, p', outs.1, outs.2)
  {
    hide Fresh, Moves, Outs, Fits, SixModes;
  }

  lemma {:induction false} MovesMeans(n: nat, k: nat, p: Point, p': Point, o1: Quad, on: Quad)
    requires Moves(n, k, p, p', o1, on)
    ensures ModeIdx(n, k, 4) < |p'.modes| && p'.modes[ModeIdx(n, k, 4)] == o1
    ensures ModeIdx(n, k, n + 4) < |p'.modes| && p'.modes[ModeIdx(n, k, n + 4)] == on
  {
    hide ModeIdx, SixModes;
  }

  lemma {:induction false} SupplyStep(f: Functions, fin: seq<Op>, pt: Point, n: nat, total: nat, k: nat)
    requires AllUsed(f, fin, total) && k < total && total * OPS_PER_MACRONODE <= |fin|
    ensures Ready(fin, k)
    ensures var theta, rest := DataOf(fin, k).t.a, SupplyFrom(f, fin, pt, n, total, k + 1);
      SupplyFrom(f, fin, pt, n, total, k)
      == if Measures(f, DataOf(fin, k).t) then
           [Quad(0.0, OutputStretched(f, fin, pt, theta, ModeIdx(n, k, 4), k)), Quad(0.0, OutputStretched(f, fin, pt, theta, ModeIdx(n, k, n + 4), k))]
           + rest
         else rest
  {
    hide AllUsed, DataOf, Measures, OutputStretched, ModeIdx;
    UsedAt(f, fin, total, k);
  }

  lemma {:induction false} OutputIs(f: Functions, fin: seq<Op>, pt: Point, theta: real, mode: nat, k: nat, o: Quad)
    requires (k + 1) * OPS_PER_MACRONODE <= |fin|
    requires mode < |MachinePoint(f, fin, pt, k + 1).modes| && MachinePoint(f, fin, pt, k + 1).modes[mode] == o
    ensures OutputStretched(f, fin, pt, theta, mode, k) == Stretched(f, theta, o)
  {
    hide MachinePoint, Stretched;
  }

  lemma {:induction false} DoneRelated(n: nat, k: nat, p: Point, g: Point, p': Point, g': Point, o1: Quad, on: Quad)
    requires Related(n, k, p, g) && Moves(n, k, p, p', o1, on) && GraphDone(n, k, g, g', o1, on)
    ensures Related(n, k + 1, p', g')
  {
    hide Related, Moves;
    RelatedStep(n, k, p, g, p', g', o1, on);
  }

  lemma {:induction false} RelatedMeans(n: nat, k: nat, p: Point, g: Point)
    requires Related(n, k, p, g)
    ensures n >= 1 && |p.modes| == n + 5 && |g.modes| == n + 1
  {
    hide Waiting, ModeIdx;
  }

  lemma {:induction false} InStepMeans(f: Functions, cfg: Config, mlevel: real, fin: seq<Op>, pt: Point, k: nat)
    requires AllUsed(f, fin, cfg.Total()) && cfg.Total() * OPS_PER_MACRONODE <= |fin| && k <= cfg.Total() && k * OPS_PER_MACRONODE <= |fin|
    requires cfg.n >= 1 && |pt.modes| == cfg.n + 5
    ensures var g := GraphPoint(f, fin, pt, cfg.n, cfg.Total(), mlevel, k);
      InStep(f, cfg, mlevel, fin, pt, k)
      <==> Related(cfg.n, k, MachinePoint(f, fin, pt, k), g) && g.supply == SupplyFrom(f, fin, pt, cfg.n, cfg.Total(), k)
  {
    hide Related, SupplyFrom, GraphPoint, MachinePoint, AllUsed;
  }

  /** A macronode that teleports keeps the two runs in step. */
  lemma {:induction false} TeleportStep(
    f: Functions, cfg: Config, level: real, mlevel: real, fin: seq<Op>, measured: map<nat, real>, pt: Point, k: nat)
    requires MachineryRun(f, cfg, level, fin, measured, pt) && k < cfg.Total() && Fresh(cfg.n, 0, pt)
    requires AllUsed(f, fin, cfg.Total()) && cfg.Total() * OPS_PER_MACRONODE <= |fin| && (k + 1) * OPS_PER_MACRONODE <= |fin|
    requires cfg.n >= 1 && |pt.modes| == cfg.n + 5 && InStep(f, cfg, mlevel, fin, pt, k)
    requires Ready(fin, k) && !Measures(f, DataOf(fin, k).t)
    ensures InStep(f, cfg, mlevel, fin, pt, k + 1)
  {
    hide *;
    var n, total, data := cfg.n, cfg.Total(), DataOf(fin, k);
    var p, p', g := MachinePoint(f, fin, pt, k), MachinePoint(f, fin, pt, k + 1), GraphPoint(f, fin, pt, n, total, mlevel, k);
    InStepMeans(f, cfg, mlevel, fin, pt, k);
    InStepMeans(f, cfg, mlevel, fin, pt, k + 1);
    RunIsLawful(f, cfg, level, fin, measured, pt);
    UsedAt(f, fin, total, k);
    AlwaysFresh(f, cfg, level, fin, measured, pt, k);
    MachineMacronode(f, cfg, level, fin, measured, pt, k);
    CorrectionsOf(f, cfg, level, fin, measured, pt, k);
    DoneMeans(f, n, k, data, p, p', ReadingsAt(f, fin, pt, MacronodeOpIdx(k, 0)));
    ViewIs(n, k, p, g);
    RelatedMeans(n, k, p, g);
    var v := View(p, SixModes(n, k));
    var outs := Outs(f, data, v);
    TeleportedOuts(f, data, v);
    GraphTeleports(f, fin, pt, n, total, mlevel, k, outs.1, outs.2);
    DoneRelated(n, k, p, g, p', GraphPoint(f, fin, pt, n, total, mlevel, k + 1), outs.1, outs.2);
    SupplyStep(f, fin, pt, n, total, k);
  }

  /** A macronode that measures keeps the two runs in step, and both read the same. */
  lemma {:induction false} MeasureStep(
    f: Functions, cfg: Config, level: real, mlevel: real, fin: seq<Op>, measured: map<nat, real>, pt: Point, k: nat)
    requires MachineryRun(f, cfg, level, fin, measured, pt) && k < cfg.Total() && Fresh(cfg.n, 0, pt)
    requires AllUsed(f, fin, cfg.Total()) && cfg.Total() * OPS_PER_MACRONODE <= |fin| && (k + 1) * OPS_PER_MACRONODE <= |fin|
    requires cfg.n >= 1 && |pt.modes| == cfg.n + 5 && InStep(f, cfg, mlevel, fin, pt, k)
    requires Ready(fin, k) && Measures(f, DataOf(fin, k).t)
    ensures InStep(f, cfg, mlevel, fin, pt, k + 1)
    ensures MacronodeOpIdx(k, 0) + 18 <= |fin| && SameReadouts(f, cfg, mlevel, fin, pt, k)
  {
    hide *;
    var n, total, data := cfg.n, cfg.Total(), DataOf(fin, k);
    var theta := data.t.a;
    var p, p', g := MachinePoint(f, fin, pt, k), MachinePoint(f, fin, pt, k + 1), GraphPoint(f, fin, pt, n, total, mlevel, k);
    InStepMeans(f, cfg, mlevel, fin, pt, k);
    InStepMeans(f, cfg, mlevel, fin, pt, k + 1);
    RunIsLawful(f, cfg, level, fin, measured, pt);
    AlwaysFresh(f, cfg, level, fin, measured, pt, k);
    MachineMacronode(f, cfg, level, fin, measured, pt, k);
    CorrectionsOf(f, cfg, level, fin, measured, pt, k);
    DoneMeans(f, n, k, data, p, p', ReadingsAt(f, fin, pt, MacronodeOpIdx(k, 0)));
    ViewIs(n, k, p, g);
    RelatedMeans(n, k, p, g);
    var v := View(p, SixModes(n, k));
    var outs := Outs(f, data, v);
    MeasuredOuts(f, data, v);
    MovesMeans(n, k, p, p', outs.1, outs.2);
    OutputIs(f, fin, pt, theta, ModeIdx(n, k, 4), k, outs.1);
    OutputIs(f, fin, pt, theta, ModeIdx(n, k, n + 4), k, outs.2);
    SupplyStep(f, fin, pt, n, total, k);
    var rest := SupplyFrom(f, fin, pt, n, total, k + 1);
    GraphMeasures(f, fin, pt, n, total, mlevel, k, outs.1, outs.2,
                  Quad(0.0, Stretched(f, theta, outs.1)), Quad(0.0, Stretched(f, theta, outs.2)), rest);
    DoneRelated(n, k, p, g, p', GraphPoint(f, fin, pt, n, total, mlevel, k + 1), outs.1, outs.2);
    MeansSameReadouts(f, cfg, mlevel, fin, pt, k);
  }

  lemma {:induction false} MeansSameReadouts(f: Functions, cfg: Config, mlevel: real, fin: seq<Op>, pt: Point, k: nat)
    requires AllUsed(f, fin, cfg.Total()) && cfg.Total() * OPS_PER_MACRONODE <= |fin| && k < cfg.Total() && MacronodeOpIdx(k, 0) + 18 <= |fin|
    requires cfg.n >= 1 && |pt.modes| == cfg.n + 5
    requires var ops, first := GraphOpsOf(f, fin, cfg.Total(), cfg.n, mlevel), First(Program(f, fin, cfg.Total()), k);
      var start, m := GraphStart(f, fin, pt, cfg.n, cfg.Total()), ReadingsAt(f, fin, pt, MacronodeOpIdx(k, 0));
      && first + 6 <= |ops|
      && Reading(f, ops[first + 1], PointAt(f, ops, start, first + 1)) == MReadout(1, m)
      && Reading(f, ops[first + 4], PointAt(f, ops, start, first + 4)) == MReadout(3, m)
    ensures SameReadouts(f, cfg, mlevel, fin, pt, k)
  {
    hide AllUsed, GraphOpsOf, First, GraphStart, ReadingsAt, Program, Reading, MReadout, PointAt;
  }

  /** The two runs stay in step to the end. */
  lemma {:induction false} StaysInStep(
    f: Functions, cfg: Config, level: real, mlevel: real, fin: seq<Op>, measured: map<nat, real>, pt: Point, k: nat)
    requires MachineryRun(f, cfg, level, fin, measured, pt) && k <= cfg.Total() && Fresh(cfg.n, 0, pt)
    requires AllUsed(f, fin, cfg.Total()) && cfg.Total() * OPS_PER_MACRONODE <= |fin| && k * OPS_PER_MACRONODE <= |fin|
    requires cfg.n >= 1 && |pt.modes| == cfg.n + 5
    ensures InStep(f, cfg, mlevel, fin, pt, k)
  {
    hide *;
    if k == 0 {
      InStepMeans(f, cfg, mlevel, fin, pt, 0);
      RelatedAtStart(f, fin, pt, cfg.n, cfg.Total());
      StartsAt(f, fin, pt);
      GraphStartsAt(f, fin, pt, cfg.n, cfg.Total(), mlevel);
    } else {
      Within(cfg.Total(), k - 1);
      StaysInStep(f, cfg, level, mlevel, fin, measured, pt, k - 1);
      UsedAt(f, fin, cfg.Total(), k - 1);
      if Measures(f, DataOf(fin, k - 1).t) {
        MeasureStep(f, cfg, level, mlevel, fin, measured, pt, k - 1);
      } else {
        TeleportStep(f, cfg, level, mlevel, fin, measured, pt, k - 1);
      }
    }
  }

  lemma {:induction false} GraphStartsAt(f: Functions, fin: seq<Op>, pt: Point, n: nat, total: nat, level: real)
    requires AllUsed(f, fin, total) && total * OPS_PER_MACRONODE <= |fin|
    requires n >= 1 && |pt.modes| == n + 5
    ensures GraphPoint(f, fin, pt, n, total, level, 0) == GraphStart(f, fin, pt, n, total)
    ensures GraphStart(f, fin, pt, n, total).supply == SupplyFrom(f, fin, pt, n, total, 0)
  {
    hide AllUsed, GraphOpsOf, SupplyFrom, Program;
    FirstInGraph(f, fin, total, n, level, 0);
  }

  // ----- the theorem, about the execution engine -----

  /** Both feedforward methods of every macronode are computed from the homodyne angles. */
  ghost predicate AllGenerated(cfg: Config)
    requires cfg.Valid()
  {
    forall k: nat | k < cfg.Total() :: Generated(cfg, k, false) && Generated(cfg, k, true)
  }

  ghost function MachineryStart(f: Functions, cfg: Config, level: real, pt: Point): Exec<Point, ()>
    requires cfg.Valid()
  {
    Exec([pt], (), MachineryOps(f, cfg, level), map[])
  }

  /** The end of the run of the machinery circuit from a point. */
  ghost function MachineryEnd(f: Functions, cfg: Config, level: real, pt: Point): Exec<Point, ()>
    requires cfg.Valid() && Compiles(cfg) && cfg.Forward()
  {
    ForwardIsEnough(f, cfg, level);
    FinalParameters(PointKernel(f), MachineryFFs(f, cfg), MachineryStart(f, cfg, level, pt));
    Final(PointKernel(f), MachineryFFs(f, cfg), MachineryStart(f, cfg, level, pt))
  }

  lemma {:induction false} EndIs(f: Functions, cfg: Config, level: real, pt: Point)
    requires cfg.Valid() && Compiles(cfg) && cfg.Forward()
    ensures WellFormed(MachineryOps(f, cfg, level), MachineryFFs(f, cfg)) && Causal(MachineryFFs(f, cfg))
    ensures Execute(PointKernel(f), MachineryFFs(f, cfg), MachineryStart(f, cfg, level, pt)) == Some(MachineryEnd(f, cfg, level, pt))
    ensures LeftBy(MachineryOps(f, cfg, level), MachineryFFs(f, cfg), MachineryEnd(f, cfg, level, pt).ops, MachineryEnd(f, cfg, level, pt).measured)
    ensures SameShapes(MachineryOps(f, cfg, level), MachineryEnd(f, cfg, level, pt).ops)
    ensures forall j: nat :: j in MachineryEnd(f, cfg, level, pt).measured
                             <==> j < |MachineryOps(f, cfg, level)| && IsMeasurement(MachineryOps(f, cfg, level)[j].kind)
  {
    hide MachineryOps, MachineryFFs, Compiles, Config.Forward, WellFormed, Causal, LeftBy, Execute;
    ForwardIsEnough(f, cfg, level);
    FinalParameters(PointKernel(f), MachineryFFs(f, cfg), MachineryStart(f, cfg, level, pt));
  }

  /** Step by step, the run of the machinery circuit with its feedforward is the run of one point through
      its final operations. */
  lemma {:induction false} RunsThroughFinal(f: Functions, cfg: Config, level: real, pt: Point, i: nat)
    requires cfg.Valid() && Compiles(cfg) && cfg.Forward() && i <= |MachineryOps(f, cfg, level)|
    ensures Run(PointKernel(f), MachineryFFs(f, cfg), MachineryStart(f, cfg, level, pt), 0, i).Some?
    ensures |MachineryEnd(f, cfg, level, pt).ops| == |MachineryOps(f, cfg, level)|
    ensures IsPointRun(f, MachineryEnd(f, cfg, level, pt).ops, pt,
                       Run(PointKernel(f), MachineryFFs(f, cfg), MachineryStart(f, cfg, level, pt), 0, i).value.(ops := MachineryEnd(f, cfg, level, pt).ops), i)
  {
    var k, ffs, s, fin := PointKernel(f), MachineryFFs(f, cfg), MachineryStart(f, cfg, level, pt), MachineryEnd(f, cfg, level, pt).ops;
    assert s.ops == MachineryOps(f, cfg, level) && s.measured == map[] && s.(ops := fin) == Exec([pt], (), fin, map[]);
    hide MachineryOps, MachineryFFs, Compiles, Config.Forward, WellFormed, Causal, LeftBy, Execute, Run, PointKernel, IsPointRun, MachineryEnd, MachineryStart;
    EndIs(f, cfg, level, pt);
    SameLength(s.ops, fin);
    Resolve(k, ffs, s, i);
    RunOnPoints(f, fin, pt, i);
  }

  lemma {:induction false} PointRunMeans(f: Functions, ops: seq<Op>, pt: Point, e: Exec<Point, ()>, i: nat)
    requires i <= |ops| && IsPointRun(f, ops, pt, e, i)
    ensures e.peaks == [PointAt(f, ops, pt, i)]
    ensures forall j: nat | j < i && IsMeasurement(ops[j].kind) :: j in e.measured && e.measured[j] == Reading(f, ops[j], PointAt(f, ops, pt, j))
  {
    hide PointAt, Reading;
  }

  /** Every measurement of the run has the value it reads. */
  lemma {:induction false} EachIsRead(f: Functions, cfg: Config, level: real, pt: Point, j: nat)
    requires cfg.Valid() && Compiles(cfg) && cfg.Forward()
    requires j < |MachineryOps(f, cfg, level)| && IsMeasurement(MachineryOps(f, cfg, level)[j].kind)
    ensures var end := MachineryEnd(f, cfg, level, pt);
      j in end.measured && j < |end.ops| && end.measured[j] == Reading(f, end.ops[j], PointAt(f, end.ops, pt, j))
  {
    var ops, end := MachineryOps(f, cfg, level), MachineryEnd(f, cfg, level, pt);
    hide *;
    EndIs(f, cfg, level, pt);
    RunsThroughFinal(f, cfg, level, pt, |ops|);
    LastIsEnd(f, cfg, level, pt);
    KindKept(ops, end.ops, j);
    PointRunMeans(f, end.ops, pt, end, |ops|);
  }

  lemma {:induction false} LastIsEnd(f: Functions, cfg: Config, level: real, pt: Point)
    requires cfg.Valid() && Compiles(cfg) && cfg.Forward()
    ensures var end := MachineryEnd(f, cfg, level, pt);
      Run(PointKernel(f), MachineryFFs(f, cfg), MachineryStart(f, cfg, level, pt), 0, |MachineryOps(f, cfg, level)|) == Some(end)
      && end.(ops := end.ops) == end
  {
    hide MachineryOps, MachineryFFs, Compiles, Config.Forward, Run, PointKernel, MachineryEnd;
    EndIs(f, cfg, level, pt);
  }

  /** The values of macronode k are what its measurements read. */
  lemma {:induction false} MeasuredAreRead(f: Functions, cfg: Config, level: real, pt: Point, k: nat)
    requires cfg.Valid() && Compiles(cfg) && cfg.Forward() && k < cfg.Total()
    ensures var end := MachineryEnd(f, cfg, level, pt);
      Readable(HomodyneOps(k), end.measured) && MacronodeOpIdx(k, 0) + 18 <= |end.ops|
      && MeasuredIn(end.measured, k) == ReadingsAt(f, end.ops, pt, MacronodeOpIdx(k, 0))
  {
    hide MachineryOps, MachineryFFs, Compiles, Config.Forward, MachineryEnd, Reading, PointAt, SameShapes;
    var end := MachineryEnd(f, cfg, level, pt);
    EndIs(f, cfg, level, pt);
    SameLength(MachineryOps(f, cfg, level), end.ops);
    InCircuit(f, cfg, level, k, 17);
    HomodyneIsRead(f, cfg, level, pt, k, 0);
    HomodyneIsRead(f, cfg, level, pt, k, 1);
    HomodyneIsRead(f, cfg, level, pt, k, 2);
    HomodyneIsRead(f, cfg, level, pt, k, 3);
  }

  lemma {:induction false} HomodyneIsRead(f: Functions, cfg: Config, level: real, pt: Point, k: nat, j: nat)
    requires cfg.Valid() && Compiles(cfg) && cfg.Forward() && k < cfg.Total() && j < 4
    ensures var end, i := MachineryEnd(f, cfg, level, pt), MacronodeOpIdx(k, HOMODYNE_A + j);
      HomodyneOps(k)[j] == i && i in end.measured && i < |end.ops| && end.measured[i] == Reading(f, end.ops[i], PointAt(f, end.ops, pt, i))
  {
    hide MachineryOps, MachineryFFs, Compiles, Config.Forward, MachineryEnd, Reading, PointAt;
    var i := HomodyneOps(k)[j];
    assert i in HomodyneOps(k);
    HomodyneOpsAre(f, cfg, level, k, i);
    EachIsRead(f, cfg, level, pt, i);
  }

  lemma {:induction false} KindKept(a: seq<Op>, b: seq<Op>, i: nat)
    requires SameShapes(a, b) && i < |a|
    ensures i < |b| && a[i].kind == b[i].kind
  {
    assert a[i].SameShape(b[i]);
  }

  lemma {:induction false} EndIsMachineryRun(f: Functions, cfg: Config, level: real, pt: Point)
    requires f.Lawful() && cfg.Valid() && Compiles(cfg) && cfg.Forward() && AllGenerated(cfg)
    ensures MachineryRun(f, cfg, level, MachineryEnd(f, cfg, level, pt).ops, MachineryEnd(f, cfg, level, pt).measured, pt)
  {
    var end := MachineryEnd(f, cfg, level, pt);
    hide Functions.Lawful, Compiles, Config.Forward, LeftBy, Complete, MeasuredIn, ReadingsAt, MachineryEnd, MachineryOps, MachineryFFs, Generated, HomodyneOps;
    EndIs(f, cfg, level, pt);
    RunsThroughFinal(f, cfg, level, pt, 0);
    CircuitLength(f, cfg, level);
    forall k: nat | k < cfg.Total()
      ensures Complete(end.ops, end.measured, k)
      ensures Readable(HomodyneOps(k), end.measured) && MacronodeOpIdx(k, 0) + 18 <= |end.ops|
      ensures MeasuredIn(end.measured, k) == ReadingsAt(f, end.ops, pt, MacronodeOpIdx(k, 0))
    {
      IsComplete(f, cfg, level, end.ops, end.measured, k);
      MeasuredAreRead(f, cfg, level, pt, k);
    }
  }

  /** The run of the graph circuit: no feedforward, the same inputs, a perfectly squeezed supply. */
  ghost function GraphExec(f: Functions, fin: seq<Op>, pt: Point, n: nat, total: nat, mlevel: real): Exec<Point, ()>
    requires AllUsed(f, fin, total) && total * OPS_PER_MACRONODE <= |fin| && n >= 1 && |pt.modes| == n + 5
  {
    Exec([GraphStart(f, fin, pt, n, total)], (), GraphOpsOf(f, fin, total, n, mlevel), map[])
  }

  /** What the theorem is about: a program all of whose macronodes teleport or measure, with feedforward
      generated from the angles, run from a point with ideal resources. */
  ghost predicate IdealRun(f: Functions, cfg: Config, level: real, pt: Point) {
    && f.Lawful() && cfg.Valid() && Compiles(cfg) && cfg.Forward() && AllGenerated(cfg)
    && Fresh(cfg.n, 0, pt)
    && AllUsed(f, MachineryEnd(f, cfg, level, pt).ops, cfg.Total())
    && |MachineryEnd(f, cfg, level, pt).ops| == cfg.Total() * OPS_PER_MACRONODE
  }

  /** Both runs reach macronode k, in related states. */
  ghost predicate AgreeBefore(f: Functions, cfg: Config, level: real, mlevel: real, pt: Point, k: nat)
    requires IdealRun(f, cfg, level, pt)
  {
    var fin := MachineryEnd(f, cfg, level, pt).ops;
    var machine := Run(PointKernel(f), MachineryFFs(f, cfg), MachineryStart(f, cfg, level, pt), 0, k * OPS_PER_MACRONODE);
    var graph := Run(PointKernel(f), [], GraphExec(f, fin, pt, cfg.n, cfg.Total(), mlevel), 0, First(Program(f, fin, cfg.Total()), k));
    && machine.Some? && |machine.value.peaks| == 1 && graph.Some? && |graph.value.peaks| == 1
    && Related(cfg.n, k, machine.value.peaks[0], graph.value.peaks[0])
  }

  /** The graph run reports M_b and M_d of macronode k. */
  ghost predicate AgreeOnReadout(f: Functions, cfg: Config, level: real, mlevel: real, pt: Point, k: nat)
    requires IdealRun(f, cfg, level, pt) && k < cfg.Total()
  {
    var end, program := MachineryEnd(f, cfg, level, pt), Program(f, MachineryEnd(f, cfg, level, pt).ops, cfg.Total());
    var graph := Execute(PointKernel(f), [], GraphExec(f, end.ops, pt, cfg.n, cfg.Total(), mlevel));
    && graph.Some? && Readable(HomodyneOps(k), end.measured)
    && First(program, k) + 1 in graph.value.measured && First(program, k) + 4 in graph.value.measured
    && graph.value.measured[First(program, k) + 1] == MReadout(1, MeasuredIn(end.measured, k))
    && graph.value.measured[First(program, k) + 4] == MReadout(3, MeasuredIn(end.measured, k))
  }

  lemma {:induction false} IdealMeans(f: Functions, cfg: Config, level: real, pt: Point)
    requires IdealRun(f, cfg, level, pt)
    ensures cfg.Valid() && cfg.n >= 1 && |pt.modes| == cfg.n + 5 && Compiles(cfg) && cfg.Forward()
    ensures MachineryRun(f, cfg, level, MachineryEnd(f, cfg, level, pt).ops, MachineryEnd(f, cfg, level, pt).measured, pt)
  {
    hide Functions.Lawful, Compiles, Config.Forward, AllGenerated, AllUsed, MachineryEnd, MachineryRun, IdealSupply, ModeIdx;
    EndIsMachineryRun(f, cfg, level, pt);
  }

  lemma {:induction false} AgreesBefore(f: Functions, cfg: Config, level: real, mlevel: real, pt: Point, k: nat)
    requires IdealRun(f, cfg, level, pt) && k <= cfg.Total()
    ensures AgreeBefore(f, cfg, level, mlevel, pt, k)
  {
    IdealMeans(f, cfg, level, pt);
    var n, total, end := cfg.n, cfg.Total(), MachineryEnd(f, cfg, level, pt);
    hide Functions.Lawful, Compiles, Config.Forward, AllGenerated, AllUsed, MachineryEnd, MachineryRun, MachineryOps, MachineryFFs, Run, Related,
      SupplyFrom, First, Program, GraphOpsOf, GraphStart, PointAt, PointKernel, IsPointRun, Fresh, MachineryStart;
    Within(total, k);
    StaysInStep(f, cfg, level, mlevel, end.ops, end.measured, pt, k);
    CircuitLength(f, cfg, level);
    RunsThroughFinal(f, cfg, level, pt, k * OPS_PER_MACRONODE);
    PointRunMeans(f, end.ops, pt,
                  Run(PointKernel(f), MachineryFFs(f, cfg), MachineryStart(f, cfg, level, pt), 0, k * OPS_PER_MACRONODE).value.(ops := end.ops),
                  k * OPS_PER_MACRONODE);
    FirstInGraph(f, end.ops, total, n, mlevel, k);
    var gops, g := GraphOpsOf(f, end.ops, total, n, mlevel), GraphStart(f, end.ops, pt, n, total);
    var i := First(Program(f, end.ops, total), k);
    RunOnPoints(f, gops, g, i);
    PointRunMeans(f, gops, g, Run(PointKernel(f), [], Exec([g], (), gops, map[]), 0, i).value, i);
  }

  /** Macronode k is there, and measures. */
  ghost predicate Reads(f: Functions, fin: seq<Op>, k: nat) {
    Ready(fin, k) && Measures(f, AnglesIn(fin, k))
  }

  lemma {:induction false} ReadsMeans(f: Functions, fin: seq<Op>, k: nat)
    requires Reads(f, fin, k)
    ensures Ready(fin, k) && Measures(f, DataOf(fin, k).t)
  {
    hide Ready, Measures;
    DataAngles(fin, k);
  }

  lemma {:induction false} IdealMeansMore(f: Functions, cfg: Config, level: real, pt: Point)
    requires IdealRun(f, cfg, level, pt)
    ensures var fin := MachineryEnd(f, cfg, level, pt).ops;
      AllUsed(f, fin, cfg.Total()) && |fin| == cfg.Total() * OPS_PER_MACRONODE && Fresh(cfg.n, 0, pt)
  {
    hide Functions.Lawful, Compiles, Config.Forward, AllGenerated, AllUsed, MachineryEnd, Fresh;
  }

  /** The measured value of operation j of a run is what it reads. */
  ghost predicate ReportsReading(f: Functions, ops: seq<Op>, g: Point, j: nat) {
    var e := Execute(PointKernel(f), [], Exec([g], (), ops, map[]));
    j < |ops| && e.Some? && j in e.value.measured && e.value.measured[j] == Reading(f, ops[j], PointAt(f, ops, g, j))
  }

  lemma {:induction false} GraphReads(f: Functions, ops: seq<Op>, g: Point, j: nat)
    requires j < |ops| && IsMeasurement(ops[j].kind)
    ensures ReportsReading(f, ops, g, j)
  {
    hide Run, PointKernel, IsPointRun, PointAt, Reading;
    RunOnPoints(f, ops, g, |ops|);
    PointRunMeans(f, ops, g, Run(PointKernel(f), [], Exec([g], (), ops, map[]), 0, |ops|).value, |ops|);
  }

  lemma {:induction false} AgreesOnReadout(f: Functions, cfg: Config, level: real, mlevel: real, pt: Point, k: nat)
    requires IdealRun(f, cfg, level, pt) && k < cfg.Total() && Reads(f, MachineryEnd(f, cfg, level, pt).ops, k)
    ensures AgreeOnReadout(f, cfg, level, mlevel, pt, k)
  {
    hide *;
    IdealMeans(f, cfg, level, pt);
    IdealMeansMore(f, cfg, level, pt);
    var n, total, end := cfg.n, cfg.Total(), MachineryEnd(f, cfg, level, pt);
    ReadsMeans(f, end.ops, k);
    Within(total, k);
    StaysInStep(f, cfg, level, mlevel, end.ops, end.measured, pt, k);
    MeasureStep(f, cfg, level, mlevel, end.ops, end.measured, pt, k);
    MeasuredAreRead(f, cfg, level, pt, k);
    ProgramMember(f, end.ops, total, n, mlevel, k);
    var gops, g := GraphOpsOf(f, end.ops, total, n, mlevel), GraphStart(f, end.ops, pt, n, total);
    var first := First(Program(f, end.ops, total), k);
    GroupKinds(f, gops, first, k % n + 1, DataOf(end.ops, k), mlevel);
    GraphReads(f, gops, g, first + 1);
    GraphReads(f, gops, g, first + 4);
    Reports(f, cfg, level, mlevel, pt, k);
  }

  lemma {:induction false} Reports(f: Functions, cfg: Config, level: real, mlevel: real, pt: Point, k: nat)
    requires IdealRun(f, cfg, level, pt) && k < cfg.Total() && |pt.modes| == cfg.n + 5
    requires MacronodeOpIdx(k, 0) + 18 <= |MachineryEnd(f, cfg, level, pt).ops|
    requires SameReadouts(f, cfg, mlevel, MachineryEnd(f, cfg, level, pt).ops, pt, k)
    requires var end := MachineryEnd(f, cfg, level, pt);
      Readable(HomodyneOps(k), end.measured) && MeasuredIn(end.measured, k) == ReadingsAt(f, end.ops, pt, MacronodeOpIdx(k, 0))
    requires var fin := MachineryEnd(f, cfg, level, pt).ops;
      var gops, g := GraphOpsOf(f, fin, cfg.Total(), cfg.n, mlevel), GraphStart(f, fin, pt, cfg.n, cfg.Total());
      var first := First(Program(f, fin, cfg.Total()), k);
      ReportsReading(f, gops, g, first + 1) && ReportsReading(f, gops, g, first + 4)
    ensures AgreeOnReadout(f, cfg, level, mlevel, pt, k)
  {
    hide IdealRun, MachineryEnd, GraphOpsOf, GraphStart, First, Program, Execute, PointKernel, Reading, PointAt, MReadout, MeasuredIn, HomodyneOps, ReadingsAt;
    IdealMeansMore(f, cfg, level, pt);
  }

  lemma {:induction false} GroupKinds(f: Functions, ops: seq<Op>, first: nat, left: nat, data: MacronodeData, level: real)
    requires IsMeasurementGroup(f, ops, first, 0, left, data.d1, data.dn, data.t.a, level)
    ensures first + 6 <= |ops| && IsMeasurement(ops[first + 1].kind) && IsMeasurement(ops[first + 4].kind)
  {
  }

  /** The graph program is sorted and compiles, and its run starts from a perfectly squeezed supply. */
  ghost predicate GraphIsIdeal(f: Functions, cfg: Config, mlevel: real, fin: seq<Op>, pt: Point)
    requires AllUsed(f, fin, cfg.Total()) && cfg.Total() * OPS_PER_MACRONODE <= |fin| && cfg.n >= 1 && |pt.modes| == cfg.n + 5
  {
    && Sorted(Program(f, fin, cfg.Total())) && GroupsOk(f, cfg.n, Program(f, fin, cfg.Total()), mlevel, cfg.Total())
    && IdealSupply(GraphStart(f, fin, pt, cfg.n, cfg.Total()).supply)
  }

  lemma {:induction false} IsIdeal(f: Functions, cfg: Config, mlevel: real, fin: seq<Op>, pt: Point)
    requires AllUsed(f, fin, cfg.Total()) && cfg.Total() * OPS_PER_MACRONODE <= |fin| && cfg.n >= 1 && |pt.modes| == cfg.n + 5
    ensures GraphIsIdeal(f, cfg, mlevel, fin, pt)
  {
    hide AllUsed, GroupsOk, SupplyFrom, IdealSupply, DataOf;
    ProgramCompiles(f, fin, cfg.Total(), cfg.n, mlevel);
    SupplyIdeal(f, fin, pt, cfg.n, cfg.Total(), 0);
  }

  /** With ideal resources, non-measurable angles (or four equal ones), and feedforward generated from the
      angles, the machinery computes on phase-space points what the graph circuit with unswapped Manual
      gates of the same angles (or measurements at the same angle) and the same displacements computes:
      before every macronode the inputs and the delay line hold the graph's modes, and M_b and M_d of
      every measured macronode are what the graph measures, whatever the measured values are. */
  lemma {:induction false} MachineryRefinesGraph(f: Functions, cfg: Config, level: real, mlevel: real, pt: Point)
    requires IdealRun(f, cfg, level, pt)
    ensures GraphIsIdeal(f, cfg, mlevel, MachineryEnd(f, cfg, level, pt).ops, pt)
    ensures forall k: nat | k <= cfg.Total() :: AgreeBefore(f, cfg, level, mlevel, pt, k)
    ensures forall k: nat | k < cfg.Total() && Reads(f, MachineryEnd(f, cfg, level, pt).ops, k) :: AgreeOnReadout(f, cfg, level, mlevel, pt, k)
  {
    hide *;
    IdealMeans(f, cfg, level, pt);
    IdealMeansMore(f, cfg, level, pt);
    var fin, total := MachineryEnd(f, cfg, level, pt).ops, cfg.Total();
    IsIdeal(f, cfg, mlevel, fin, pt);
    forall k: nat | k <= total ensures AgreeBefore(f, cfg, level, mlevel, pt, k) {
      AgreesBefore(f, cfg, level, mlevel, pt, k);
    }
    forall k: nat | k < total && Reads(f, fin, k) ensures AgreeOnReadout(f, cfg, level, mlevel, pt, k) {
      AgreesOnReadout(f, cfg, level, mlevel, pt, k);
    }
  }
}
