/** The result decoder: it finds the measurements of the readout macronodes by counting operations on its own. */
module GraphResult {
  import opened Elementary
  import opened Operations
  import opened GraphProgram
  import opened GraphCircuitBuilder

  datatype Info = Info(macronode: nat, isUp: bool)

  /** Macronode m is a measurement or an initialization to be read out. */
  predicate IsReadout(sorted: seq<GraphOperation>, m: nat) {
    OpFor(sorted, m).type_ in {Measurement, Initialization} && OpFor(sorted, m).readout
  }

  /** The operation with index idx reads the up or the left mode of readout macronode m. */
  predicate Entry(sorted: seq<GraphOperation>, total: nat, idx: nat, info: Info) {
    info.macronode < total && IsReadout(sorted, info.macronode) && idx == First(sorted, info.macronode) + (if info.isUp then 1 else 4)
  }

  /** The table has exactly the measurements of the readout macronodes before m. */
  ghost predicate IsOpMap(sorted: seq<GraphOperation>, m: nat, table: map<nat, Info>) {
    && (forall idx: nat | idx in table :: Entry(sorted, m, idx, table[idx]))
    && (forall idx: nat, info: Info | Entry(sorted, m, idx, info) :: idx in table)
  }

  lemma {:induction false} FirstFollows(sorted: seq<GraphOperation>, m: nat)
    requires IsReadout(sorted, m)
    ensures First(sorted, m + 1) == First(sorted, m) + 6
  {
    hide OpFor;
  }

  /** Entries of earlier macronodes come before the operations of macronode m. */
  lemma {:induction false} EntryBefore(sorted: seq<GraphOperation>, m: nat, idx: nat, info: Info)
    requires Entry(sorted, m, idx, info)
    ensures idx < First(sorted, m)
  {
    hide OpFor, IsReadout, First;
    FirstFollows(sorted, info.macronode);
    FirstGrows(sorted, info.macronode + 1, m);
  }

  /** An index belongs to at most one macronode and mode. */
  lemma {:induction false} EntryUnique(sorted: seq<GraphOperation>, total: nat, idx: nat, a: Info, b: Info)
    requires Entry(sorted, total, idx, a) && Entry(sorted, total, idx, b)
    ensures a == b
  {
    hide IsReadout, First;
    FirstFollows(sorted, a.macronode);
    FirstFollows(sorted, b.macronode);
    if a.macronode != b.macronode {
      MacronodesApart(sorted, a.macronode, b.macronode, idx, idx);
    }
  }

  /** `UpdateMeasurementOpMap`; fails when an index is already there. */
  method UpdateMeasurementOpMap(macronode: nat, first: nat, table: map<nat, Info>) returns (r: map<nat, Info>, ok: bool)
    ensures ok == (first + 1 !in table && first + 4 !in table)
    ensures ok ==> r == table[first + 1 := Info(macronode, true)][first + 4 := Info(macronode, false)]
  {
    r, ok := table, false;
    if first + 1 in r {
      return;
    }
    r := r[first + 1 := Info(macronode, true)];
    if first + 4 in r {
      return;
    }
    r := r[first + 4 := Info(macronode, false)];
    ok := true;
  }

  lemma {:induction false} OneMoreReadout(sorted: seq<GraphOperation>, m: nat, table: map<nat, Info>)
    requires IsOpMap(sorted, m, table)
    ensures IsReadout(sorted, m) ==> First(sorted, m) + 1 !in table && First(sorted, m) + 4 !in table
    ensures IsOpMap(sorted, m + 1,
                    if IsReadout(sorted, m) then table[First(sorted, m) + 1 := Info(m, true)][First(sorted, m) + 4 := Info(m, false)] else table)
  {
    hide IsReadout, First;
    var first := First(sorted, m);
    forall idx: nat | idx in table ensures idx < first {
      EntryBefore(sorted, m, idx, table[idx]);
    }
    var r := if IsReadout(sorted, m) then table[first + 1 := Info(m, true)][first + 4 := Info(m, false)] else table;
    forall idx: nat | idx in r ensures Entry(sorted, m + 1, idx, r[idx]) {
      if idx in table {
        assert Entry(sorted, m, idx, table[idx]);
      }
    }
    var next := m + 1;
    forall idx: nat, info: Info | Entry(sorted, next, idx, info) ensures idx in r {
      if info.macronode < m {
        assert Entry(sorted, m, idx, info);
      }
    }
  }

  lemma {:induction false} NoReadoutYet(sorted: seq<GraphOperation>)
    ensures IsOpMap(sorted, 0, map[])
  {
  }

  lemma {:induction false} FirstStep(sorted: seq<GraphOperation>, m: nat)
    ensures var count := CountOperations(OpFor(sorted, m).type_);
      (count.None? <==> OpFor(sorted, m).type_ == UnspecifiedType)
      && First(sorted, m + 1) == First(sorted, m) + (if count.Some? then count.value else 0)
  {
    hide OpFor;
  }

  method ConstructMeasurementOpMap(g: Graph) returns (table: map<nat, Info>, ok: bool, sorted: seq<GraphOperation>)
    requires g.Valid()
    ensures Sorted(sorted) && multiset(sorted) == multiset(g.operations)
    ensures ok == Supported(sorted, g.Total())
    ensures ok ==> IsOpMap(sorted, g.Total(), table)
  {
    hide IsOpMap, First, CountOperations, Sorted;
    table := map[];
    var graphOperations := SortByMacronode(g.operations);
    sorted := graphOperations;
    NoReadoutYet(sorted);
    var graphOpIndex, circuitOpIndex := 0, 0;
    assert First(sorted, 0) == 0 by { FirstStarts(sorted); }
    for m := 0 to g.Total()
      invariant graphOpIndex == OpIndex(sorted, m) && circuitOpIndex == First(sorted, m)
      invariant IsOpMap(sorted, m, table) && Supported(sorted, m)
    {
      OneMoreReadout(sorted, m, table);
      FirstStep(sorted, m);
      if graphOpIndex < |graphOperations| && m == graphOperations[graphOpIndex].macronode {
        var op := graphOperations[graphOpIndex];
        if (op.type_ == Measurement || op.type_ == Initialization) && op.readout {
          table, ok := UpdateMeasurementOpMap(op.macronode, circuitOpIndex, table);
        }
        var count := CountOperations(op.type_);
        if count.None? {
          ok := false;
          return;
        }
        circuitOpIndex := circuitOpIndex + count.value;
        graphOpIndex := graphOpIndex + 1;
      } else {
        assert CountOperations(Wiring) == Some(2) by { WiringCount(); }
        circuitOpIndex := circuitOpIndex + 2;
      }
    }
    ok := true;
  }

  lemma {:induction false} FirstStarts(sorted: seq<GraphOperation>)
    ensures First(sorted, 0) == 0
  {
  }

  lemma {:induction false} WiringCount()
    ensures CountOperations(Wiring) == Some(2)
  {
  }

  // ----- agreement with the compiler -----

  /** Operation j of macronode m is at index First(m) + j. */
  lemma {:induction false} GraphOpsAt(f: Functions, n: nat, sorted: seq<GraphOperation>, level: real, total: nat, m: nat, j: nat)
    requires n >= 1 && GroupsOk(f, n, sorted, level, total) && m < total
    requires GroupOf(f, n, sorted, level, m).Some? && j < |GroupOf(f, n, sorted, level, m).value|
    ensures First(sorted, m) + j < |GraphOps(f, n, sorted, level, total)|
    ensures GraphOps(f, n, sorted, level, total)[First(sorted, m) + j] == GroupOf(f, n, sorted, level, m).value[j]
  {
    hide GroupOf, GroupOk, First;
    if m < total - 1 {
      GraphOpsAt(f, n, sorted, level, total - 1, m, j);
    } else {
      FirstIsLength(f, n, sorted, level, m);
      OneMoreGroup(f, n, sorted, level, m);
    }
  }

  lemma {:induction false} IsWhere(f: Functions, n: nat, sorted: seq<GraphOperation>, level: real, total: nat, idx: nat) returns (m: nat, j: nat)
    requires n >= 1 && GroupsOk(f, n, sorted, level, total) && idx < |GraphOps(f, n, sorted, level, total)|
    ensures m < total && idx == First(sorted, m) + j && idx < First(sorted, m + 1)
    ensures GroupOf(f, n, sorted, level, m).Some? && j < |GroupOf(f, n, sorted, level, m).value|
  {
    hide GroupOf, GroupOk, First;
    FirstIsLength(f, n, sorted, level, total);
    FirstIsLength(f, n, sorted, level, total - 1);
    OneMoreGroup(f, n, sorted, level, total - 1);
    if idx < First(sorted, total - 1) {
      m, j := IsWhere(f, n, sorted, level, total - 1, idx);
    } else {
      m, j := total - 1, idx - First(sorted, total - 1);
      assert GroupOf(f, n, sorted, level, m).Some? by { GroupOkMeans(f, n, sorted, level, m); }
    }
  }

  /** A readout macronode is one that measures, of either type, and is to be read out. */
  lemma {:induction false} ReadoutMeans(sorted: seq<GraphOperation>, m: nat)
    ensures IsReadout(sorted, m) <==> ShapeOf(OpFor(sorted, m).type_).MeasurementShape? && OpFor(sorted, m).readout
  {
    hide OpFor;
  }

  /** The table the decoder computes contains exactly the homodyne measurements the compiler made for
      macronodes to be read out, each with its macronode, and flagged up exactly when it acts on the up mode. */
  lemma {:induction false} DecoderAgrees(
    f: Functions, n: nat, sorted: seq<GraphOperation>, level: real, total: nat, table: map<nat, Info>, idx: nat)
    requires n >= 1 && GroupsOk(f, n, sorted, level, total) && IsOpMap(sorted, total, table)
    ensures idx in table <==>
              idx < |GraphOps(f, n, sorted, level, total)| && IsMeasurement(GraphOps(f, n, sorted, level, total)[idx].kind)
              && exists m :: 0 <= m < total && First(sorted, m) <= idx < First(sorted, m + 1) && OpFor(sorted, m).readout
    ensures idx in table ==>
              var op, info := GraphOps(f, n, sorted, level, total)[idx], table[idx];
              && info.macronode < total && First(sorted, info.macronode) <= idx < First(sorted, info.macronode + 1)
              && op.kind == HomodyneSingleMode
              && op.modes == [if info.isUp then UpMode(n, sorted, info.macronode) else LeftMode(n, sorted, info.macronode)]
              && UpMode(n, sorted, info.macronode) != LeftMode(n, sorted, info.macronode)
  {
    hide First, UpMode, LeftMode, GroupOk, OpFor;
    if idx in table {
      var info := table[idx];
      assert Entry(sorted, total, idx, info);
      ReadoutOp(f, n, sorted, level, total, info);
      ReadoutMeans(sorted, info.macronode);
    }
    if idx < |GraphOps(f, n, sorted, level, total)| && IsMeasurement(GraphOps(f, n, sorted, level, total)[idx].kind) {
      var m, j := IsWhere(f, n, sorted, level, total, idx);
      GraphOpsAt(f, n, sorted, level, total, m, j);
      CountsAgree(f, OpFor(sorted, m), UpMode(n, sorted, m), LeftMode(n, sorted, m), level);
      forall l | 0 <= l < total && First(sorted, l) <= idx < First(sorted, l + 1) ensures l == m {
        if l != m {
          MacronodesApart(sorted, l, m, idx, idx);
        }
      }
      ReadoutMeans(sorted, m);
      if OpFor(sorted, m).readout {
        assert Entry(sorted, total, idx, Info(m, j == 1));
      }
    }
  }

  lemma {:induction false} ReadoutOp(f: Functions, n: nat, sorted: seq<GraphOperation>, level: real, total: nat, info: Info)
    requires n >= 1 && GroupsOk(f, n, sorted, level, total) && info.macronode < total && IsReadout(sorted, info.macronode)
    ensures var m := info.macronode;
      var idx := First(sorted, m) + (if info.isUp then 1 else 4);
      && idx < |GraphOps(f, n, sorted, level, total)| && idx < First(sorted, m + 1)
      && GraphOps(f, n, sorted, level, total)[idx].kind == HomodyneSingleMode
      && GraphOps(f, n, sorted, level, total)[idx].modes == [if info.isUp then UpMode(n, sorted, m) else LeftMode(n, sorted, m)]
      && UpMode(n, sorted, m) != LeftMode(n, sorted, m)
  {
    hide First, UpMode, LeftMode, OpFor, GroupOk;
    var m, j := info.macronode, if info.isUp then 1 else 4;
    GroupOkMeans(f, n, sorted, level, m);
    assert GroupOk(f, n, sorted, level, m);
    GraphOpsAt(f, n, sorted, level, total, m, j);
    FirstFollows(sorted, m);
    ModesDiffer(n, sorted, m);
  }

  lemma {:induction false} ModesDiffer(n: nat, sorted: seq<GraphOperation>, m: nat)
    requires n >= 1
    ensures UpMode(n, sorted, m) != LeftMode(n, sorted, m) && UpMode(n, sorted, m) <= n && LeftMode(n, sorted, m) <= n
  {
    InputModesPermute(n, sorted, m);
    hide InputModes;
  }

  // ----- the values of one shot -----

  datatype MacronodeMeasuredValue = MacronodeMeasuredValue(mB: real, mD: real)

  /** The values collected so far from the operations in `done`. */
  ghost predicate Collected(table: map<nat, Info>, measured: map<nat, real>, done: set<nat>, values: map<nat, MacronodeMeasuredValue>) {
    && (forall idx | idx in done && idx in table && idx in measured ::
          table[idx].macronode in values
          && measured[idx] == (if table[idx].isUp then values[table[idx].macronode].mB else values[table[idx].macronode].mD))
    && (forall m: nat | m in values :: exists idx :: idx in done && idx in table && table[idx].macronode == m)
  }

  /** Different operations are different halves of a macronode. */
  ghost predicate OneToOne(table: map<nat, Info>) {
    forall a, b | a in table && b in table && a != b :: table[a] != table[b]
  }

  /** The inner loop of `ExtractGraphResult`: the values of one shot, by macronode. */
  method ExtractShot(table: map<nat, Info>, measured: map<nat, real>) returns (values: map<nat, MacronodeMeasuredValue>)
    requires OneToOne(table)
    ensures Collected(table, measured, measured.Keys, values)
  {
    values := map[];
    var todo := measured.Keys;
    ghost var done: set<nat> := {};
    while todo != {}
      invariant done + todo == measured.Keys && done !! todo
      invariant Collected(table, measured, done, values)
      decreases todo
    {
      var idx :| idx in todo;
      todo := todo - {idx};
      done := done + {idx};
      if idx in table {
        var m := table[idx].macronode;
        var v := if m in values then values[m] else MacronodeMeasuredValue(0.0, 0.0);
        values := values[m := if table[idx].isUp then v.(mB := measured[idx]) else v.(mD := measured[idx])];
      }
    }
  }

  lemma {:induction false} TableIsOneToOne(sorted: seq<GraphOperation>, total: nat, table: map<nat, Info>)
    requires IsOpMap(sorted, total, table)
    ensures OneToOne(table)
  {
    hide IsReadout, First;
    forall a, b | a in table && b in table && a != b ensures table[a] != table[b] {
      assert Entry(sorted, total, a, table[a]) && Entry(sorted, total, b, table[b]);
    }
  }

  /** For a run of the compiled circuit, the decoder reports the readout macronodes and nothing else, with
      the value measured on the up mode as m_b and the one measured on the left mode as m_d. */
  lemma {:induction false} ReportsReadouts(
    f: Functions, n: nat, sorted: seq<GraphOperation>, level: real, total: nat, table: map<nat, Info>, measured: map<nat, real>,
    values: map<nat, MacronodeMeasuredValue>, m: nat)
    requires n >= 1 && GroupsOk(f, n, sorted, level, total) && IsOpMap(sorted, total, table)
    requires forall j: nat :: j in measured <==>
               j < |GraphOps(f, n, sorted, level, total)| && IsMeasurement(GraphOps(f, n, sorted, level, total)[j].kind)
    requires Collected(table, measured, measured.Keys, values)
    ensures m in values <==> m < total && IsReadout(sorted, m)
    ensures m in values ==>
              && First(sorted, m) + 1 in measured && First(sorted, m) + 4 in measured
              && values[m] == MacronodeMeasuredValue(measured[First(sorted, m) + 1], measured[First(sorted, m) + 4])
  {
    hide First, GroupsOk, GraphOps, IsReadout, IsOpMap;
    if m in values {
      var idx :| idx in measured.Keys && idx in table && table[idx].macronode == m;
      EntryOf(sorted, total, table, idx);
    }
    if m < total && IsReadout(sorted, m) {
      var up, left := First(sorted, m) + 1, First(sorted, m) + 4;
      HasEntry(sorted, total, table, up, Info(m, true));
      HasEntry(sorted, total, table, left, Info(m, false));
      ReadoutOp(f, n, sorted, level, total, Info(m, true));
      ReadoutOp(f, n, sorted, level, total, Info(m, false));
      assert values[m].mB == measured[up] && values[m].mD == measured[left];
    }
  }

  /** `ExtractGraphResult` for one shot: the readout macronodes, each with its own two values. */
  method ExtractReadouts(
    ghost f: Functions, ghost n: nat, ghost sorted: seq<GraphOperation>, ghost level: real, ghost total: nat, table: map<nat, Info>,
    measured: map<nat, real>)
    returns (values: map<nat, MacronodeMeasuredValue>)
    requires n >= 1 && GroupsOk(f, n, sorted, level, total) && IsOpMap(sorted, total, table)
    requires forall j: nat :: j in measured <==>
               j < |GraphOps(f, n, sorted, level, total)| && IsMeasurement(GraphOps(f, n, sorted, level, total)[j].kind)
    ensures forall m: nat :: m in values <==> m < total && IsReadout(sorted, m)
    ensures forall m: nat | m in values ::
              && First(sorted, m) + 1 in measured && First(sorted, m) + 4 in measured
              && values[m] == MacronodeMeasuredValue(measured[First(sorted, m) + 1], measured[First(sorted, m) + 4])
  {
    hide First, GroupsOk, GraphOps, IsReadout, IsOpMap, OneToOne, Collected;
    TableIsOneToOne(sorted, total, table);
    values := ExtractShot(table, measured);
    forall m: nat
      ensures m in values <==> m < total && IsReadout(sorted, m)
      ensures m in values ==>
                && First(sorted, m) + 1 in measured && First(sorted, m) + 4 in measured
                && values[m] == MacronodeMeasuredValue(measured[First(sorted, m) + 1], measured[First(sorted, m) + 4])
    {
      ReportsReadouts(f, n, sorted, level, total, table, measured, values, m);
    }
  }

  lemma {:induction false} EntryOf(sorted: seq<GraphOperation>, total: nat, table: map<nat, Info>, idx: nat)
    requires IsOpMap(sorted, total, table) && idx in table
    ensures Entry(sorted, total, idx, table[idx])
  {
  }

  lemma {:induction false} HasEntry(sorted: seq<GraphOperation>, total: nat, table: map<nat, Info>, idx: nat, info: Info)
    requires IsOpMap(sorted, total, table) && Entry(sorted, total, idx, info)
    ensures idx in table && table[idx] == info
  {
    assert Entry(sorted, total, idx, table[idx]);
    EntryUnique(sorted, total, idx, table[idx], info);
  }
}
