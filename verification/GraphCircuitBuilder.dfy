/** `GraphCircuit`: operations, then nonlinear feedforward, then feedforward into Arbitrary operations. */
module GraphCircuitBuilder {
  import opened Elementary
  import opened Operations
  import opened Engine
  import opened CircuitObject
  import opened Readout
  import opened GraphProgram
  import opened GraphCompiler
  import opened GraphFeedForward

  // ----- operations -----

  lemma {:induction false} GroupOkMeans(f: Functions, n: nat, sorted: seq<GraphOperation>, level: real, m: nat)
    requires n >= 1
    ensures GroupOk(f, n, sorted, level, m) <==>
              var g := GroupOf(f, n, sorted, level, m); g.Some? && AllConstructible(f, g.value)
  {
    hide Constructible;
  }

  lemma {:induction false} OneMoreGroup(f: Functions, n: nat, sorted: seq<GraphOperation>, level: real, m: nat)
    requires n >= 1 && GroupsOk(f, n, sorted, level, m) && GroupOk(f, n, sorted, level, m)
    ensures GroupsOk(f, n, sorted, level, m + 1)
    ensures GraphOps(f, n, sorted, level, m + 1) == GraphOps(f, n, sorted, level, m) + GroupOf(f, n, sorted, level, m).value
  {
    hide GroupOk;
  }

  lemma {:induction false} OneMoreRecord(sorted: seq<GraphOperation>, m: nat)
    ensures Records(sorted, m + 1) == Records(sorted, m)[m := RecordOf(sorted, m)]
  {
    hide RecordOf;
  }

  /** Which macronodes hold an Arbitrary operation, and where its graph operation is. */
  ghost predicate IsArbitraryIndex(sorted: seq<GraphOperation>, total: nat, arbitrary: map<nat, nat>) {
    && (forall m: nat :: m in arbitrary <==> m < total && IsArbitrary(sorted, m))
    && (forall m: nat | m in arbitrary :: HasOp(sorted, m) && arbitrary[m] == OpIndex(sorted, m))
  }

  lemma {:induction false} OneMoreArbitrary(sorted: seq<GraphOperation>, m: nat, arbitrary: map<nat, nat>)
    requires IsArbitraryIndex(sorted, m, arbitrary)
    ensures IsArbitrary(sorted, m) ==> HasOp(sorted, m)
    ensures IsArbitraryIndex(sorted, m + 1, if IsArbitrary(sorted, m) then arbitrary[m := OpIndex(sorted, m)] else arbitrary)
  {
    hide OpIndex;
  }

  method EmplaceMacronodes(f: Functions, g: Graph, sorted: seq<GraphOperation>, level: real, circuit: Circuit)
    returns (records: map<nat, CircuitOperations>, arbitrary: map<nat, nat>, ok: bool)
    requires g.Valid() && circuit.Valid() && circuit.operations == []
    modifies circuit`operations
    ensures circuit.Valid()
    ensures ok == GroupsOk(f, g.n, sorted, level, g.Total())
    ensures ok ==> circuit.operations == GraphOps(f, g.n, sorted, level, g.Total())
    ensures ok ==> records == Records(sorted, g.Total()) && IsArbitraryIndex(sorted, g.Total(), arbitrary)
  {
    hide Circuit.Valid, GroupOk, Group, AllConstructible, RecordAt, OpConstructible, IsArbitraryIndex;
    var n := g.n;
    var inputModes := seq(n + 1, i => i);
    records, arbitrary := map[], map[];
    var graphOpIndex := 0;
    assert IsArbitraryIndex(sorted, 0, arbitrary) by { NoArbitraryYet(sorted); }
    for m := 0 to g.Total()
      invariant circuit.Valid()
      invariant inputModes == InputModes(n, sorted, m) && graphOpIndex == OpIndex(sorted, m)
      invariant GroupsOk(f, n, sorted, level, m) && circuit.operations == GraphOps(f, n, sorted, level, m)
      invariant records == Records(sorted, m) && IsArbitraryIndex(sorted, m, arbitrary)
    {
      FirstIsLength(f, n, sorted, level, m);
      GroupOkMeans(f, n, sorted, level, m);
      var l := m % n + 1;
      var upMode, leftMode := inputModes[0], inputModes[l];
      var record: CircuitOperations;
      OneMoreArbitrary(sorted, m, arbitrary);
      if graphOpIndex < |sorted| && m == sorted[graphOpIndex].macronode {
        var op := sorted[graphOpIndex];
        record, ok := AddOperations(f, circuit, op, upMode, leftMode, level);
        if !ok {
          return;
        }
        if op.swap {
          inputModes := inputModes[0 := leftMode][l := upMode];
        }
        if op.type_ == ArbitraryFirst || op.type_ == ArbitrarySecond {
          arbitrary := arbitrary[m := graphOpIndex];
        }
        graphOpIndex := graphOpIndex + 1;
      } else {
        record, ok := AddOperations(f, circuit, WiringThrough(m), upMode, leftMode, level);
        if !ok {
          return;
        }
      }
      OneMoreGroup(f, n, sorted, level, m);
      OneMoreRecord(sorted, m);
      records := records[m := record];
    }
    ok := true;
  }

  lemma {:induction false} NoArbitraryYet(sorted: seq<GraphOperation>)
    ensures IsArbitraryIndex(sorted, 0, map[])
  {
  }

  // ----- nonlinear feedforward -----

  ghost predicate IsPending(g: Graph, sorted: seq<GraphOperation>, i: nat, pending: map<nat, seq<Pending>>)
    requires g.Valid() && i <= |g.nlffs| && AllResolve(g, sorted, i)
  {
    forall m: nat :: PendingFor(g, sorted, m, i) == (if m in pending then pending[m] else []) && (m in pending ==> pending[m] != [])
  }

  /** The nonlinear feedforwards before i resolve, and the ones added directly have different targets. */
  ghost predicate DirectsOk(f: Functions, g: Graph, sorted: seq<GraphOperation>, ops: seq<Op>, i: nat)
    requires g.Valid() && i <= |g.nlffs|
  {
    AllResolve(g, sorted, i) && UniqueTargets(Directs(f, g, sorted, ops, i))
  }

  lemma {:induction false} DirectsPrefix(f: Functions, g: Graph, sorted: seq<GraphOperation>, ops: seq<Op>, i: nat, j: nat)
    requires g.Valid() && i <= j <= |g.nlffs| && AllResolve(g, sorted, j)
    ensures Directs(f, g, sorted, ops, i) <= Directs(f, g, sorted, ops, j)
    decreases j - i
  {
    hide Direct;
    if i < j {
      DirectsPrefix(f, g, sorted, ops, i, j - 1);
    }
  }

  /** A target taken among the direct feedforwards stays taken. */
  lemma {:induction false} TakenForGood(f: Functions, g: Graph, sorted: seq<GraphOperation>, ops: seq<Op>, i: nat, j: nat)
    requires g.Valid() && i < |g.nlffs| && AllResolve(g, sorted, i + 1) && !Stored(g, sorted, i) && j < |Targets(g, sorted, i)|
    requires exists l :: 0 <= l < |Directs(f, g, sorted, ops, i)| + j
                         && (Directs(f, g, sorted, ops, i) + DirectUpTo(f, g, sorted, ops, i, j))[l].target == Targets(g, sorted, i)[j]
    ensures !DirectsOk(f, g, sorted, ops, |g.nlffs|)
  {
    hide *;
    if DirectsOk(f, g, sorted, ops, |g.nlffs|) {
      DirectsOkMeans(f, g, sorted, ops);
      OneMoreDirect(f, g, sorted, ops, i);
      DirectsPrefix(f, g, sorted, ops, i + 1, |g.nlffs|);
      ResolveBoth(g, sorted, i);
      PartOf(f, g, sorted, ops, i, j);
      PrefixDuplicate(Directs(f, g, sorted, ops, i), DirectUpTo(f, g, sorted, ops, i, j),
                      DirectUpTo(f, g, sorted, ops, i, |Targets(g, sorted, i)|), Directs(f, g, sorted, ops, |g.nlffs|), j);
    }
  }

  lemma {:induction false} DirectsOkMeans(f: Functions, g: Graph, sorted: seq<GraphOperation>, ops: seq<Op>)
    requires g.Valid() && DirectsOk(f, g, sorted, ops, |g.nlffs|)
    ensures AllResolve(g, sorted, |g.nlffs|) && UniqueTargets(Directs(f, g, sorted, ops, |g.nlffs|))
  {
  }

  lemma {:induction false} PartOf(f: Functions, g: Graph, sorted: seq<GraphOperation>, ops: seq<Op>, i: nat, j: nat)
    requires g.Valid() && i < |g.nlffs| && Resolves(g, sorted, i) && j < |Targets(g, sorted, i)|
    ensures var all := DirectUpTo(f, g, sorted, ops, i, |Targets(g, sorted, i)|);
      |all| == |Targets(g, sorted, i)| && DirectUpTo(f, g, sorted, ops, i, j) == all[..j] && all[j].target == Targets(g, sorted, i)[j]
  {
    hide Resolves, Targets, Source, Func, FuncFor, KindOf;
  }

  lemma {:induction false} PrefixDuplicate(before: seq<FeedForward>, part: seq<FeedForward>, now: seq<FeedForward>, all: seq<FeedForward>, j: nat)
    requires j < |now| && part == now[..j] && before + now <= all
    requires exists l :: 0 <= l < |before| + j && (before + part)[l].target == now[j].target
    ensures !UniqueTargets(all)
  {
    var l :| 0 <= l < |before| + j && (before + part)[l].target == now[j].target;
    var m := |before| + j;
    assert all[l] == (before + now)[l] == (before + part)[l];
    assert all[m] == (before + now)[m] == now[j];
  }

  lemma {:induction false} OneMoreDirect(f: Functions, g: Graph, sorted: seq<GraphOperation>, ops: seq<Op>, i: nat)
    requires g.Valid() && i < |g.nlffs| && AllResolve(g, sorted, i + 1)
    ensures AllResolve(g, sorted, i)
    ensures Directs(f, g, sorted, ops, i + 1) == Directs(f, g, sorted, ops, i)
            + (if Stored(g, sorted, i) then [] else DirectUpTo(f, g, sorted, ops, i, |Targets(g, sorted, i)|))
  {
    hide Resolves;
  }

  lemma {:induction false} OneMorePending(g: Graph, sorted: seq<GraphOperation>, i: nat, pending: map<nat, seq<Pending>>, m: nat, ff: Pending)
    requires g.Valid() && i < |g.nlffs| && AllResolve(g, sorted, i) && Resolves(g, sorted, i) && IsPending(g, sorted, i, pending)
    requires m == g.nlffs[i].toMacronode && ff == Pending(Source(g, sorted, i), g.nlffs[i].toParameter, Func(g, i))
    ensures AllResolve(g, sorted, i + 1)
    ensures IsPending(g, sorted, i + 1,
                      if Stored(g, sorted, i) then pending[m := (if m in pending then pending[m] else []) + [ff]] else pending)
  {
    hide Resolves, Stored, Source;
  }

  lemma {:induction false} TargetOfArbitrary(g: Graph, sorted: seq<GraphOperation>, i: nat)
    requires i < |g.nlffs| && Resolves(g, sorted, i) && Stored(g, sorted, i)
    ensures |Targets(g, sorted, i)| == 1 && Targets(g, sorted, i)[0].param == g.nlffs[i].toParameter
  {
    ArbitraryRecord(sorted, g.nlffs[i].toMacronode);
    hide RecordOf, IsArbitrary, SourceOp;
  }

  lemma {:induction false} ArbitraryRecord(sorted: seq<GraphOperation>, m: nat)
    requires IsArbitrary(sorted, m)
    ensures RecordOf(sorted, m) == CircuitOperations(BinaryOperation, First(sorted, m), First(sorted, m) + 1, [First(sorted, m) + 2])
  {
    hide OpFor, First;
  }

  lemma {:induction false} NothingDirectYet(f: Functions, g: Graph, sorted: seq<GraphOperation>, ops: seq<Op>)
    requires g.Valid()
    ensures AllResolve(g, sorted, 0) && Directs(f, g, sorted, ops, 0) == [] && IsPending(g, sorted, 0, map[])
  {
  }

  lemma {:induction false} ResolveBoth(g: Graph, sorted: seq<GraphOperation>, i: nat)
    requires i < |g.nlffs|
    ensures AllResolve(g, sorted, |g.nlffs|) ==> AllResolve(g, sorted, i) && Resolves(g, sorted, i)
    ensures AllResolve(g, sorted, i) && Resolves(g, sorted, i) ==> AllResolve(g, sorted, i + 1)
  {
    hide Resolves;
  }

  /** Adds the feedforwards of nonlinear feedforward i, one per target. */
  method AddDirect(f: Functions, g: Graph, sorted: seq<GraphOperation>, i: nat, source: nat, targets: seq<ParamIdx>, circuit: Circuit)
    returns (ok: bool)
    requires g.Valid() && circuit.Valid() && i < |g.nlffs| && AllResolve(g, sorted, i) && Resolves(g, sorted, i)
    requires !Stored(g, sorted, i) && source == Source(g, sorted, i) && targets == Targets(g, sorted, i)
    requires circuit.ffList == Directs(f, g, sorted, circuit.operations, i)
    modifies circuit`ffList, circuit`ffFuncs, circuit`ffTargets
    ensures circuit.Valid() && AllResolve(g, sorted, i + 1)
    ensures ok ==> circuit.ffList == Directs(f, g, sorted, circuit.operations, i + 1)
    ensures !ok ==> !DirectsOk(f, g, sorted, circuit.operations, |g.nlffs|)
  {
    hide Circuit.Valid, Resolves, AllResolve, Directs, DirectsOk, FuncFor, Targets, Source, Func;
    ResolveBoth(g, sorted, i);
    ghost var ops := circuit.operations;
    OneMoreDirect(f, g, sorted, ops, i);
    var func := Func(g, i);
    for j := 0 to |targets|
      invariant circuit.Valid() && circuit.ffList == Directs(f, g, sorted, ops, i) + DirectUpTo(f, g, sorted, ops, i, j)
    {
      var ff := NewFeedForward([source], targets[j], FuncFor(f, func, KindOf(circuit.operations, targets[j])));
      ok := circuit.AddFF(ff.value);
      if !ok {
        TakenForGood(f, g, sorted, ops, i, j);
        return;
      }
    }
    ok := true;
  }

  method AddNonlinear(
    f: Functions, g: Graph, sorted: seq<GraphOperation>, records: map<nat, CircuitOperations>, arbitrary: map<nat, nat>, circuit: Circuit)
    returns (pending: map<nat, seq<Pending>>, ok: bool)
    requires g.Valid() && circuit.Valid() && circuit.ffList == []
    requires records == Records(sorted, g.Total()) && IsArbitraryIndex(sorted, g.Total(), arbitrary)
    modifies circuit`ffList, circuit`ffFuncs, circuit`ffTargets
    ensures circuit.Valid()
    ensures ok == DirectsOk(f, g, sorted, circuit.operations, |g.nlffs|)
    ensures ok ==> circuit.ffList == Directs(f, g, sorted, circuit.operations, |g.nlffs|)
    ensures ok ==> IsPending(g, sorted, |g.nlffs|, pending)
  {
    hide Circuit.Valid, Directs, DirectsOk, AllResolve, IsPending, SourceOp, TargetParams, Func, Records;
    ghost var ops := circuit.operations;
    NothingDirectYet(f, g, sorted, ops);
    pending := map[];
    for i := 0 to |g.nlffs|
      invariant circuit.Valid() && AllResolve(g, sorted, i)
      invariant circuit.ffList == Directs(f, g, sorted, ops, i) && IsPending(g, sorted, i, pending)
    {
      var nlff := g.nlffs[i];
      ResolveBoth(g, sorted, i);
      var source := SourceOp(records, nlff);
      var targets := TargetParams(records, nlff);
      if source.None? || targets.None? {
        assert !Resolves(g, sorted, i);
        if DirectsOk(f, g, sorted, ops, |g.nlffs|) {
          DirectsOkMeans(f, g, sorted, ops);
        }
        ok := false;
        return;
      }
      var ff := Pending(source.value, nlff.toParameter, Func(g, i));
      OneMorePending(g, sorted, i, pending, nlff.toMacronode, ff);
      KnownArbitrary(g, sorted, arbitrary, i);
      if nlff.toMacronode in arbitrary && nlff.toParameter < 4 {
        TargetOfArbitrary(g, sorted, i);
        OneMoreDirect(f, g, sorted, ops, i);
        pending := pending[nlff.toMacronode := (if nlff.toMacronode in pending then pending[nlff.toMacronode] else []) + [ff]];
      } else {
        ok := AddDirect(f, g, sorted, i, source.value, targets.value, circuit);
        if !ok {
          return;
        }
      }
    }
    ok := true;
    ValidIsUnique(circuit);
    AllDirect(f, g, sorted, ops);
  }

  lemma {:induction false} AllDirect(f: Functions, g: Graph, sorted: seq<GraphOperation>, ops: seq<Op>)
    requires g.Valid() && AllResolve(g, sorted, |g.nlffs|) && UniqueTargets(Directs(f, g, sorted, ops, |g.nlffs|))
    ensures DirectsOk(f, g, sorted, ops, |g.nlffs|)
  {
  }

  lemma {:induction false} KnownArbitrary(g: Graph, sorted: seq<GraphOperation>, arbitrary: map<nat, nat>, i: nat)
    requires i < |g.nlffs| && Resolves(g, sorted, i) && IsArbitraryIndex(sorted, g.Total(), arbitrary)
    ensures g.nlffs[i].toMacronode in arbitrary <==> IsArbitrary(sorted, g.nlffs[i].toMacronode)
  {
  }

  // ----- feedforward into Arbitrary operations -----

  /** No two nonlinear feedforwards write the same parameter, and an Arbitrary operation has three of them. */
  ghost predicate TargetsDistinct(g: Graph) {
    && (forall i, j | 0 <= i < j < |g.nlffs| ::
          g.nlffs[i].toMacronode != g.nlffs[j].toMacronode || g.nlffs[i].toParameter != g.nlffs[j].toParameter)
    && (forall i, l | 0 <= i < |g.nlffs| && 0 <= l < |g.operations| && g.operations[l].macronode == g.nlffs[i].toMacronode ::
          g.operations[l].type_ in {ArbitraryFirst, ArbitrarySecond} ==> g.nlffs[i].toParameter != 3)
  }

  lemma {:induction false} TargetsFitSorted(g: Graph, sorted: seq<GraphOperation>)
    requires TargetsDistinct(g) && multiset(sorted) == multiset(g.operations)
    ensures TargetsFit(g, sorted)
  {
    forall i | 0 <= i < |g.nlffs| && Stored(g, sorted, i) ensures g.nlffs[i].toParameter < 3 {
      var m := g.nlffs[i].toMacronode;
      var op := OpFor(sorted, m);
      assert op in multiset(sorted);
      assert op in g.operations;
    }
  }

  ghost predicate TargetsFit(g: Graph, sorted: seq<GraphOperation>) {
    && (forall i, j | 0 <= i < j < |g.nlffs| ::
          g.nlffs[i].toMacronode != g.nlffs[j].toMacronode || g.nlffs[i].toParameter != g.nlffs[j].toParameter)
    && (forall i | 0 <= i < |g.nlffs| && Stored(g, sorted, i) :: g.nlffs[i].toParameter < 3)
  }

  /** Different parameters, all of an Arbitrary operation. */
  ghost predicate Clean(ffs: seq<Pending>) {
    && (forall p | p in ffs :: p.param < 3 && multiset(ffs)[p] == 1)
    && (forall p, q | p in ffs && q in ffs && p != q :: p.param != q.param)
  }

  /** Different entries read different measurements. */
  ghost predicate SourcesDiffer(ffs: seq<Pending>) {
    forall p, q | p in ffs && q in ffs && p != q :: p.source != q.source
  }

  lemma {:induction false} CountedTwice(ffs: seq<Pending>, j: nat, l: nat)
    requires j < l < |ffs| && ffs[j] == ffs[l]
    ensures multiset(ffs)[ffs[j]] >= 2
  {
    assert ffs == ffs[..l] + ffs[l..];
    assert ffs[j] in ffs[..l] && ffs[l] in ffs[l..];
  }

  lemma {:induction false} SameMembers(a: seq<Pending>, b: seq<Pending>)
    requires multiset(a) == multiset(b)
    ensures forall p :: p in a <==> p in b
    ensures (Clean(a) <==> Clean(b)) && (SourcesDiffer(a) <==> SourcesDiffer(b))
  {
    assert forall p :: p in a <==> p in multiset(a);
    assert forall p :: p in b <==> p in multiset(b);
  }

  lemma {:induction false} CleanByIndex(ffs: seq<Pending>)
    requires Clean(ffs)
    ensures forall j | 0 <= j < |ffs| :: ffs[j].param < 3
    ensures forall j, l | 0 <= j < l < |ffs| :: ffs[j].param != ffs[l].param
    ensures SourcesDiffer(ffs) <==> DistinctSources(ffs)
  {
    forall j, l | 0 <= j < l < |ffs| ensures ffs[j] != ffs[l] {
      if ffs[j] == ffs[l] {
        CountedTwice(ffs, j, l);
      }
    }
  }

  lemma {:induction false} CleanAppend(ffs: seq<Pending>, x: Pending)
    requires Clean(ffs) && x.param < 3 && forall p | p in ffs :: p.param != x.param
    ensures Clean(ffs + [x])
  {
    var r := ffs + [x];
    assert multiset(r) == multiset(ffs) + multiset{x};
    assert x !in multiset(ffs);
    forall p | p in r ensures p.param < 3 && multiset(r)[p] == 1 {
      if p != x {
        assert p in ffs;
      }
    }
  }

  /** p comes from one of the first i nonlinear feedforwards. */
  ghost predicate ComesFrom(g: Graph, sorted: seq<GraphOperation>, m: nat, i: nat, p: Pending)
    requires g.Valid() && i <= |g.nlffs| && AllResolve(g, sorted, i)
  {
    exists l :: 0 <= l < i && IsPendingOf(g, sorted, m, l, p)
  }

  ghost predicate IsPendingOf(g: Graph, sorted: seq<GraphOperation>, m: nat, l: nat, p: Pending)
    requires g.Valid() && l < |g.nlffs| && Resolves(g, sorted, l)
  {
    Stored(g, sorted, l) && g.nlffs[l].toMacronode == m && p == Pending(Source(g, sorted, l), g.nlffs[l].toParameter, Func(g, l))
  }

  lemma {:induction false} PendingComesFrom(g: Graph, sorted: seq<GraphOperation>, m: nat, i: nat, p: Pending)
    requires g.Valid() && i <= |g.nlffs| && AllResolve(g, sorted, i)
    ensures p in PendingFor(g, sorted, m, i) <==> ComesFrom(g, sorted, m, i, p)
  {
    hide Resolves, Stored, Source, Func;
    if i > 0 {
      PendingComesFrom(g, sorted, m, i - 1, p);
      var front := PendingFor(g, sorted, m, i - 1);
      if ComesFrom(g, sorted, m, i, p) && !ComesFrom(g, sorted, m, i - 1, p) {
        assert IsPendingOf(g, sorted, m, i - 1, p);
      }
      if p in PendingFor(g, sorted, m, i) && p !in front {
        assert IsPendingOf(g, sorted, m, i - 1, p);
      }
    }
  }

  lemma {:induction false} PendingIsClean(g: Graph, sorted: seq<GraphOperation>, m: nat, i: nat)
    requires g.Valid() && i <= |g.nlffs| && AllResolve(g, sorted, i) && TargetsFit(g, sorted)
    ensures Clean(PendingFor(g, sorted, m, i))
  {
    hide Resolves, Stored, Source, Func, Clean;
    if i == 0 {
      NothingIsClean();
    } else {
      PendingIsClean(g, sorted, m, i - 1);
      var front, nlff := PendingFor(g, sorted, m, i - 1), g.nlffs[i - 1];
      if nlff.toMacronode == m && Stored(g, sorted, i - 1) {
        forall p | p in front ensures p.param != nlff.toParameter {
          PendingComesFrom(g, sorted, m, i - 1, p);
        }
        CleanAppend(front, Pending(Source(g, sorted, i - 1), nlff.toParameter, Func(g, i - 1)));
      } else {
        assert PendingFor(g, sorted, m, i) == front;
      }
    }
  }

  lemma {:induction false} NothingIsClean()
    ensures Clean([])
  {
  }

  /** The Arbitrary operation of macronode m, as the feedforwards into its Manual gate need it. */
  function ManualFFsFor(f: Functions, sorted: seq<GraphOperation>, m: nat, ffs: seq<Pending>): seq<FeedForward> {
    var op := OpFor(sorted, m);
    if |op.parameters| == 3 then ManualFFs(f, ffs, op.parameters, op.type_ == ArbitraryFirst, op.swap, First(sorted, m) + 2) else []
  }

  /** The feedforwards of several Arbitrary operations, in the given order. */
  function ManualList(f: Functions, sorted: seq<GraphOperation>, order: seq<nat>, lists: seq<seq<Pending>>): seq<FeedForward>
    requires |order| == |lists|
  {
    if order == [] then []
    else
      var n := |order| - 1;
      ManualList(f, sorted, order[..n], lists[..n]) + ManualFFsFor(f, sorted, order[n], lists[n])
  }

  /** Nothing writes to operation op. */
  ghost predicate Untouched(ffs: seq<FeedForward>, op: nat) {
    forall n | 0 <= n < |ffs| :: ffs[n].target.op != op
  }

  method AddFFsTargetingManual(
    f: Functions, circuit: Circuit, target: nat, ffs: seq<Pending>, initial: seq<real>, isFirst: bool, swap: bool) returns (ok: bool)
    requires circuit.Valid() && |initial| == 3 && SortedBySource(ffs) && Untouched(circuit.ffList, target)
    modifies circuit`ffList, circuit`ffFuncs, circuit`ffTargets
    ensures circuit.Valid()
    ensures ok == (ffs == [] || Irrelevant(ffs, isFirst) || DistinctSources(ffs))
    ensures ok ==> circuit.ffList == old(circuit.ffList) + ManualFFs(f, ffs, initial, isFirst, swap, target)
  {
    hide Circuit.Valid, ManualFunc, SortedBySource, DistinctSources, SourcesOfPending;
    RefusesEqualSources(ffs);
    if ffs == [] || Irrelevant(ffs, isFirst) {
      return true;
    }
    ghost var before := circuit.ffList;
    HasSources(ffs);
    for i := 0 to 4
      invariant circuit.Valid() && (i > 0 ==> NoAdjacentDuplicates(SourcesOfPending(ffs)))
      invariant circuit.ffList == before + ManualFFs(f, ffs, initial, isFirst, swap, target)[..i]
    {
      var created := NewFeedForward(SourcesOfPending(ffs), ParamIdx(target, i), ManualFunc(f, ffs, initial, isFirst, swap, i));
      if created.None? {
        return false;
      }
      ok := circuit.AddFF(created.value);
    }
    ok := true;
  }

  lemma {:induction false} HasSources(ffs: seq<Pending>)
    ensures |SourcesOfPending(ffs)| == |ffs|
  {
  }

  // ----- where the operations of a macronode are -----

  lemma {:induction false} FirstGrows(sorted: seq<GraphOperation>, m: nat, l: nat)
    requires m <= l
    ensures First(sorted, m) <= First(sorted, l)
    decreases l - m
  {
    hide OpFor;
    if m < l {
      FirstGrows(sorted, m, l - 1);
    }
  }

  /** The operations of macronode m lie between First(m) and First(m + 1). */
  lemma {:induction false} RecordWithin(sorted: seq<GraphOperation>, m: nat)
    requires OpFor(sorted, m).type_ != UnspecifiedType
    ensures var r := RecordOf(sorted, m);
      && First(sorted, m) <= r.upDisplacement < First(sorted, m + 1)
      && First(sorted, m) <= r.leftDisplacement < First(sorted, m + 1)
      && forall i | 0 <= i < |r.opIndices| :: First(sorted, m) <= r.opIndices[i] < First(sorted, m + 1)
  {
    hide OpFor;
  }

  ghost predicate Supported(sorted: seq<GraphOperation>, total: nat) {
    forall m: nat | m < total :: OpFor(sorted, m).type_ != UnspecifiedType
  }

  /** A target belongs to one of the operations of the record. */
  lemma {:induction false} TargetsAreRecorded(records: map<nat, CircuitOperations>, nlff: GraphFF, j: nat)
    requires TargetParams(records, nlff).Some? && j < |TargetParams(records, nlff).value|
    ensures nlff.toMacronode in records
    ensures var r, op := records[nlff.toMacronode], TargetParams(records, nlff).value[j].op;
      op == r.upDisplacement || op == r.leftDisplacement || exists i :: 0 <= i < |r.opIndices| && op == r.opIndices[i]
  {
  }

  lemma {:induction false} TargetsWithin(g: Graph, sorted: seq<GraphOperation>, i: nat, j: nat)
    requires i < |g.nlffs| && Resolves(g, sorted, i) && j < |Targets(g, sorted, i)| && Supported(sorted, g.Total())
    ensures var m := g.nlffs[i].toMacronode;
      m < g.Total() && First(sorted, m) <= Targets(g, sorted, i)[j].op < First(sorted, m + 1)
  {
    hide RecordOf, First, OpFor, SourceOp, TargetParams;
    var m := g.nlffs[i].toMacronode;
    TargetsAreRecorded(Records(sorted, g.Total()), g.nlffs[i], j);
    assert Records(sorted, g.Total())[m] == RecordOf(sorted, m);
    RecordWithin(sorted, m);
  }

  /** Operations of different macronodes are different. */
  lemma {:induction false} MacronodesApart(sorted: seq<GraphOperation>, m: nat, l: nat, a: nat, b: nat)
    requires First(sorted, m) <= a < First(sorted, m + 1) && First(sorted, l) <= b < First(sorted, l + 1) && m != l
    ensures a != b
  {
    hide First;
    if m < l {
      FirstGrows(sorted, m + 1, l);
    } else {
      FirstGrows(sorted, l + 1, m);
    }
  }

  /** Direct feedforward never writes to the Manual gate of an Arbitrary operation. */
  lemma {:induction false} DirectMissesManual(f: Functions, g: Graph, sorted: seq<GraphOperation>, ops: seq<Op>, i: nat, m: nat)
    requires g.Valid() && i <= |g.nlffs| && AllResolve(g, sorted, i) && Supported(sorted, g.Total())
    requires m < g.Total() && IsArbitrary(sorted, m)
    ensures Untouched(Directs(f, g, sorted, ops, i), First(sorted, m) + 2)
  {
    hide Direct, Resolves, IsArbitrary, First, Supported;
    if i > 0 {
      DirectMissesManual(f, g, sorted, ops, i - 1, m);
      OneDirectMissesManual(f, g, sorted, ops, i - 1, m);
    }
  }

  lemma {:induction false} OneDirectMissesManual(f: Functions, g: Graph, sorted: seq<GraphOperation>, ops: seq<Op>, i: nat, m: nat)
    requires g.Valid() && i < |g.nlffs| && Resolves(g, sorted, i) && Supported(sorted, g.Total())
    requires m < g.Total() && IsArbitrary(sorted, m)
    ensures Untouched(Direct(f, g, sorted, ops, i), First(sorted, m) + 2)
  {
    hide Resolves, Targets, FFTo, IsArbitrary, First, Supported;
    var more := Direct(f, g, sorted, ops, i);
    forall n | 0 <= n < |more| ensures more[n].target.op != First(sorted, m) + 2 {
      PartOf(f, g, sorted, ops, i, n);
      TargetMissesManual(g, sorted, i, n, m);
    }
  }

  lemma {:induction false} TargetMissesManual(g: Graph, sorted: seq<GraphOperation>, i: nat, j: nat, m: nat)
    requires i < |g.nlffs| && Resolves(g, sorted, i) && !Stored(g, sorted, i) && j < |Targets(g, sorted, i)| && Supported(sorted, g.Total())
    requires m < g.Total() && IsArbitrary(sorted, m)
    ensures Targets(g, sorted, i)[j].op != First(sorted, m) + 2
  {
    var to := g.nlffs[i].toMacronode;
    TargetsWithin(g, sorted, i, j);
    ArbitraryRecord(sorted, m);
    RecordWithin(sorted, m);
    if to != m {
      hide Resolves, Targets, First, RecordOf, OpFor;
      MacronodesApart(sorted, to, m, Targets(g, sorted, i)[j].op, First(sorted, m) + 2);
    } else {
      hide RecordOf, First, OpFor, SourceOp;
      assert Records(sorted, g.Total())[m] == RecordOf(sorted, m);
    }
  }

  /** What feeding forward into the Arbitrary operations, in the given order, needs to succeed. */
  ghost predicate ManualsOk(g: Graph, sorted: seq<GraphOperation>)
    requires g.Valid()
  {
    AllResolve(g, sorted, |g.nlffs|)
    && forall m: nat | m < g.Total() :: ManualOk(PendingFor(g, sorted, m, |g.nlffs|), OpFor(sorted, m).type_ == ArbitraryFirst)
  }

  ghost predicate ManualOk(ffs: seq<Pending>, isFirst: bool) {
    ffs == [] || Irrelevant(ffs, isFirst) || SourcesDiffer(ffs)
  }

  /** The order in which the Arbitrary operations were visited, and the sorted feedforwards into each. */
  ghost predicate IsVisit(g: Graph, sorted: seq<GraphOperation>, order: seq<nat>, lists: seq<seq<Pending>>)
    requires g.Valid() && AllResolve(g, sorted, |g.nlffs|)
  {
    && |order| == |lists|
    && (forall i, j | 0 <= i < j < |order| :: order[i] != order[j])
    && (forall i | 0 <= i < |order| :: Visits(g, sorted, order[i], lists[i]))
  }

  ghost predicate Visits(g: Graph, sorted: seq<GraphOperation>, m: nat, list: seq<Pending>)
    requires g.Valid() && AllResolve(g, sorted, |g.nlffs|)
  {
    m < g.Total() && IsArbitrary(sorted, m) && multiset(list) == multiset(PendingFor(g, sorted, m, |g.nlffs|))
  }

  /** The visit is complete. */
  ghost predicate VisitsAll(g: Graph, sorted: seq<GraphOperation>, order: seq<nat>)
    requires g.Valid() && AllResolve(g, sorted, |g.nlffs|)
  {
    forall m: nat :: PendingFor(g, sorted, m, |g.nlffs|) != [] ==> m in order
  }

  lemma {:induction false} ManualsMiss(f: Functions, sorted: seq<GraphOperation>, order: seq<nat>, lists: seq<seq<Pending>>, m: nat)
    requires |order| == |lists| && m !in order && IsArbitrary(sorted, m) && forall l | l in order :: IsArbitrary(sorted, l)
    ensures Untouched(ManualList(f, sorted, order, lists), First(sorted, m) + 2)
  {
    hide ManualFFsFor, First, IsArbitrary;
    if order != [] {
      var n := |order| - 1;
      assert forall l | l in order[..n] :: l in order;
      ManualsMiss(f, sorted, order[..n], lists[..n], m);
      OneManualMisses(f, sorted, order[n], lists[n], m);
    }
  }

  lemma {:induction false} ManualTarget(f: Functions, sorted: seq<GraphOperation>, l: nat, list: seq<Pending>)
    ensures forall n | 0 <= n < |ManualFFsFor(f, sorted, l, list)| :: ManualFFsFor(f, sorted, l, list)[n].target.op == First(sorted, l) + 2
  {
    hide First, OpFor, ManualFunc, SourcesOfPending;
  }

  lemma {:induction false} ManualWithin(sorted: seq<GraphOperation>, m: nat)
    requires IsArbitrary(sorted, m)
    ensures First(sorted, m) <= First(sorted, m) + 2 < First(sorted, m + 1)
  {
    hide OpFor;
  }

  lemma {:induction false} OneManualMisses(f: Functions, sorted: seq<GraphOperation>, l: nat, list: seq<Pending>, m: nat)
    requires l != m && IsArbitrary(sorted, l) && IsArbitrary(sorted, m)
    ensures Untouched(ManualFFsFor(f, sorted, l, list), First(sorted, m) + 2)
  {
    hide First, ManualFFsFor, IsArbitrary;
    ManualTarget(f, sorted, l, list);
    ManualWithin(sorted, l);
    ManualWithin(sorted, m);
    MacronodesApart(sorted, m, l, First(sorted, m) + 2, First(sorted, l) + 2);
  }

  lemma {:induction false} PendingIsArbitrary(g: Graph, sorted: seq<GraphOperation>, m: nat, i: nat)
    requires g.Valid() && i <= |g.nlffs| && AllResolve(g, sorted, i) && PendingFor(g, sorted, m, i) != []
    ensures m < g.Total() && IsArbitrary(sorted, m)
  {
    var p := PendingFor(g, sorted, m, i)[0];
    PendingComesFrom(g, sorted, m, i, p);
    hide IsArbitrary;
    var l :| 0 <= l < i && IsPendingOf(g, sorted, m, l, p);
    assert Resolves(g, sorted, l);
  }

  /** In a program that compiles every type is supported, and Arbitrary operations have three parameters. */
  lemma {:induction false} AllSupported(f: Functions, g: Graph, sorted: seq<GraphOperation>, level: real)
    requires g.Valid() && GroupsOk(f, g.n, sorted, level, g.Total())
    ensures Supported(sorted, g.Total())
    ensures forall m: nat | m < g.Total() && IsArbitrary(sorted, m) :: |OpFor(sorted, m).parameters| == 3
  {
    forall m: nat | m < g.Total()
      ensures OpFor(sorted, m).type_ != UnspecifiedType && (IsArbitrary(sorted, m) ==> |OpFor(sorted, m).parameters| == 3)
    {
      assert GroupOk(f, g.n, sorted, level, m);
      hide OpFor, UpMode, LeftMode, Constructible;
    }
  }

  /** What the tables say about an Arbitrary operation. */
  lemma {:induction false} Prepared(g: Graph, sorted: seq<GraphOperation>, arbitrary: map<nat, nat>, m: nat)
    requires m < g.Total() && IsArbitrary(sorted, m) && IsArbitraryIndex(sorted, g.Total(), arbitrary)
    ensures m in arbitrary && arbitrary[m] < |sorted| && sorted[arbitrary[m]] == OpFor(sorted, m)
    ensures m in Records(sorted, g.Total()) && Records(sorted, g.Total())[m].opIndices == [First(sorted, m) + 2]
  {
    ArbitraryRecord(sorted, m);
    hide RecordOf, First, IsArbitrary;
  }

  lemma {:induction false} VisitedAreArbitrary(g: Graph, sorted: seq<GraphOperation>, order: seq<nat>, lists: seq<seq<Pending>>)
    requires g.Valid() && AllResolve(g, sorted, |g.nlffs|) && IsVisit(g, sorted, order, lists)
    ensures forall l | l in order :: IsArbitrary(sorted, l)
  {
    hide IsArbitrary, AllResolve;
  }

  lemma {:induction false} SameOk(a: seq<Pending>, b: seq<Pending>, isFirst: bool)
    requires multiset(a) == multiset(b) && Clean(a) && (SourcesDiffer(a) <==> DistinctSources(a))
    ensures (a == [] || Irrelevant(a, isFirst) || DistinctSources(a)) <==> ManualOk(b, isFirst)
  {
    SameMembers(a, b);
    assert |multiset(a)| == |a| && |multiset(b)| == |b|;
    if |a| == 1 {
      assert a[0] in b;
    }
    hide Clean, SourcesDiffer, DistinctSources;
  }

  lemma {:induction false} ManualFFsForMeans(f: Functions, sorted: seq<GraphOperation>, m: nat, ffs: seq<Pending>)
    requires |OpFor(sorted, m).parameters| == 3
    ensures var op := OpFor(sorted, m);
      ManualFFsFor(f, sorted, m, ffs) == ManualFFs(f, ffs, op.parameters, op.type_ == ArbitraryFirst, op.swap, First(sorted, m) + 2)
  {
    hide OpFor, ManualFFs, First;
  }

  lemma {:induction false} OneMoreManual(f: Functions, sorted: seq<GraphOperation>, order: seq<nat>, lists: seq<seq<Pending>>, m: nat, ffs: seq<Pending>)
    requires |order| == |lists|
    ensures ManualList(f, sorted, order + [m], lists + [ffs]) == ManualList(f, sorted, order, lists) + ManualFFsFor(f, sorted, m, ffs)
  {
    hide ManualFFsFor;
    assert (order + [m])[..|order|] == order && (lists + [ffs])[..|order|] == lists;
  }

  lemma {:induction false} OneMoreVisit(g: Graph, sorted: seq<GraphOperation>, order: seq<nat>, lists: seq<seq<Pending>>, m: nat, ffs: seq<Pending>)
    requires g.Valid() && AllResolve(g, sorted, |g.nlffs|) && IsVisit(g, sorted, order, lists)
    requires m !in order && Visits(g, sorted, m, ffs)
    ensures IsVisit(g, sorted, order + [m], lists + [ffs])
  {
    hide Visits, AllResolve;
  }

  lemma {:induction false} EmptyIsOk(g: Graph, sorted: seq<GraphOperation>, order: seq<nat>)
    requires g.Valid() && AllResolve(g, sorted, |g.nlffs|) && VisitsAll(g, sorted, order)
    requires forall m | m in order :: ManualOk(PendingFor(g, sorted, m, |g.nlffs|), OpFor(sorted, m).type_ == ArbitraryFirst)
    ensures ManualsOk(g, sorted)
  {
    hide AllResolve, PendingFor, OpFor, SourcesDiffer;
  }

  /** Adds the feedforwards into the Arbitrary operation of macronode m. */
  method AddArbitrary(
    f: Functions, g: Graph, sorted: seq<GraphOperation>, records: map<nat, CircuitOperations>, arbitrary: map<nat, nat>,
    m: nat, stored: seq<Pending>, circuit: Circuit)
    returns (ok: bool, ghost ffs: seq<Pending>)
    requires g.Valid() && circuit.Valid() && Clean(stored)
    requires records == Records(sorted, g.Total()) && IsArbitraryIndex(sorted, g.Total(), arbitrary)
    requires m < g.Total() && IsArbitrary(sorted, m) && |OpFor(sorted, m).parameters| == 3
    requires Untouched(circuit.ffList, First(sorted, m) + 2)
    modifies circuit`ffList, circuit`ffFuncs, circuit`ffTargets
    ensures circuit.Valid() && multiset(ffs) == multiset(stored)
    ensures ok == ManualOk(stored, OpFor(sorted, m).type_ == ArbitraryFirst)
    ensures ok ==> circuit.ffList == old(circuit.ffList) + ManualFFsFor(f, sorted, m, ffs)
  {
    hide Circuit.Valid, ManualFFsFor, SourcesDiffer, SortedBySource, DistinctSources, First, IsArbitrary, ManualFFs, Clean, OpFor, RecordOf, Irrelevant,
      ManualOk, IsArbitraryIndex, Untouched, Records;
    var sortedFFs := SortBySource(stored);
    ffs := sortedFFs;
    SameMembers(ffs, stored);
    CleanByIndex(ffs);
    Prepared(g, sorted, arbitrary, m);
    var op := sorted[arbitrary[m]];
    SameOk(ffs, stored, op.type_ == ArbitraryFirst);
    ManualFFsForMeans(f, sorted, m, ffs);
    ok := AddFFsTargetingManual(f, circuit, records[m].opIndices[0], sortedFFs, op.parameters, op.type_ == ArbitraryFirst, op.swap);
  }

  /** The target of the next visit is still free. */
  lemma {:induction false} StillFree(
    f: Functions, g: Graph, sorted: seq<GraphOperation>, ops: seq<Op>, order: seq<nat>, lists: seq<seq<Pending>>, m: nat)
    requires g.Valid() && AllResolve(g, sorted, |g.nlffs|) && Supported(sorted, g.Total()) && IsVisit(g, sorted, order, lists)
    requires m < g.Total() && IsArbitrary(sorted, m) && m !in order && |order| == |lists|
    ensures Untouched(Directs(f, g, sorted, ops, |g.nlffs|) + ManualList(f, sorted, order, lists), First(sorted, m) + 2)
  {
    hide *;
    VisitedAreArbitrary(g, sorted, order, lists);
    DirectMissesManual(f, g, sorted, ops, |g.nlffs|, m);
    ManualsMiss(f, sorted, order, lists, m);
    BothUntouched(Directs(f, g, sorted, ops, |g.nlffs|), ManualList(f, sorted, order, lists), First(sorted, m) + 2);
  }

  lemma {:induction false} BothUntouched(a: seq<FeedForward>, b: seq<FeedForward>, op: nat)
    requires Untouched(a, op) && Untouched(b, op)
    ensures Untouched(a + b, op)
  {
  }

  /** Adds the feedforwards into the Arbitrary operations, in whatever order the unordered map yields them. */
  method AddArbitraries(
    f: Functions, g: Graph, sorted: seq<GraphOperation>, level: real, records: map<nat, CircuitOperations>, arbitrary: map<nat, nat>,
    pending: map<nat, seq<Pending>>, circuit: Circuit)
    returns (ok: bool, ghost order: seq<nat>, ghost lists: seq<seq<Pending>>)
    requires g.Valid() && circuit.Valid() && AllResolve(g, sorted, |g.nlffs|) && TargetsFit(g, sorted)
    requires GroupsOk(f, g.n, sorted, level, g.Total())
    requires records == Records(sorted, g.Total()) && IsArbitraryIndex(sorted, g.Total(), arbitrary)
    requires IsPending(g, sorted, |g.nlffs|, pending)
    requires circuit.ffList == Directs(f, g, sorted, circuit.operations, |g.nlffs|)
    modifies circuit`ffList, circuit`ffFuncs, circuit`ffTargets
    ensures circuit.Valid()
    ensures ok == ManualsOk(g, sorted)
    ensures ok ==> IsVisit(g, sorted, order, lists) && VisitsAll(g, sorted, order)
    ensures ok ==> circuit.ffList == Directs(f, g, sorted, circuit.operations, |g.nlffs|) + ManualList(f, sorted, order, lists)
  {
    hide Circuit.Valid, Directs, AllResolve, TargetsFit, GroupsOk, ManualFFsFor, First, IsArbitrary, Clean, OpFor, Records, ManualList, IsVisit,
      IsArbitraryIndex, ManualOk, Untouched, Supported, PendingFor;
    ghost var ops := circuit.operations;
    var todo := pending.Keys;
    order, lists := [], [];
    NoVisitYet(f, g, sorted);
    AllSupported(f, g, sorted, level);
    while todo != {}
      invariant circuit.Valid() && IsVisit(g, sorted, order, lists) && |order| == |lists|
      invariant forall m: nat :: m in pending <==> m in order || m in todo
      invariant forall m | m in todo :: m !in order
      invariant forall m | m in order :: ManualOk(PendingFor(g, sorted, m, |g.nlffs|), OpFor(sorted, m).type_ == ArbitraryFirst)
      invariant circuit.ffList == Directs(f, g, sorted, ops, |g.nlffs|) + ManualList(f, sorted, order, lists)
      decreases todo
    {
      var m :| m in todo;
      todo := todo - {m};
      PendingIsArbitrary(g, sorted, m, |g.nlffs|);
      PendingIsClean(g, sorted, m, |g.nlffs|);
      StillFree(f, g, sorted, ops, order, lists, m);
      ghost var ffs;
      ok, ffs := AddArbitrary(f, g, sorted, records, arbitrary, m, pending[m], circuit);
      if !ok {
        NotAllOk(g, sorted, m);
        return;
      }
      OneMoreManual(f, sorted, order, lists, m, ffs);
      OneMoreVisit(g, sorted, order, lists, m, ffs);
      order, lists := order + [m], lists + [ffs];
    }
    ok := true;
    EmptyIsOk(g, sorted, order);
  }

  lemma {:induction false} NoVisitYet(f: Functions, g: Graph, sorted: seq<GraphOperation>)
    requires g.Valid() && AllResolve(g, sorted, |g.nlffs|)
    ensures IsVisit(g, sorted, [], []) && ManualList(f, sorted, [], []) == []
  {
  }

  lemma {:induction false} NotAllOk(g: Graph, sorted: seq<GraphOperation>, m: nat)
    requires g.Valid() && AllResolve(g, sorted, |g.nlffs|) && m < g.Total()
    requires !ManualOk(PendingFor(g, sorted, m, |g.nlffs|), OpFor(sorted, m).type_ == ArbitraryFirst)
    ensures !ManualsOk(g, sorted)
  {
  }

  // ----- the compiler -----

  /** The programs the compiler accepts. */
  ghost predicate GraphCompiles(f: Functions, g: Graph, sorted: seq<GraphOperation>, level: real)
    requires g.Valid()
  {
    && GroupsOk(f, g.n, sorted, level, g.Total())
    && DirectsOk(f, g, sorted, GraphOps(f, g.n, sorted, level, g.Total()), |g.nlffs|)
    && ManualsOk(g, sorted)
  }

  /** The feedforwards of the circuit of a program, for some order of visiting the Arbitrary operations. */
  ghost predicate IsGraphFFs(f: Functions, g: Graph, sorted: seq<GraphOperation>, level: real, ffs: seq<FeedForward>)
    requires g.Valid() && GraphCompiles(f, g, sorted, level)
  {
    UniqueTargets(ffs) && exists order, lists :: FromVisit(f, g, sorted, level, ffs, order, lists)
  }

  ghost predicate FromVisit(
    f: Functions, g: Graph, sorted: seq<GraphOperation>, level: real, ffs: seq<FeedForward>, order: seq<nat>, lists: seq<seq<Pending>>)
    requires g.Valid() && GraphCompiles(f, g, sorted, level)
  {
    && IsVisit(g, sorted, order, lists) && VisitsAll(g, sorted, order)
    && ffs == Directs(f, g, sorted, GraphOps(f, g.n, sorted, level, g.Total()), |g.nlffs|) + ManualList(f, sorted, order, lists)
  }

  method GraphCircuit(f: Functions, log10: real -> real, g: Graph, squeezingLevel: real) returns (circuit: Circuit, ok: bool, ghost sorted: seq<GraphOperation>)
    requires g.Valid() && TargetsDistinct(g)
    ensures Sorted(sorted) && multiset(sorted) == multiset(g.operations)
    ensures fresh(circuit) && circuit.Valid()
    ensures ok == GraphCompiles(f, g, sorted, MeasurementSqueezingLevel(log10, squeezingLevel))
    ensures ok ==> circuit.operations == GraphOps(f, g.n, sorted, MeasurementSqueezingLevel(log10, squeezingLevel), g.Total())
    ensures ok ==> IsGraphFFs(f, g, sorted, MeasurementSqueezingLevel(log10, squeezingLevel), circuit.ffList)
  {
    hide Circuit.Valid, GroupsOk, DirectsOk, GraphOps, Directs, ManualList, IsVisit, VisitsAll, AllResolve, IsPending, IsArbitraryIndex, Records, Sorted, TargetsFit, TargetsDistinct;
    circuit := new Circuit();
    var level := MeasurementSqueezingLevel(log10, squeezingLevel);
    var graphOperations := SortByMacronode(g.operations);
    sorted := graphOperations;
    TargetsFitSorted(g, sorted);
    var records, arbitrary;
    records, arbitrary, ok := EmplaceMacronodes(f, g, graphOperations, level, circuit);
    if !ok {
      return;
    }
    var pending;
    pending, ok := AddNonlinear(f, g, graphOperations, records, arbitrary, circuit);
    if !ok {
      return;
    }
    DirectsOkMeans(f, g, sorted, circuit.operations);
    ghost var order, lists;
    ok, order, lists := AddArbitraries(f, g, graphOperations, level, records, arbitrary, pending, circuit);
    if ok {
      ValidIsUnique(circuit);
      assert FromVisit(f, g, sorted, level, circuit.ffList, order, lists);
    }
  }
}
