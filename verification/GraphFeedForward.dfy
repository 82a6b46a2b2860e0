/** Nonlinear feedforward of a graph program: which circuit operations it reads and writes. */
module GraphFeedForward {
  import opened Elementary
  import opened Operations
  import opened Engine
  import opened GraphProgram
  import opened GraphCompiler

  function RecordOf(sorted: seq<GraphOperation>, m: nat): CircuitOperations {
    RecordAt(ShapeOf(OpFor(sorted, m).type_), First(sorted, m))
  }

  predicate IsArbitrary(sorted: seq<GraphOperation>, m: nat) {
    OpFor(sorted, m).type_ in {ArbitraryFirst, ArbitrarySecond}
  }

  /** `CalcFFSourceOps`; None where it throws. */
  function SourceOp(records: map<nat, CircuitOperations>, nlff: GraphFF): Option<nat> {
    if nlff.fromMacronode !in records then None
    else
      var r := records[nlff.fromMacronode];
      if r.type_ != MeasurementOperation || |r.opIndices| != 4 then None
      else Some(if nlff.fromBd == 0 then r.opIndices[0] else r.opIndices[2])
  }

  /** `CalcFFTargetParams`; None where it throws. */
  function TargetParams(records: map<nat, CircuitOperations>, nlff: GraphFF): Option<seq<ParamIdx>> {
    if nlff.toMacronode !in records then None
    else
      var r, q := records[nlff.toMacronode], nlff.toParameter;
      if q < 4 then
        if r.type_ == MeasurementOperation then
          if |r.opIndices| != 4 then None
          else Some([ParamIdx(r.opIndices[0], 0), ParamIdx(r.opIndices[1], 1), ParamIdx(r.opIndices[2], 0), ParamIdx(r.opIndices[3], 1)])
        else Some(seq(|r.opIndices|, i requires 0 <= i < |r.opIndices| => ParamIdx(r.opIndices[i], q)))
      else if q < 6 then Some([ParamIdx(r.upDisplacement, q - 4)])
      else if q < 8 then Some([ParamIdx(r.leftDisplacement, q - 6)])
      else None
  }

  /** `ConstructFFFunc`: a replacement is kept a quarter turn behind its measurement. */
  function FuncFor(f: Functions, func: seq<real> -> real, target: Kind): seq<real> -> real {
    if target == ReplaceBySqueezedState then (m: seq<real>) => func(m) - f.halfPi else func
  }

  // ----- feedforward into Arbitrary operations -----

  /** One feedforward that targets an Arbitrary operation. */
  datatype Pending = Pending(source: nat, param: nat, func: seq<real> -> real)

  function ManualAngles(f: Functions, p: seq<real>, isFirst: bool, swap: bool): seq<real>
    requires |p| == 3
  {
    if isFirst then FirstAngles(f, p, swap) else SecondAngles(f, p, swap)
  }

  /** The parameters of the Arbitrary operation once the first j values have come in. */
  function Updated(initial: seq<real>, ffs: seq<Pending>, args: seq<real>, j: nat): (p: seq<real>)
    requires j <= |ffs| && j <= |args|
    ensures |p| == |initial|
  {
    if j == 0 then initial
    else
      var p := Updated(initial, ffs, args, j - 1);
      var ff := ffs[j - 1];
      if ff.param < |p| then p[ff.param := ff.func([args[j - 1]])] else p
  }

  /** The closure of `ConstructFFFuncsToManual` for angle i. */
  function ManualFunc(f: Functions, ffs: seq<Pending>, initial: seq<real>, isFirst: bool, swap: bool, i: nat): seq<real> -> real
    requires |initial| == 3 && i < 4
  {
    (args: seq<real>) =>
      ManualAngles(f, Updated(initial, ffs, args, if |args| <= |ffs| then |args| else |ffs|), isFirst, swap)[i]
  }

  function SourcesOfPending(ffs: seq<Pending>): seq<nat> {
    seq(|ffs|, j requires 0 <= j < |ffs| => ffs[j].source)
  }

  /** The lone parameter that does not enter the angles. */
  predicate Irrelevant(ffs: seq<Pending>, isFirst: bool) {
    |ffs| == 1 && ffs[0].param == (if isFirst then 0 else 2)
  }

  /** The loop of the closure of `ConstructFFFuncsToManual`, with its table of functions by parameter. */
  method UpdateParameters(initial: seq<real>, ffs: seq<Pending>, args: seq<real>) returns (p: seq<real>)
    requires |initial| == 3 && |args| == |ffs|
    requires forall j | 0 <= j < |ffs| :: ffs[j].param < 3
    requires forall j, l | 0 <= j < l < |ffs| :: ffs[j].param != ffs[l].param
    ensures p == Updated(initial, ffs, args, |ffs|)
  {
    var none: Option<seq<real> -> real> := None;
    var table := [none, none, none];
    for j := 0 to |ffs|
      invariant |table| == 3
      invariant forall l | 0 <= l < j :: table[ffs[l].param] == Some(ffs[l].func)
    {
      table := table[ffs[j].param := Some(ffs[j].func)];
    }
    p := initial;
    for j := 0 to |args|
      invariant p == Updated(initial, ffs, args, j)
    {
      var t := ffs[j].param;
      if table[t].Some? {
        p := p[t := table[t].value([args[j]])];
      }
    }
  }

  lemma {:induction false} UpdatedAt(initial: seq<real>, ffs: seq<Pending>, args: seq<real>, j: nat, q: nat)
    requires j <= |ffs| == |args| && q < |initial|
    requires forall l, l' | 0 <= l < l' < |ffs| :: ffs[l].param != ffs[l'].param
    ensures forall l | 0 <= l < j && ffs[l].param == q :: Updated(initial, ffs, args, j)[q] == ffs[l].func([args[l]])
    ensures (forall l | 0 <= l < j :: ffs[l].param != q) ==> Updated(initial, ffs, args, j)[q] == initial[q]
  {
    if j > 0 {
      UpdatedAt(initial, ffs, args, j - 1, q);
    }
  }

  /** Leaving out the feedforward of an irrelevant parameter changes no angle. */
  lemma {:induction false} IrrelevantIsIrrelevant(f: Functions, ffs: seq<Pending>, initial: seq<real>, isFirst: bool, swap: bool, args: seq<real>)
    requires |initial| == 3 && |args| == |ffs| && Irrelevant(ffs, isFirst)
    ensures ManualAngles(f, Updated(initial, ffs, args, |ffs|), isFirst, swap) == ManualAngles(f, initial, isFirst, swap)
  {
    assert Updated(initial, ffs, args, 0) == initial;
  }

  ghost predicate NeverMatters(f: Functions, q: nat, isFirst: bool, swap: bool) {
    forall p: seq<real>, v: real :: SameWith(f, p, q, v, isFirst, swap)
  }

  /** Parameter q of p can be v as well. */
  predicate SameWith(f: Functions, p: seq<real>, q: nat, v: real, isFirst: bool, swap: bool) {
    |p| == 3 && q < 3 ==> ManualAngles(f, p[q := v], isFirst, swap) == ManualAngles(f, p, isFirst, swap)
  }

  lemma {:induction false} DifferentSqueezing(f: Functions)
    requires f.Lawful()
    ensures f.atan(f.exp(0.0)) != f.atan(f.exp(1.0))
  {
    assert f.Exponential(0.0) && f.Exponential(1.0);
    assert f.ArcTangent(f.exp(0.0)) && f.ArcTangent(f.exp(1.0));
    hide f.Lawful;
    assert -0.0 == 0.0 && f.exp(0.0) * f.exp(0.0) == 1.0;
    assert f.exp(0.0) == 1.0 by { PositiveRoot(f.exp(0.0)); }
    var c := f.cos(f.atan(f.exp(0.0)));
    if f.atan(f.exp(0.0)) == f.atan(f.exp(1.0)) {
      assert f.exp(0.0) * c == f.exp(1.0) * c;
      assert (f.exp(1.0) - f.exp(0.0)) * c == 0.0;
    }
  }

  lemma {:induction false} PositiveRoot(e: real)
    requires e > 0.0 && e * e == 1.0
    ensures e == 1.0
  {
    assert (e - 1.0) * (e + 1.0) == 0.0;
  }

  /** The parameter that is skipped when it comes alone is exactly the one that never enters the angles. */
  lemma {:induction false} IrrelevantExactly(f: Functions, ff: Pending, isFirst: bool, swap: bool)
    requires f.Lawful() && ff.param < 3
    ensures Irrelevant([ff], isFirst) <==> NeverMatters(f, ff.param, isFirst, swap)
  {
    DifferentSqueezing(f);
    hide f.Lawful;
    var q, p := ff.param, [0.0, 0.0, 0.0];
    var changed := ManualAngles(f, p[q := 1.0], isFirst, swap);
    if !Irrelevant([ff], isFirst) {
      assert changed[0] != ManualAngles(f, p, isFirst, swap)[0];
      assert !SameWith(f, p, q, 1.0, isFirst, swap);
    }
  }

  // ----- the feedforwards of a program -----

  function Records(sorted: seq<GraphOperation>, total: nat): map<nat, CircuitOperations> {
    map m: nat | m < total :: RecordOf(sorted, m)
  }

  /** Nonlinear feedforward i has a measurement to read and a parameter to write. */
  predicate Resolves(g: Graph, sorted: seq<GraphOperation>, i: nat)
    requires i < |g.nlffs|
  {
    SourceOp(Records(sorted, g.Total()), g.nlffs[i]).Some? && TargetParams(Records(sorted, g.Total()), g.nlffs[i]).Some?
  }

  predicate AllResolve(g: Graph, sorted: seq<GraphOperation>, i: nat)
    requires i <= |g.nlffs|
  {
    forall l | 0 <= l < i :: Resolves(g, sorted, l)
  }

  function Source(g: Graph, sorted: seq<GraphOperation>, i: nat): nat
    requires i < |g.nlffs| && Resolves(g, sorted, i)
  {
    SourceOp(Records(sorted, g.Total()), g.nlffs[i]).value
  }

  function Targets(g: Graph, sorted: seq<GraphOperation>, i: nat): seq<ParamIdx>
    requires i < |g.nlffs| && Resolves(g, sorted, i)
  {
    TargetParams(Records(sorted, g.Total()), g.nlffs[i]).value
  }

  function Func(g: Graph, i: nat): seq<real> -> real
    requires g.Valid() && i < |g.nlffs|
  {
    g.functions[g.nlffs[i].function_]
  }

  /** It targets a parameter of an Arbitrary operation, and is stored for later. */
  predicate Stored(g: Graph, sorted: seq<GraphOperation>, i: nat)
    requires i < |g.nlffs|
  {
    IsArbitrary(sorted, g.nlffs[i].toMacronode) && g.nlffs[i].toParameter < 4
  }

  /** The kind of the operation a target belongs to. */
  function KindOf(ops: seq<Op>, t: ParamIdx): Kind {
    if t.op < |ops| then ops[t.op].kind else Displacement
  }

  function FFTo(f: Functions, g: Graph, sorted: seq<GraphOperation>, ops: seq<Op>, i: nat, j: nat): FeedForward
    requires g.Valid() && i < |g.nlffs| && Resolves(g, sorted, i) && j < |Targets(g, sorted, i)|
  {
    var t := Targets(g, sorted, i)[j];
    FeedForward([Source(g, sorted, i)], t, FuncFor(f, Func(g, i), KindOf(ops, t)))
  }

  /** The feedforwards added directly for nonlinear feedforward i, up to its target j. */
  function DirectUpTo(f: Functions, g: Graph, sorted: seq<GraphOperation>, ops: seq<Op>, i: nat, j: nat): (r: seq<FeedForward>)
    requires g.Valid() && i < |g.nlffs| && Resolves(g, sorted, i) && j <= |Targets(g, sorted, i)|
    ensures |r| == j && forall l | 0 <= l < j :: r[l] == FFTo(f, g, sorted, ops, i, l)
  {
    seq(j, l requires 0 <= l < j => FFTo(f, g, sorted, ops, i, l))
  }

  function Direct(f: Functions, g: Graph, sorted: seq<GraphOperation>, ops: seq<Op>, i: nat): seq<FeedForward>
    requires g.Valid() && i < |g.nlffs| && Resolves(g, sorted, i)
  {
    if Stored(g, sorted, i) then [] else DirectUpTo(f, g, sorted, ops, i, |Targets(g, sorted, i)|)
  }

  /** The feedforwards added directly for the first i nonlinear feedforwards. */
  function Directs(f: Functions, g: Graph, sorted: seq<GraphOperation>, ops: seq<Op>, i: nat): seq<FeedForward>
    requires g.Valid() && i <= |g.nlffs| && AllResolve(g, sorted, i)
  {
    if i == 0 then [] else Directs(f, g, sorted, ops, i - 1) + Direct(f, g, sorted, ops, i - 1)
  }

  /** Those of the first i nonlinear feedforwards that are stored for macronode m. */
  function PendingFor(g: Graph, sorted: seq<GraphOperation>, m: nat, i: nat): seq<Pending>
    requires g.Valid() && i <= |g.nlffs| && AllResolve(g, sorted, i)
  {
    if i == 0 then []
    else
      var nlff := g.nlffs[i - 1];
      PendingFor(g, sorted, m, i - 1)
      + (if nlff.toMacronode == m && Stored(g, sorted, i - 1)
         then [Pending(Source(g, sorted, i - 1), nlff.toParameter, Func(g, i - 1))] else [])
  }

  // ----- feedforwards into the Manual gate of an Arbitrary operation -----

  ghost predicate SortedBySource(ffs: seq<Pending>) {
    forall j, l | 0 <= j < l < |ffs| :: ffs[j].source <= ffs[l].source
  }

  method InsertPending(s: seq<Pending>, x: Pending) returns (r: seq<Pending>)
    requires SortedBySource(s)
    ensures SortedBySource(r) && multiset(r) == multiset(s) + multiset{x}
  {
    var j := 0;
    while j < |s| && s[j].source <= x.source
      invariant 0 <= j <= |s| && forall l | 0 <= l < j :: s[l].source <= x.source
    {
      j := j + 1;
    }
    r := s[..j] + [x] + s[j..];
    assert s == s[..j] + s[j..];
  }

  /** What `std::sort` by source does. */
  method SortBySource(ffs: seq<Pending>) returns (r: seq<Pending>)
    ensures SortedBySource(r) && multiset(r) == multiset(ffs)
  {
    r := [];
    for i := 0 to |ffs|
      invariant SortedBySource(r) && multiset(r) == multiset(ffs[..i])
    {
      assert ffs[..i + 1] == ffs[..i] + [ffs[i]];
      r := InsertPending(r, ffs[i]);
    }
    assert ffs[..|ffs|] == ffs;
  }

  function ManualFF(f: Functions, ffs: seq<Pending>, initial: seq<real>, isFirst: bool, swap: bool, target: nat, i: nat): FeedForward
    requires |initial| == 3 && i < 4
  {
    FeedForward(SourcesOfPending(ffs), ParamIdx(target, i), ManualFunc(f, ffs, initial, isFirst, swap, i))
  }

  /** The four feedforwards `AddFFsTargetingManual` adds, or none. */
  function ManualFFs(f: Functions, ffs: seq<Pending>, initial: seq<real>, isFirst: bool, swap: bool, target: nat): seq<FeedForward>
    requires |initial| == 3
  {
    if ffs == [] || Irrelevant(ffs, isFirst) then []
    else
      [ManualFF(f, ffs, initial, isFirst, swap, target, 0), ManualFF(f, ffs, initial, isFirst, swap, target, 1),
       ManualFF(f, ffs, initial, isFirst, swap, target, 2), ManualFF(f, ffs, initial, isFirst, swap, target, 3)]
  }

  /** No two feedforwards into the operation read the same measurement. */
  ghost predicate DistinctSources(ffs: seq<Pending>) {
    forall j, l | 0 <= j < l < |ffs| :: ffs[j].source != ffs[l].source
  }

  /** After sorting, equal sources are neighbours, and the constructor refuses them. */
  lemma {:induction false} RefusesEqualSources(ffs: seq<Pending>)
    requires SortedBySource(ffs)
    ensures NoAdjacentDuplicates(SourcesOfPending(ffs)) <==> DistinctSources(ffs)
  {
    var s := SourcesOfPending(ffs);
    if NoAdjacentDuplicates(s) {
      forall j, l | 0 <= j < l < |ffs| ensures ffs[j].source != ffs[l].source {
        assert s[l - 1] != s[l] && s[l - 1] == ffs[l - 1].source && s[l] == ffs[l].source;
        assert ffs[j].source <= ffs[l - 1].source <= ffs[l].source;
      }
    }
    if DistinctSources(ffs) {
      forall j | 0 < j < |s| ensures s[j - 1] != s[j] {
        assert ffs[j - 1].source != ffs[j].source;
      }
    }
  }
}
