/** The mutable circuit object: operations, feedforwards and the two indices over the feedforwards. */
module CircuitObject {
  import opened Elementary
  import opened Operations
  import opened Engine

  /** What `Copy` builds from an operation: the constructor sees the current parameters. */
  function CopiedOps(ops: seq<Op>): (r: seq<Op>)
    ensures |r| == |ops|
  {
    seq(|ops|, j requires 0 <= j < |ops| => Emplace(ops[j].kind, ops[j].modes, ops[j].params))
  }

  /** No parameter has been overwritten since construction. */
  ghost predicate Pristine(ops: seq<Op>) {
    forall j | 0 <= j < |ops| :: ops[j].built == ops[j].params
  }

  predicate OpConstructible(f: Functions, op: Op) {
    Constructible(f, op.kind, op.modes, op.params)
  }

  predicate AllConstructible(f: Functions, ops: seq<Op>) {
    forall j | 0 <= j < |ops| :: OpConstructible(f, ops[j])
  }

  lemma {:induction false} CopyOfPristine(ops: seq<Op>)
    requires Pristine(ops)
    ensures CopiedOps(ops) == ops
  {
    forall j | 0 <= j < |ops| ensures CopiedOps(ops)[j] == ops[j] {}
  }

  /** Operations with the same shapes and parameters are the same. */
  lemma {:induction false} SameParamsSameOps(a: seq<Op>, b: seq<Op>)
    requires SameShapes(a, b)
    requires forall t | HasParam(a, t) && HasParam(b, t) :: Param(a, t) == Param(b, t)
    ensures a == b
  {
    forall j | 0 <= j < |a| ensures a[j] == b[j] {
      assert a[j].SameShape(b[j]);
      forall q | 0 <= q < |a[j].params| ensures a[j].params[q] == b[j].params[q] {
        var t := ParamIdx(j, q);
        assert HasParam(a, t) && HasParam(b, t) && Param(a, t) == Param(b, t);
      }
      assert a[j].params == b[j].params;
    }
  }

  /** `now` is what the feedforwards in `done`, all fired by operation i, made of `before`. */
  ghost predicate PartlyFired(
    before: seq<Op>, now: seq<Op>, ffs: seq<FeedForward>, i: nat, measured: map<nat, real>, done: set<nat>)
  {
    && SameShapes(before, now)
    && (forall n | n in done :: Fires(ffs, n, i) && Readable(ffs[n].sources, measured) && HasParam(before, ffs[n].target))
    && (forall n | n in done :: HasParam(now, ffs[n].target)
          && Param(now, ffs[n].target) == ffs[n].func(Values(ffs[n].sources, measured)))
    && (forall t | HasParam(before, t) && (forall n | n in done :: ffs[n].target != t) ::
          HasParam(now, t) && Param(now, t) == Param(before, t))
  }

  lemma {:induction false} SameShapeTargets(before: seq<Op>, now: seq<Op>, ffs: seq<FeedForward>, n: nat)
    requires SameShapes(before, now) && n < |ffs|
    ensures HasParam(before, ffs[n].target) <==> HasParam(now, ffs[n].target)
  {
    if ffs[n].target.op < |before| {
      assert before[ffs[n].target.op].SameShape(now[ffs[n].target.op]);
    }
  }

  lemma {:induction false} FireOneMore(
    before: seq<Op>, now: seq<Op>, ffs: seq<FeedForward>, i: nat, measured: map<nat, real>, done: set<nat>, n: nat)
    requires PartlyFired(before, now, ffs, i, measured, done) && UniqueTargets(ffs)
    requires Fires(ffs, n, i) && Readable(ffs[n].sources, measured) && HasParam(now, ffs[n].target)
    ensures PartlyFired(before, SetParam(now, ffs[n].target, ffs[n].func(Values(ffs[n].sources, measured))),
                        ffs, i, measured, done + {n})
  {
    var t, v := ffs[n].target, ffs[n].func(Values(ffs[n].sources, measured));
    var next := SetParam(now, t, v);
    SameShapeTargets(before, now, ffs, n);
    forall j | 0 <= j < |before| ensures before[j].SameShape(next[j]) {
      assert before[j].SameShape(now[j]);
    }
    forall u | HasParam(now, u) ensures HasParam(next, u) && Param(next, u) == if u == t then v else Param(now, u) {}
    forall m | m in done + {n}
      ensures HasParam(next, ffs[m].target)
      ensures Param(next, ffs[m].target) == ffs[m].func(Values(ffs[m].sources, measured))
    {
      if m != n {
        assert m in done && ffs[m].target != t;
      }
    }
  }

  lemma {:induction false} AllFired(
    before: seq<Op>, now: seq<Op>, ffs: seq<FeedForward>, i: nat, measured: map<nat, real>, done: set<nat>)
    requires PartlyFired(before, now, ffs, i, measured, done)
    requires forall n: int :: n in done <==> Fires(ffs, n, i)
    ensures CanFire(before, ffs, i, measured) && now == FireAll(before, ffs, i, measured)
  {
    var fired := FireAll(before, ffs, i, measured);
    forall j | 0 <= j < |now| ensures now[j].SameShape(fired[j]) {
      assert before[j].SameShape(now[j]) && before[j].SameShape(fired[j]);
    }
    forall t | HasParam(now, t) && HasParam(fired, t) ensures Param(now, t) == Param(fired, t) {
      assert before[t.op].SameShape(now[t.op]);
      assert Param(fired, t) == ParamAfter(before, ffs, i, measured, t);
      forall n: nat | n in done && ffs[n].target == t ensures Writes(ffs, n, i, t) {}
      assert forall n :: Writes(ffs, n, i, t) ==> Fires(ffs, n, i) && n in done;
    }
    SameParamsSameOps(now, fired);
  }

  /** The two indices agree with the list of feedforwards; every feedforward has a target of its own. */
  ghost predicate Indexed(ffs: seq<FeedForward>, funcs: map<nat, set<nat>>, targets: map<ParamIdx, nat>) {
    && (forall n | 0 <= n < |ffs| :: ffs[n].sources != [])
    && (forall n | 0 <= n < |ffs| :: ffs[n].target in targets && targets[ffs[n].target] == n)
    && (forall t | t in targets :: targets[t] < |ffs| && ffs[targets[t]].target == t)
    && (forall i, n | i in funcs && n in funcs[i] :: Fires(ffs, n, i))
    && (forall i: nat, n: nat | Fires(ffs, n, i) :: i in funcs && n in funcs[i])
  }

  function Bucket(funcs: map<nat, set<nat>>, i: nat): set<nat> {
    if i in funcs then funcs[i] else {}
  }

  lemma {:induction false} IndexedFacts(ffs: seq<FeedForward>, funcs: map<nat, set<nat>>, targets: map<ParamIdx, nat>, i: nat)
    requires Indexed(ffs, funcs, targets)
    ensures UniqueTargets(ffs)
    ensures forall n: int :: n in Bucket(funcs, i) <==> Fires(ffs, n, i)
  {
  }

  lemma {:induction false} IndexedAppend(
    ffs: seq<FeedForward>, funcs: map<nat, set<nat>>, targets: map<ParamIdx, nat>, ff: FeedForward, last: nat)
    requires Indexed(ffs, funcs, targets) && ff.sources != [] && last == MaxSource(ff.sources) && ff.target !in targets
    ensures Indexed(ffs + [ff], funcs[last := Bucket(funcs, last) + {|ffs|}], targets[ff.target := |ffs|])
  {
    FiresAppend(ffs, ff);
  }

  lemma {:induction false} FiresAppend(ffs: seq<FeedForward>, ff: FeedForward)
    requires ff.sources != []
    ensures forall m, i :: Fires(ffs + [ff], m, i) <==> Fires(ffs, m, i) || (m == |ffs| && i == MaxSource(ff.sources))
  {
  }

  class Circuit {
    var operations: seq<Op>
    var ffList: seq<FeedForward>
    var ffFuncs: map<nat, set<nat>>       // last source -> feedforwards, in no particular order
    var ffTargets: map<ParamIdx, nat>     // target parameter -> feedforward

    ghost predicate Valid()
      reads this
    {
      Indexed(ffList, ffFuncs, ffTargets)
    }

    /** Every feedforward targets an existing operation (indexing past the end is not checked). */
    ghost predicate TargetsExist()
      reads this
    {
      forall n | 0 <= n < |ffList| :: ffList[n].target.op < |operations|
    }

    constructor ()
      ensures Valid() && operations == [] && ffList == []
    {
      operations, ffList, ffFuncs, ffTargets := [], [], map[], map[];
    }

    method EmplaceOperation(f: Functions, kind: Kind, modes: seq<nat>, params: seq<real>) returns (ok: bool)
      requires Valid()
      modifies `operations
      ensures Valid()
      ensures ok == Constructible(f, kind, modes, params)
      ensures operations == old(operations) + (if ok then [Emplace(kind, modes, params)] else [])
    {
      ok := Constructible(f, kind, modes, params);
      if ok {
        operations := operations + [Emplace(kind, modes, params)];
      }
    }

    /** Refuses a feedforward whose target parameter is taken. */
    method AddFF(ff: FeedForward) returns (ok: bool)
      requires Valid() && ff.sources != []
      modifies `ffList, `ffFuncs, `ffTargets
      ensures Valid()
      ensures ok == forall n | 0 <= n < |old(ffList)| :: old(ffList)[n].target != ff.target
      ensures ffList == old(ffList) + (if ok then [ff] else [])
    {
      if ff.target in ffTargets {
        return false;
      }
      var n, last := |ffList|, MaxSource(ff.sources);
      IndexedAppend(ffList, ffFuncs, ffTargets, ff, last);
      ffFuncs := ffFuncs[last := Bucket(ffFuncs, last) + {n}];
      ffTargets := ffTargets[ff.target := n];
      ffList := ffList + [ff];
      ok := true;
    }

    method ApplyFF(ff: FeedForward, measured: map<nat, real>) returns (ok: bool)
      requires Valid() && ff.target.op < |operations|
      modifies `operations
      ensures Valid()
      ensures ok == (Readable(ff.sources, measured) && HasParam(old(operations), ff.target))
      ensures operations == if ok then SetParam(old(operations), ff.target, ff.func(Values(ff.sources, measured)))
                            else old(operations)
    {
      var measuredVals: seq<real> := [];
      for j := 0 to |ff.sources|
        invariant operations == old(operations)
        invariant Readable(ff.sources[..j], measured)
        invariant |measuredVals| == j && forall l | 0 <= l < j :: measuredVals[l] == measured[ff.sources[l]]
      {
        if ff.sources[j] !in measured {
          return false;
        }
        measuredVals := measuredVals + [measured[ff.sources[j]]];
      }
      assert ff.sources[..|ff.sources|] == ff.sources;
      assert measuredVals == Values(ff.sources, measured);
      ok := HasParam(operations, ff.target);
      if ok {
        operations := SetParam(operations, ff.target, ff.func(measuredVals));
      }
    }

    /** Applies the feedforwards with last source i, in whatever order the multimap yields them. */
    method ApplyAllFF(i: nat, measured: map<nat, real>) returns (ok: bool)
      requires Valid() && TargetsExist()
      modifies `operations
      ensures Valid() && SameShapes(old(operations), operations)
      ensures ok == CanFire(old(operations), ffList, i, measured)
      ensures ok ==> operations == FireAll(old(operations), ffList, i, measured)
    {
      var todo := Bucket(ffFuncs, i);
      ghost var all, done, before, ffs := todo, {}, operations, ffList;
      IndexedFacts(ffs, ffFuncs, ffTargets, i);
      while todo != {}
        invariant Valid()
        invariant done + todo == all
        invariant PartlyFired(before, operations, ffs, i, measured, done)
        decreases todo
      {
        var n :| n in todo;
        assert Fires(ffs, n, i);
        ghost var now := operations;
        SameShapeTargets(before, now, ffs, n);
        var applied := ApplyFF(ffList[n], measured);
        if !applied {
          return false;
        }
        FireOneMore(before, now, ffs, i, measured, done, n);
        todo, done := todo - {n}, done + {n};
      }
      ok := true;
      AllFired(before, operations, ffs, i, measured, done);
    }

    /** A new circuit object with the current parameters; fails when a constructor refuses them. */
    method Copy(f: Functions) returns (ret: Circuit, ok: bool)
      requires Valid()
      ensures fresh(ret) && ret.Valid()
      ensures ok == AllConstructible(f, operations)
      ensures ok ==> ret.operations == CopiedOps(operations) && ret.ffList == ffList
    {
      IndexedFacts(ffList, ffFuncs, ffTargets, 0);
      var ops, ffs := operations, ffList;
      ret := new Circuit();
      for j := 0 to |ops|
        invariant fresh(ret) && ret.Valid() && ret.ffList == []
        invariant forall l | 0 <= l < j :: OpConstructible(f, ops[l])
        invariant ret.operations == CopiedOps(ops)[..j]
      {
        ok := ret.EmplaceOperation(f, ops[j].kind, ops[j].modes, ops[j].params);
        if !ok {
          assert !OpConstructible(f, ops[j]);
          return;
        }
      }
      for n := 0 to |ffs|
        invariant fresh(ret) && ret.Valid() && ret.operations == CopiedOps(ops)
        invariant ret.ffList == ffs[..n]
      {
        ok := ret.AddFF(ffs[n]);
      }
      ok := true;
    }
  }

  lemma {:induction false} ValidIsUnique(circuit: Circuit)
    requires circuit.Valid()
    ensures UniqueTargets(circuit.ffList)
  {
    IndexedFacts(circuit.ffList, circuit.ffFuncs, circuit.ffTargets, 0);
  }
}
