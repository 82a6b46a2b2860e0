/** Graph circuits replace each mode right after measuring it, so their states stay positive definite too. */
module GraphRecycling {
  import opened Elementary
  import opened Operations
  import opened Engine
  import opened GraphProgram
  import opened GaussianPeaks
  import opened GaussianRuns

  /** Every replacement comes right after a measurement of the same mode. */
  ghost predicate ReplacedOnceMeasured(ops: seq<Op>) {
    forall i | 0 <= i < |ops| && ops[i].kind == ReplaceBySqueezedState ::
      i > 0 && IsMeasurement(ops[i - 1].kind) && ops[i - 1].modes == ops[i].modes && |ops[i].modes| == 1
  }

  lemma {:induction false} ReplacedOnceMeasuredIsSafe(ops: seq<Op>, start: set<nat>)
    requires ReplacedOnceMeasured(ops)
    ensures RecyclesSafely(ops, start)
  {
    forall i: nat | i < |ops| && ops[i].kind == ReplaceBySqueezedState && |ops[i].modes| == 1
      ensures ops[i].modes[0] in ClearAt(ops, start, i)
    {
      assert ClearAt(ops, start, i) == After(ClearAt(ops, start, i - 1), ops[i - 1].kind, ops[i - 1].modes);
    }
  }

  lemma {:induction false} GroupReplaces(f: Functions, op: GraphOperation, up: nat, left: nat, level: real)
    requires Group(f, op, up, left, level).Some?
    ensures ReplacedOnceMeasured(Group(f, op, up, left, level).value)
    ensures forall j | 0 <= j < |Group(f, op, up, left, level).value| ::
              var o := Group(f, op, up, left, level).value[j]; o.built == o.params
  {
    hide CircuitOpParams, DisplacementParams;
    UnaryOnly(op.type_);
  }

  lemma {:induction false} UnaryOnly(t: OperationType)
    ensures ShapeOf(t).UnaryShape? ==> ShapeOf(t).kind != ReplaceBySqueezedState
    ensures ShapeOf(t).BinaryShape? ==> ShapeOf(t).kind != ReplaceBySqueezedState
  {
  }

  lemma {:induction false} Appended(a: seq<Op>, b: seq<Op>)
    requires ReplacedOnceMeasured(a) && ReplacedOnceMeasured(b)
    ensures ReplacedOnceMeasured(a + b)
  {
  }

  lemma {:induction false} GatesAppended(f: Functions, a: seq<Op>, b: seq<Op>)
    requires GatesConstructible(f, a) && GatesConstructible(f, b)
    ensures GatesConstructible(f, a + b)
  {
    hide Constructible;
  }

  lemma {:induction false} GroupGates(f: Functions, n: nat, sorted: seq<GraphOperation>, level: real, m: nat)
    requires n >= 1 && GroupOk(f, n, sorted, level, m)
    ensures ReplacedOnceMeasured(GroupOf(f, n, sorted, level, m).value) && GatesConstructible(f, GroupOf(f, n, sorted, level, m).value)
  {
    GroupReplaces(f, OpFor(sorted, m), UpMode(n, sorted, m), LeftMode(n, sorted, m), level);
    hide Constructible, Group, ReplacedOnceMeasured;
  }

  /** Graph circuits recycle modes safely, from any initial state. */
  lemma {:induction false} GraphRecyclesSafely(f: Functions, n: nat, sorted: seq<GraphOperation>, level: real, m: nat)
    requires n >= 1 && GroupsOk(f, n, sorted, level, m)
    ensures ReplacedOnceMeasured(GraphOps(f, n, sorted, level, m)) && GatesConstructible(f, GraphOps(f, n, sorted, level, m))
  {
    hide ReplacedOnceMeasured, GatesConstructible, GroupOf;
    if m == 0 {
      NoOps(f);
    } else {
      assert GroupOk(f, n, sorted, level, m - 1);
      hide GroupOk;
      GraphRecyclesSafely(f, n, sorted, level, m - 1);
      GroupGates(f, n, sorted, level, m - 1);
      Appended(GraphOps(f, n, sorted, level, m - 1), GroupOf(f, n, sorted, level, m - 1).value);
      GatesAppended(f, GraphOps(f, n, sorted, level, m - 1), GroupOf(f, n, sorted, level, m - 1).value);
    }
  }

  lemma {:induction false} NoOps(f: Functions)
    ensures ReplacedOnceMeasured([]) && GatesConstructible(f, [])
  {
  }

  /** Every state a run of a graph circuit reaches is positive definite, whatever is fed forward. */
  lemma {:induction false} GraphStaysSound<Rng>(
    f: Functions, pow10: real -> real, sampler: (nat, Option<real>, seq<Peak>, Rng) -> (Sample, Rng), ffs: seq<FeedForward>,
    n: nat, sorted: seq<GraphOperation>, level: real, total: nat, s: Exec<Peak, Rng>, modes: nat, i: nat, m: nat)
    requires f.Lawful() && Powers(pow10) && n >= 1 && GroupsOk(f, n, sorted, level, total)
    requires s.ops == GraphOps(f, n, sorted, level, total) && AllSound(s.peaks, modes, {}) && i <= |s.ops|
    requires Run(GaussianKernel(f, pow10, sampler), ffs, s, 0, i).Some?
    requires m < |Run(GaussianKernel(f, pow10, sampler), ffs, s, 0, i).value.peaks|
    ensures Positive(Run(GaussianKernel(f, pow10, sampler), ffs, s, 0, i).value.peaks[m])
  {
    hide f.Lawful, Powers, GraphOps, GroupsOk, Run, GaussianKernel, GatesConstructible, RecyclesSafely, ReplacedOnceMeasured, ClearAt, Positive, Separate;
    GraphRecyclesSafely(f, n, sorted, level, total);
    ReplacedOnceMeasuredIsSafe(s.ops, {});
    ReachableSound(f, pow10, sampler, ffs, s, i, modes, {});
  }
}
