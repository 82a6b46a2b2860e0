/** Peak-level parallel execution: the task graph of one shot, and why its order does not matter. */
module TaskGraph {
  import opened Elementary
  import opened Operations
  import opened Engine
  import opened SimulatorObject

  /** A layer is one kind of work for one operation. */
  datatype Layer =
    | Gate(op: nat)
    | Rotate(op: nat)
    | Sampling(op: nat)
    | PostSelect(op: nat)

  /** One task per peak, except that a sampling layer has a single task. */
  datatype Task = Task(layer: Layer, peak: nat)

  function At(layer: Layer, m: nat): Task {
    if layer.Sampling? then Task(layer, 0) else Task(layer, m)
  }

  type Edge = (Task, Task)

  function OpLayers(kind: Kind, i: nat): seq<Layer> {
    if kind == HomodyneSingleMode then [Rotate(i), Sampling(i), PostSelect(i)]
    else if kind == HomodyneSingleModeX then [Sampling(i), PostSelect(i)]
    else [Gate(i)]
  }

  function LastLayer(kind: Kind, i: nat): Layer {
    if IsMeasurement(kind) then PostSelect(i) else Gate(i)
  }

  /** The layers of the first n operations, in the order of the circuit. */
  function Layers(ops: seq<Op>, n: nat): seq<Layer>
    requires n <= |ops|
  {
    if n == 0 then [] else Layers(ops, n - 1) + OpLayers(ops[n - 1].kind, n - 1)
  }

  // ----- the graph a sequence of layers stands for -----

  ghost predicate IsTask(layers: seq<Layer>, peaks: nat, t: Task) {
    t.layer in layers && if t.layer.Sampling? then t.peak == 0 else t.peak < peaks
  }

  /** e leads, within peak m, from layer l - 1 to layer l. */
  ghost predicate Link(layers: seq<Layer>, peaks: nat, e: Edge, l: nat, m: nat) {
    0 < l < |layers| && m < peaks && e == (At(layers[l - 1], m), At(layers[l], m))
  }

  ghost predicate IsEdge(layers: seq<Layer>, peaks: nat, e: Edge) {
    exists l, m :: Link(layers, peaks, e, l, m)
  }

  /** Every task once, every dependency respected. */
  ghost predicate Topological(layers: seq<Layer>, peaks: nat, order: seq<Task>) {
    && (forall a, b | 0 <= a < b < |order| :: order[a] != order[b])
    && (forall t :: t in order <==> IsTask(layers, peaks, t))
    && (forall a, b | 0 <= a < |order| && 0 <= b < |order| && IsEdge(layers, peaks, (order[a], order[b])) :: a < b)
  }

  ghost predicate IsGraph(layers: seq<Layer>, peaks: nat, tasks: seq<Task>, edges: set<Edge>) {
    && (forall e :: e in edges <==> IsEdge(layers, peaks, e))
    && Topological(layers, peaks, tasks)
  }

  /** A layer occurs once, and a post-selection directly follows its own sampling. */
  ghost predicate Proper(layers: seq<Layer>, n: nat) {
    && (forall l | 0 <= l < |layers| :: layers[l].op < n)
    && (forall l, l' | 0 <= l < l' < |layers| :: layers[l] != layers[l'])
    && (forall l | 0 <= l < |layers| && layers[l].PostSelect? :: l > 0 && layers[l - 1] == Sampling(layers[l].op))
  }

  lemma {:induction false} AppendProper(front: seq<Layer>, kind: Kind, i: nat)
    requires Proper(front, i)
    ensures Proper(front + OpLayers(kind, i), i + 1)
  {
    var more := OpLayers(kind, i);
    var layers := front + more;
    forall l, l' | 0 <= l < l' < |layers| ensures layers[l] != layers[l'] {
      if l' < |front| {
        assert front[l] != front[l'];
      } else if l < |front| {
        assert front[l].op < i && layers[l'].op == i;
      } else {
        assert layers[l] == more[l - |front|] && layers[l'] == more[l' - |front|];
      }
    }
    forall l | 0 <= l < |layers| && layers[l].PostSelect? ensures l > 0 && layers[l - 1] == Sampling(layers[l].op) {
      if l < |front| {
        assert front[l].PostSelect?;
      } else {
        assert layers[l] == more[l - |front|];
        assert layers[l - 1] == more[l - |front| - 1];
      }
    }
  }

  lemma {:induction false} LayersProper(ops: seq<Op>, n: nat)
    requires n <= |ops|
    ensures Proper(Layers(ops, n), n)
  {
    if n > 0 {
      LayersProper(ops, n - 1);
      AppendProper(Layers(ops, n - 1), ops[n - 1].kind, n - 1);
    }
  }

  // ----- building the graph -----

  function RowOf(layer: Layer, peaks: nat): (r: seq<Task>)
    ensures |r| == if layer.Sampling? then 1 else peaks
    ensures forall m | 0 <= m < |r| :: r[m] == Task(layer, m)
  {
    seq(if layer.Sampling? then 1 else peaks, m requires 0 <= m => Task(layer, m))
  }

  ghost predicate Joins(edges: set<Edge>, a: Layer, b: Layer, peaks: nat) {
    forall e :: e in edges <==> exists m: nat :: m < peaks && e == (At(a, m), At(b, m))
  }

  lemma {:induction false} JoinsGrows(edges: set<Edge>, a: Layer, b: Layer, m: nat)
    requires Joins(edges, a, b, m)
    ensures Joins(edges + {(At(a, m), At(b, m))}, a, b, m + 1)
  {
    forall e ensures e in edges + {(At(a, m), At(b, m))} <==> exists l: nat :: l < m + 1 && e == (At(a, l), At(b, l)) {
      if l: nat :| l < m + 1 && e == (At(a, l), At(b, l)) {
        assert l < m || l == m;
      }
    }
  }

  /** One more layer: its row of tasks, and the edges from the layer before. */
  lemma {:induction false} AddLayer(
    layers: seq<Layer>, layer: Layer, peaks: nat, tasks: seq<Task>, edges: set<Edge>, more: set<Edge>)
    requires IsGraph(layers, peaks, tasks, edges) && layer !in layers
    requires if layers == [] then more == {} else Joins(more, layers[|layers| - 1], layer, peaks)
    ensures IsGraph(layers + [layer], peaks, tasks + RowOf(layer, peaks), edges + more)
  {
    var layers', order, n := layers + [layer], tasks + RowOf(layer, peaks), |layers|;
    forall e | e in edges + more ensures IsEdge(layers', peaks, e) {
      if e in edges {
        var l, m :| Link(layers, peaks, e, l, m);
        assert Link(layers', peaks, e, l, m);
      } else {
        var m: nat :| m < peaks && e == (At(layers[n - 1], m), At(layer, m));
        assert Link(layers', peaks, e, n, m);
      }
    }
    forall e | IsEdge(layers', peaks, e)
      ensures e in edges + more
      ensures e.0.layer in layers
      ensures e.1.layer == layer || e in edges
    {
      var l: nat, m: nat :| Link(layers', peaks, e, l, m);
      assert layers'[l - 1] == layers[l - 1];
      if l < n {
        assert Link(layers, peaks, e, l, m);
      }
    }
    forall a, b | 0 <= a < b < |order| ensures order[a] != order[b] {
      if a < |tasks| <= b {
        assert tasks[a] in tasks;
      }
    }
    forall t ensures t in order <==> IsTask(layers', peaks, t) {
      if t.layer == layer && IsTask(layers', peaks, t) {
        assert RowOf(layer, peaks)[t.peak] == t;
      }
    }
    forall a, b | 0 <= a < |order| && 0 <= b < |order| && IsEdge(layers', peaks, (order[a], order[b])) ensures a < b {
      assert a < |tasks| by {
        assert forall j | |tasks| <= j < |order| :: order[j].layer == layer;
      }
      if b < |tasks| {
        assert tasks[b] in tasks;
        assert (order[a], order[b]) in edges;
      }
    }
  }

  method Spawn(layer: Layer, count: nat) returns (row: seq<Task>)
    requires layer.Sampling? ==> count == 1
    ensures row == RowOf(layer, count)
  {
    row := [];
    for m := 0 to count
      invariant |row| == m && forall l | 0 <= l < m :: row[l] == Task(layer, l)
    {
      row := row + [Task(layer, m)];
    }
  }

  /** Makes every task of one row wait for the task of the same peak in the row before. */
  method Precede(before: seq<Task>, a: Layer, after: seq<Task>, b: Layer, peaks: nat) returns (edges: set<Edge>)
    requires before == RowOf(a, peaks) && after == RowOf(b, peaks)
    ensures Joins(edges, a, b, peaks)
  {
    edges := {};
    for m := 0 to peaks
      invariant Joins(edges, a, b, m)
    {
      JoinsGrows(edges, a, b, m);
      edges := edges + {(before[if a.Sampling? then 0 else m], after[if b.Sampling? then 0 else m])};
    }
  }

  /** The rows of tasks created so far: `op_tasks`, `rot_tasks`, `postselection_tasks`; and
      `previous_is_measurement`.  The row of a measurement in opTasks is its one sampling task. */
  datatype Rows = Rows(opTasks: seq<seq<Task>>, rotTasks: seq<seq<Task>>, postTasks: seq<seq<Task>>, previousIsMeasurement: bool)

  ghost predicate RowsOk(rows: Rows, ops: seq<Op>, i: nat, peaks: nat)
    requires i <= |ops|
  {
    && |rows.opTasks| == i
    && (forall j | 0 <= j < i :: rows.opTasks[j] == RowOf(if IsMeasurement(ops[j].kind) then Sampling(j) else Gate(j), peaks))
    && rows.previousIsMeasurement == (i > 0 && IsMeasurement(ops[i - 1].kind))
    && (rows.previousIsMeasurement ==>
          rows.postTasks != [] && rows.postTasks[|rows.postTasks| - 1] == RowOf(PostSelect(i - 1), peaks))
  }

  lemma {:induction false} LastOf(ops: seq<Op>, i: nat)
    requires i <= |ops|
    ensures i == 0 <==> Layers(ops, i) == []
    ensures i > 0 ==> Layers(ops, i)[|Layers(ops, i)| - 1] == LastLayer(ops[i - 1].kind, i - 1)
  {
  }

  lemma {:induction false} NewLayers(ops: seq<Op>, i: nat)
    requires i < |ops|
    ensures forall layer: Layer | layer.op == i :: layer !in Layers(ops, i)
    ensures Layers(ops, i + 1) == Layers(ops, i) + OpLayers(ops[i].kind, i)
  {
    LayersProper(ops, i);
  }

  /** Makes the first tasks of operation i wait for the operation before: for its post-selections if it was a
      measurement, for its own tasks if it was not, and for nothing if there was none. */
  method WaitForPrevious(rows: Rows, ops: seq<Op>, i: nat, row: seq<Task>, first: Layer, peaks: nat) returns (edges: set<Edge>)
    requires i < |ops| && RowsOk(rows, ops, i, peaks) && row == RowOf(first, peaks)
    ensures if i == 0 then edges == {} else Joins(edges, LastLayer(ops[i - 1].kind, i - 1), first, peaks)
  {
    edges := {};
    if i > 0 {
      if rows.previousIsMeasurement {
        edges := Precede(rows.postTasks[|rows.postTasks| - 1], PostSelect(i - 1), row, first, peaks);
      } else {
        edges := Precede(rows.opTasks[i - 1], Gate(i - 1), row, first, peaks);
      }
    }
  }

  lemma {:induction false} OneMoreRow(rows: Rows, next: Rows, ops: seq<Op>, i: nat, peaks: nat, row: seq<Task>)
    requires i < |ops| && RowsOk(rows, ops, i, peaks)
    requires next.opTasks == rows.opTasks + [row] && row == RowOf(if IsMeasurement(ops[i].kind) then Sampling(i) else Gate(i), peaks)
    requires next.previousIsMeasurement == IsMeasurement(ops[i].kind)
    requires IsMeasurement(ops[i].kind) ==> next.postTasks == rows.postTasks + [RowOf(PostSelect(i), peaks)]
    ensures RowsOk(next, ops, i + 1, peaks)
  {
    hide RowOf;
  }

  lemma {:induction false} SamplingRow(i: nat, peaks: nat)
    ensures RowOf(Sampling(i), 1) == RowOf(Sampling(i), peaks)
  {
  }

  /** Adds the tasks of operation i and what they wait for. */
  method BuildOp(ops: seq<Op>, i: nat, rows0: Rows, peaks: nat, tasks0: seq<Task>, edges0: set<Edge>)
    returns (rows: Rows, tasks: seq<Task>, edges: set<Edge>)
    requires i < |ops| && RowsOk(rows0, ops, i, peaks) && IsGraph(Layers(ops, i), peaks, tasks0, edges0)
    ensures RowsOk(rows, ops, i + 1, peaks) && IsGraph(Layers(ops, i + 1), peaks, tasks, edges)
  {
    hide IsGraph, Joins, Layers, RowsOk, RowOf;
    var kind := ops[i].kind;
    ghost var layers := Layers(ops, i);
    LastOf(ops, i);
    NewLayers(ops, i);
    SamplingRow(i, peaks);
    rows, tasks, edges := rows0, tasks0, edges0;
    if !IsMeasurement(kind) {
      var row := Spawn(Gate(i), peaks);
      var e := WaitForPrevious(rows0, ops, i, row, Gate(i), peaks);
      AddLayer(layers, Gate(i), peaks, tasks, edges, e);
      tasks, edges := tasks + row, edges + e;
      rows := rows.(opTasks := rows.opTasks + [row], previousIsMeasurement := false);
      OneMoreRow(rows0, rows, ops, i, peaks, row);
    } else {
      var sampling := Spawn(Sampling(i), 1);
      if kind == HomodyneSingleMode {
        var rotation := Spawn(Rotate(i), peaks);
        rows := rows.(rotTasks := rows.rotTasks + [rotation]);
        var e := WaitForPrevious(rows0, ops, i, rotation, Rotate(i), peaks);
        AddLayer(layers, Rotate(i), peaks, tasks, edges, e);
        tasks, edges, layers := tasks + rotation, edges + e, layers + [Rotate(i)];
        e := Precede(rotation, Rotate(i), sampling, Sampling(i), peaks);
        AddLayer(layers, Sampling(i), peaks, tasks, edges, e);
        edges := edges + e;
      } else {
        var e := WaitForPrevious(rows0, ops, i, sampling, Sampling(i), peaks);
        AddLayer(layers, Sampling(i), peaks, tasks, edges, e);
        edges := edges + e;
      }
      ghost var middle := layers + [Sampling(i)];
      tasks, edges, rows := BuildPostSelection(i, rows, peaks, sampling, middle, tasks + sampling, edges);
      OneMoreRow(rows0, rows, ops, i, peaks, sampling);
      assert middle + [PostSelect(i)] == Layers(ops, i + 1);
    }
  }

  /** The post-selections of measurement i, which wait for its sampling. */
  method BuildPostSelection(
    i: nat, rows0: Rows, peaks: nat, sampling: seq<Task>, ghost layers: seq<Layer>, tasks0: seq<Task>, edges0: set<Edge>)
    returns (tasks: seq<Task>, edges: set<Edge>, rows: Rows)
    requires sampling == RowOf(Sampling(i), peaks) && layers != [] && layers[|layers| - 1] == Sampling(i) && PostSelect(i) !in layers
    requires IsGraph(layers, peaks, tasks0, edges0)
    ensures IsGraph(layers + [PostSelect(i)], peaks, tasks, edges)
    ensures rows == Rows(rows0.opTasks + [sampling], rows0.rotTasks, rows0.postTasks + [RowOf(PostSelect(i), peaks)], true)
  {
    hide IsGraph, Joins, RowOf;
    var post := Spawn(PostSelect(i), peaks);
    var e := Precede(sampling, Sampling(i), post, PostSelect(i), peaks);
    AddLayer(layers, PostSelect(i), peaks, tasks0, edges0, e);
    tasks, edges := tasks0 + post, edges0 + e;
    rows := Rows(rows0.opTasks + [sampling], rows0.rotTasks, rows0.postTasks + [post], true);
  }

  /** The tasks and dependencies, created operation by operation.  The order of creation is itself
      one that respects the dependencies, so the graph has no cycle. */
  method BuildTaskGraph(ops: seq<Op>, peaks: nat) returns (tasks: seq<Task>, edges: set<Edge>)
    ensures IsGraph(Layers(ops, |ops|), peaks, tasks, edges)
  {
    tasks, edges := [], {};
    var rows := Rows([], [], [], false);
    for i := 0 to |ops|
      invariant RowsOk(rows, ops, i, peaks) && IsGraph(Layers(ops, i), peaks, tasks, edges)
    {
      rows, tasks, edges := BuildOp(ops, i, rows, peaks, tasks, edges);
    }
  }

  // ----- running tasks -----

  /** What the tasks of a shot share: the state, and the one sampling result. */
  datatype Shared<Peak, Rng, Sample> = Shared(exec: Exec<Peak, Rng>, result: Option<Sample>)

  function PeakWork<Peak, Rng, Sample>(
    k: Kernel<Peak, Rng, Sample>, op: Op, layer: Layer, result: Option<Sample>, m: nat, peak: Peak): Peak
  {
    match layer
    case Gate(_) => k.apply(op.kind, op.modes, op.Effective(), peak)
    case Rotate(_) =>
      if op.params != [] then k.apply(PhaseRotation, [Mode(op)], [op.params[0] - k.halfPi], peak) else peak
    case Sampling(_) => peak
    case PostSelect(_) => if result.Some? then k.select(Mode(op), result.value, m, peak) else peak
  }

  /** Sampling, storing the measured value and applying the feedforwards: one task. */
  ghost function SampleWork<Peak, Rng, Sample>(
    k: Kernel<Peak, Rng, Sample>, ffs: seq<FeedForward>, s: Shared<Peak, Rng, Sample>, i: nat): Option<Shared<Peak, Rng, Sample>>
    requires i < |s.exec.ops|
  {
    var op := s.exec.ops[i];
    var (sample, rng) := k.sample(Mode(op), op.Selection(), s.exec.peaks, s.exec.rng);
    var measured := s.exec.measured[i := k.value(sample)];
    if CanFire(s.exec.ops, ffs, i, measured) then
      Some(Shared(Exec(s.exec.peaks, rng, FireAll(s.exec.ops, ffs, i, measured), measured), Some(sample)))
    else None
  }

  /** The post-selection of an x measurement takes the value of its selection, present or not. */
  predicate TakesMissingSelection(ops: seq<Op>, t: Task) {
    && t.layer.PostSelect? && t.layer.op < |ops|
    && ops[t.layer.op].kind == HomodyneSingleModeX && ops[t.layer.op].Selection().None?
  }

  /** One task; None when it throws. */
  ghost function TaskStep<Peak, Rng, Sample>(
    k: Kernel<Peak, Rng, Sample>, ffs: seq<FeedForward>, s: Shared<Peak, Rng, Sample>, t: Task): Option<Shared<Peak, Rng, Sample>>
  {
    if t.layer.op >= |s.exec.ops| || t.peak >= |s.exec.peaks| || TakesMissingSelection(s.exec.ops, t) then None
    else if t.layer.Sampling? then SampleWork(k, ffs, s, t.layer.op)
    else
      var peak := PeakWork(k, s.exec.ops[t.layer.op], t.layer, s.result, t.peak, s.exec.peaks[t.peak]);
      Some(s.(exec := s.exec.(peaks := s.exec.peaks[t.peak := peak])))
  }

  ghost function RunTasks<Peak, Rng, Sample>(
    k: Kernel<Peak, Rng, Sample>, ffs: seq<FeedForward>, s: Shared<Peak, Rng, Sample>, order: seq<Task>): Option<Shared<Peak, Rng, Sample>>
  {
    if order == [] then Some(s)
    else
      match RunTasks(k, ffs, s, order[..|order| - 1])
      case None => None
      case Some(t) => TaskStep(k, ffs, t, order[|order| - 1])
  }

  // ----- the sequential run, layer by layer -----

  ghost function LayerStep<Peak, Rng, Sample>(
    k: Kernel<Peak, Rng, Sample>, ffs: seq<FeedForward>, s: Shared<Peak, Rng, Sample>, layer: Layer): (r: Option<Shared<Peak, Rng, Sample>>)
    requires layer.op < |s.exec.ops|
    ensures r.Some? ==> SameShapes(s.exec.ops, r.value.exec.ops) && |r.value.exec.peaks| == |s.exec.peaks|
  {
    if layer.Sampling? then SampleWork(k, ffs, s, layer.op)
    else
      var peaks := seq(|s.exec.peaks|, m requires 0 <= m < |s.exec.peaks| =>
        PeakWork(k, s.exec.ops[layer.op], layer, s.result, m, s.exec.peaks[m]));
      Some(s.(exec := s.exec.(peaks := peaks)))
  }

  ghost predicate Follows<Peak, Rng, Sample>(
    k: Kernel<Peak, Rng, Sample>, ffs: seq<FeedForward>, s: Shared<Peak, Rng, Sample>, layer: Layer, t: Shared<Peak, Rng, Sample>)
  {
    layer.op < |s.exec.ops| && LayerStep(k, ffs, s, layer) == Some(t)
  }

  /** trace[l] is the state after the first l layers of the sequential run. */
  ghost predicate IsTrace<Peak, Rng, Sample>(
    k: Kernel<Peak, Rng, Sample>, ffs: seq<FeedForward>, layers: seq<Layer>, trace: seq<Shared<Peak, Rng, Sample>>)
  {
    && |trace| == |layers| + 1
    && (forall l | 0 <= l < |layers| :: Follows(k, ffs, trace[l], layers[l], trace[l + 1]))
    && (forall l | 0 <= l < |trace| :: SameShapes(trace[0].exec.ops, trace[l].exec.ops) && |trace[l].exec.peaks| == |trace[0].exec.peaks|)
  }

  lemma {:induction false} ExtendTrace<Peak, Rng, Sample>(
    k: Kernel<Peak, Rng, Sample>, ffs: seq<FeedForward>, layers: seq<Layer>, trace: seq<Shared<Peak, Rng, Sample>>,
    layer: Layer, next: Shared<Peak, Rng, Sample>)
    requires IsTrace(k, ffs, layers, trace) && Follows(k, ffs, trace[|layers|], layer, next)
    ensures IsTrace(k, ffs, layers + [layer], trace + [next])
  {
    SameShapesTransitive(trace[0].exec.ops, trace[|layers|].exec.ops, next.exec.ops);
  }

  /** The layers of one operation together are one step of the sequential execution. */
  lemma {:induction false} OpLayersAreStep<Peak, Rng, Sample>(
    k: Kernel<Peak, Rng, Sample>, ffs: seq<FeedForward>, layers: seq<Layer>, trace: seq<Shared<Peak, Rng, Sample>>, i: nat)
    returns (more: seq<Shared<Peak, Rng, Sample>>)
    requires IsTrace(k, ffs, layers, trace)
    requires i < |trace[|layers|].exec.ops| && AnglesPresent(trace[|layers|].exec.ops)
    requires Step(k, ffs, trace[|layers|].exec, i).Some?
    ensures IsTrace(k, ffs, layers + OpLayers(trace[|layers|].exec.ops[i].kind, i), more) && trace[0] == more[0]
    ensures Step(k, ffs, trace[|layers|].exec, i) == Some(more[|more| - 1].exec)
  {
    var t := trace[|layers|];
    var op := t.exec.ops[i];
    if !IsMeasurement(op.kind) {
      var next := LayerStep(k, ffs, t, Gate(i)).value;
      assert next.exec.peaks == ApplyToAll(k, op.kind, op.modes, op.Effective(), t.exec.peaks);
      ExtendTrace(k, ffs, layers, trace, Gate(i), next);
      more := trace + [next];
    } else if op.kind == HomodyneSingleMode {
      var r := LayerStep(k, ffs, t, Rotate(i)).value;
      assert r.exec.peaks == Rotated(k, op, t.exec.peaks);
      ExtendTrace(k, ffs, layers, trace, Rotate(i), r);
      more := SampleAndSelect(k, ffs, layers + [Rotate(i)], trace + [r], t, i);
      assert layers + [Rotate(i)] + [Sampling(i)] + [PostSelect(i)] == layers + OpLayers(op.kind, i);
    } else {
      more := SampleAndSelect(k, ffs, layers, trace, t, i);
      assert layers + [Sampling(i)] + [PostSelect(i)] == layers + OpLayers(op.kind, i);
    }
  }

  /** t is the state before measurement i; its rotation is done at the end of the trace. */
  lemma {:induction false} SampleAndSelect<Peak, Rng, Sample>(
    k: Kernel<Peak, Rng, Sample>, ffs: seq<FeedForward>, layers: seq<Layer>, trace: seq<Shared<Peak, Rng, Sample>>,
    t: Shared<Peak, Rng, Sample>, i: nat)
    returns (more: seq<Shared<Peak, Rng, Sample>>)
    requires IsTrace(k, ffs, layers, trace)
    requires i < |t.exec.ops| && IsMeasurement(t.exec.ops[i].kind) && Step(k, ffs, t.exec, i).Some?
    requires trace[|layers|] == t.(exec := t.exec.(peaks := Rotated(k, t.exec.ops[i], t.exec.peaks)))
    ensures IsTrace(k, ffs, layers + [Sampling(i)] + [PostSelect(i)], more) && more[0] == trace[0]
    ensures Step(k, ffs, t.exec, i) == Some(more[|more| - 1].exec)
  {
    var op, r := t.exec.ops[i], trace[|layers|];
    var u := SampleWork(k, ffs, r, i).value;
    ExtendTrace(k, ffs, layers, trace, Sampling(i), u);
    assert op.SameShape(u.exec.ops[i]);
    var v := LayerStep(k, ffs, u, PostSelect(i)).value;
    assert v.exec.peaks == SelectAll(k, Mode(op), u.result.value, r.exec.peaks);
    ExtendTrace(k, ffs, layers + [Sampling(i)], trace + [u], PostSelect(i), v);
    more := trace + [u] + [v];
  }

  /** The sequential run of layers is the sequential run of operations. */
  lemma {:induction false} LayersAreRun<Peak, Rng, Sample>(
    k: Kernel<Peak, Rng, Sample>, ffs: seq<FeedForward>, s: Exec<Peak, Rng>, i: nat)
    returns (trace: seq<Shared<Peak, Rng, Sample>>)
    requires WellFormed(s.ops, ffs) && s.measured == map[] && AnglesPresent(s.ops) && i <= |s.ops|
    ensures IsTrace(k, ffs, Layers(s.ops, i), trace) && trace[0] == Shared(s, None)
    ensures Run(k, ffs, s, 0, i).Some? && Run(k, ffs, s, 0, i).value == trace[|trace| - 1].exec
  {
    if i == 0 {
      trace := [Shared(s, None)];
    } else {
      var front := LayersAreRun(k, ffs, s, i - 1);
      RunOneMore(k, ffs, s, i - 1);
      trace := NextTrace(k, ffs, s.ops, i - 1, front, Run(k, ffs, s, 0, i).value);
    }
  }

  lemma {:induction false} NextTrace<Peak, Rng, Sample>(
    k: Kernel<Peak, Rng, Sample>, ffs: seq<FeedForward>, ops: seq<Op>, i: nat, front: seq<Shared<Peak, Rng, Sample>>, next: Exec<Peak, Rng>)
    returns (trace: seq<Shared<Peak, Rng, Sample>>)
    requires i < |ops| && AnglesPresent(ops) && IsTrace(k, ffs, Layers(ops, i), front)
    requires SameShapes(ops, front[|front| - 1].exec.ops) && Steps(k, ffs, front[|front| - 1].exec, i, next)
    ensures IsTrace(k, ffs, Layers(ops, i + 1), trace) && trace[0] == front[0]
    ensures trace[|trace| - 1].exec == next
  {
    assert ops[i].SameShape(front[|front| - 1].exec.ops[i]);
    SameShapeAngles(ops, front[|front| - 1].exec.ops);
    trace := OpLayersAreStep(k, ffs, Layers(ops, i), front, i);
  }
}
