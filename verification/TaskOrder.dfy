/** Every order in which a scheduler may run the tasks of a shot gives the sequential result. */
module TaskOrder {
  import opened Elementary
  import opened Operations
  import opened Engine
  import opened SimulatorObject
  import opened TaskGraph

  /** h[m] layers have been completed for peak m. */
  ghost predicate Executed(layers: seq<Layer>, peaks: nat, done: seq<Task>, h: seq<nat>) {
    && |h| == peaks
    && (forall m | 0 <= m < peaks :: h[m] <= |layers|)
    && (forall l, m | 0 <= l < |layers| && 0 <= m < peaks :: At(layers[l], m) in done <==> l < h[m])
  }

  /** Seen from peak m, the shared state is the sequential state q. */
  ghost predicate Agrees<Peak, Rng, Sample>(q: Shared<Peak, Rng, Sample>, s: Shared<Peak, Rng, Sample>, m: nat) {
    && m < |s.exec.peaks| == |q.exec.peaks|
    && s.exec.peaks[m] == q.exec.peaks[m]
    && s.exec.rng == q.exec.rng && s.exec.ops == q.exec.ops && s.exec.measured == q.exec.measured && s.result == q.result
  }

  /** Seen from peak m, the shared state is the sequential state after h[m] layers. */
  ghost predicate InSync<Peak, Rng, Sample>(trace: seq<Shared<Peak, Rng, Sample>>, h: seq<nat>, s: Shared<Peak, Rng, Sample>) {
    && |h| == |s.exec.peaks|
    && (forall m | 0 <= m < |h| :: h[m] < |trace| && Agrees(trace[h[m]], s, m))
  }

  /** A task of peak m moves peak m, and nothing else, one layer on. */
  lemma {:induction false} PeakTaskInSync<Peak, Rng, Sample>(
    k: Kernel<Peak, Rng, Sample>, ffs: seq<FeedForward>, layers: seq<Layer>, trace: seq<Shared<Peak, Rng, Sample>>,
    h: seq<nat>, s: Shared<Peak, Rng, Sample>, m: nat)
    requires IsTrace(k, ffs, layers, trace) && InSync(trace, h, s)
    requires m < |h| && h[m] < |layers| && !layers[h[m]].Sampling?
    requires !TakesMissingSelection(trace[0].exec.ops, At(layers[h[m]], m))
    ensures TaskStep(k, ffs, s, At(layers[h[m]], m)).Some?
    ensures InSync(trace, h[m := h[m] + 1], TaskStep(k, ffs, s, At(layers[h[m]], m)).value)
  {
    var l := h[m];
    assert Follows(k, ffs, trace[l], layers[l], trace[l + 1]);
    assert Agrees(trace[l], s, m);
    assert trace[0].exec.ops[layers[l].op].SameShape(trace[l].exec.ops[layers[l].op]);
    var s' := TaskStep(k, ffs, s, At(layers[l], m)).value;
    assert Agrees(trace[l + 1], s', m);
    forall j | 0 <= j < |h| && j != m ensures Agrees(trace[h[j]], s', j) {
      assert Agrees(trace[h[j]], s, j);
    }
  }

  /** The shared state is the sequential state when all peaks say so. */
  lemma {:induction false} AllAgree<Peak, Rng, Sample>(q: Shared<Peak, Rng, Sample>, s: Shared<Peak, Rng, Sample>)
    requires |q.exec.peaks| == |s.exec.peaks| >= 1
    requires forall m | 0 <= m < |s.exec.peaks| :: Agrees(q, s, m)
    ensures q == s
  {
    assert Agrees(q, s, 0);
    forall m | 0 <= m < |s.exec.peaks| ensures q.exec.peaks[m] == s.exec.peaks[m] {
      assert Agrees(q, s, m);
    }
    assert s.exec.peaks == q.exec.peaks;
  }

  /** When a sampling task is due, the shared state is the whole sequential state. */
  lemma {:induction false} SamplingInSync<Peak, Rng, Sample>(
    k: Kernel<Peak, Rng, Sample>, ffs: seq<FeedForward>, layers: seq<Layer>, trace: seq<Shared<Peak, Rng, Sample>>,
    h: seq<nat>, s: Shared<Peak, Rng, Sample>, l: nat)
    requires IsTrace(k, ffs, layers, trace) && InSync(trace, h, s) && |s.exec.peaks| == |trace[0].exec.peaks|
    requires |h| >= 1 && l < |layers| && layers[l].Sampling? && forall m | 0 <= m < |h| :: h[m] == l
    ensures TaskStep(k, ffs, s, At(layers[l], 0)).Some?
    ensures InSync(trace, seq(|h|, _ => l + 1), TaskStep(k, ffs, s, At(layers[l], 0)).value)
  {
    assert Follows(k, ffs, trace[l], layers[l], trace[l + 1]);
    forall m | 0 <= m < |h| ensures Agrees(trace[l], s, m) {
      assert h[m] == l;
    }
    AllAgree(trace[l], s);
    assert TaskStep(k, ffs, s, At(layers[l], 0)) == Some(trace[l + 1]);
    var next, h' := trace[l + 1], seq(|h|, _ => l + 1);
    forall m | 0 <= m < |h| ensures h'[m] == l + 1 && Agrees(next, next, m) {}
  }

  // ----- orders -----

  /** What every task waits for is already done when its turn comes. */
  lemma {:induction false} DueTask(layers: seq<Layer>, peaks: nat, order: seq<Task>, c: nat, h: seq<nat>, l: nat, m: nat)
    requires Topological(layers, peaks, order) && c < |order|
    requires Executed(layers, peaks, order[..c], h)
    requires l < |layers| && m < peaks && order[c] == At(layers[l], m)
    ensures h[m] == l
  {
    assert order[c] !in order[..c];
    if l > 0 {
      var u := At(layers[l - 1], m);
      assert Link(layers, peaks, (u, order[c]), l, m);
      assert u in order;
      var a :| 0 <= a < |order| && order[a] == u;
      assert a < c && order[..c][a] == u;
    }
  }

  /** Marking one more task as done. */
  lemma {:induction false} ExecutedOneMore(layers: seq<Layer>, n: nat, peaks: nat, done: seq<Task>, h: seq<nat>, l: nat, m: nat, h': seq<nat>)
    requires Proper(layers, n) && Executed(layers, peaks, done, h)
    requires l < |layers| && m < peaks && h[m] == l
    requires if layers[l].Sampling? then (forall j | 0 <= j < peaks :: h[j] == l) && h' == seq(peaks, _ => l + 1)
             else h' == h[m := l + 1]
    ensures Executed(layers, peaks, done + [At(layers[l], m)], h')
  {
    var t := At(layers[l], m);
    forall l', m' | 0 <= l' < |layers| && 0 <= m' < peaks
      ensures At(layers[l'], m') in done + [t] <==> l' < h'[m']
    {
      assert At(layers[l'], m') in done <==> l' < h[m'];
      assert At(layers[l'], m') == t <==> l' == l && (m' == m || layers[l].Sampling?);
    }
  }

  /** The layer and a peak of a task; a sampling task counts for every peak. */
  lemma {:induction false} Locate(layers: seq<Layer>, peaks: nat, order: seq<Task>, a: nat) returns (l: nat, m: nat)
    requires peaks >= 1 && Topological(layers, peaks, order) && a < |order|
    ensures l < |layers| && m < peaks && order[a] == At(layers[l], m)
    ensures order[a].layer == layers[l]
  {
    assert order[a] in order;
    l :| l < |layers| && layers[l] == order[a].layer;
    m := order[a].peak;
  }

  /** The order respects the graph of the layers, whose sequential run is the trace. */
  ghost predicate Scheduled<Peak, Rng, Sample>(
    k: Kernel<Peak, Rng, Sample>, ffs: seq<FeedForward>, layers: seq<Layer>, trace: seq<Shared<Peak, Rng, Sample>>,
    n: nat, peaks: nat, order: seq<Task>)
  {
    && IsTrace(k, ffs, layers, trace)
    && |trace[0].exec.peaks| == peaks >= 1
    && Proper(layers, n)
    && Topological(layers, peaks, order)
  }

  /** The invariant, over every prefix of every topological order. */
  lemma {:induction false} PrefixInSync<Peak, Rng, Sample>(
    k: Kernel<Peak, Rng, Sample>, ffs: seq<FeedForward>, layers: seq<Layer>, trace: seq<Shared<Peak, Rng, Sample>>,
    n: nat, peaks: nat, order: seq<Task>, c: nat)
    returns (h: seq<nat>)
    requires Scheduled(k, ffs, layers, trace, n, peaks, order) && c <= |order|
    requires forall a | 0 <= a < c :: !TakesMissingSelection(trace[0].exec.ops, order[a])
    ensures Executed(layers, peaks, order[..c], h)
    ensures RunTasks(k, ffs, trace[0], order[..c]).Some?
    ensures InSync(trace, h, RunTasks(k, ffs, trace[0], order[..c]).value)
  {
    if c == 0 {
      h := seq(peaks, _ => 0);
    } else {
      var g := PrefixInSync(k, ffs, layers, trace, n, peaks, order, c - 1);
      assert order[..c] == order[..c - 1] + [order[c - 1]];
      assert order[..c][..c - 1] == order[..c - 1];
      h := NextInSync(k, ffs, layers, trace, n, peaks, order, c - 1, g, RunTasks(k, ffs, trace[0], order[..c - 1]).value);
    }
  }

  lemma {:induction false} NextInSync<Peak, Rng, Sample>(
    k: Kernel<Peak, Rng, Sample>, ffs: seq<FeedForward>, layers: seq<Layer>, trace: seq<Shared<Peak, Rng, Sample>>,
    n: nat, peaks: nat, order: seq<Task>, c: nat, g: seq<nat>, s: Shared<Peak, Rng, Sample>)
    returns (h: seq<nat>)
    requires Scheduled(k, ffs, layers, trace, n, peaks, order) && c < |order|
    requires !TakesMissingSelection(trace[0].exec.ops, order[c])
    requires Executed(layers, peaks, order[..c], g) && InSync(trace, g, s)
    ensures Executed(layers, peaks, order[..c] + [order[c]], h)
    ensures TaskStep(k, ffs, s, order[c]).Some? && InSync(trace, h, TaskStep(k, ffs, s, order[c]).value)
  {
    var l, m := Locate(layers, peaks, order, c);
    DueTask(layers, peaks, order, c, g, l, m);
    if layers[l].Sampling? {
      forall j | 0 <= j < peaks ensures g[j] == l {
        DueTask(layers, peaks, order, c, g, l, j);
      }
      h := seq(peaks, _ => l + 1);
      SamplingInSync(k, ffs, layers, trace, g, s, l);
    } else {
      h := g[m := l + 1];
      PeakTaskInSync(k, ffs, layers, trace, g, s, m);
    }
    ExecutedOneMore(layers, n, peaks, order[..c], g, l, m, h);
  }

  lemma {:induction false} AllDone(layers: seq<Layer>, peaks: nat, order: seq<Task>, h: seq<nat>, m: nat)
    requires peaks >= 1 && Topological(layers, peaks, order) && Executed(layers, peaks, order, h) && m < peaks
    ensures h[m] == |layers|
  {
    if layers != [] {
      var l := |layers| - 1;
      assert At(layers[l], m) in order;
    }
  }

  /** Running all tasks, in any order that respects the dependencies, gives the sequential state. */
  lemma {:induction false} CompleteOrder<Peak, Rng, Sample>(
    k: Kernel<Peak, Rng, Sample>, ffs: seq<FeedForward>, layers: seq<Layer>, trace: seq<Shared<Peak, Rng, Sample>>,
    n: nat, peaks: nat, order: seq<Task>)
    requires Scheduled(k, ffs, layers, trace, n, peaks, order)
    requires forall a | 0 <= a < |order| :: !TakesMissingSelection(trace[0].exec.ops, order[a])
    ensures RunTasks(k, ffs, trace[0], order) == Some(trace[|layers|])
  {
    var h := PrefixInSync(k, ffs, layers, trace, n, peaks, order, |order|);
    assert order[..|order|] == order;
    var s := RunTasks(k, ffs, trace[0], order).value;
    forall m | 0 <= m < peaks ensures Agrees(trace[|layers|], s, m) {
      AllDone(layers, peaks, order, h, m);
    }
    AllAgree(trace[|layers|], s);
  }

  lemma {:induction false} RunTasksShapes<Peak, Rng, Sample>(
    k: Kernel<Peak, Rng, Sample>, ffs: seq<FeedForward>, s0: Shared<Peak, Rng, Sample>, order: seq<Task>)
    requires RunTasks(k, ffs, s0, order).Some?
    ensures SameShapes(s0.exec.ops, RunTasks(k, ffs, s0, order).value.exec.ops)
  {
    if order != [] {
      RunTasksShapes(k, ffs, s0, order[..|order| - 1]);
      SameShapesTransitive(s0.exec.ops, RunTasks(k, ffs, s0, order[..|order| - 1]).value.exec.ops,
                           RunTasks(k, ffs, s0, order).value.exec.ops);
    }
  }

  lemma {:induction false} MissingSelectionThrows<Peak, Rng, Sample>(
    k: Kernel<Peak, Rng, Sample>, ffs: seq<FeedForward>, s0: Shared<Peak, Rng, Sample>, order: seq<Task>, a: nat)
    requires a < |order| && TakesMissingSelection(s0.exec.ops, order[a])
    ensures RunTasks(k, ffs, s0, order).None?
  {
    var front := order[..|order| - 1];
    if a < |front| {
      MissingSelectionThrows(k, ffs, s0, front, a);
    } else if RunTasks(k, ffs, s0, front).Some? {
      RunTasksShapes(k, ffs, s0, front);
      assert s0.exec.ops[order[a].layer.op].SameShape(RunTasks(k, ffs, s0, front).value.exec.ops[order[a].layer.op]);
    }
  }

  /** No x measurement lacks its selection. */
  ghost predicate SelectionsPresent(ops: seq<Op>) {
    forall i | 0 <= i < |ops| && ops[i].kind == HomodyneSingleModeX :: ops[i].Selection().Some?
  }

  /** For a well-formed circuit and at least one peak, every order the task graph allows completes
      exactly when every x measurement has a selection, and it then leaves the peaks, parameters,
      measured values and random engine of the sequential execution. */
  lemma {:induction false} AnyOrderIsSequential<Peak, Rng, Sample>(
    k: Kernel<Peak, Rng, Sample>, ffs: seq<FeedForward>, s: Exec<Peak, Rng>, order: seq<Task>)
    requires WellFormed(s.ops, ffs) && s.measured == map[] && AnglesPresent(s.ops)
    requires |s.peaks| >= 1 && Topological(Layers(s.ops, |s.ops|), |s.peaks|, order)
    ensures Execute(k, ffs, s).Some?
    ensures RunTasks(k, ffs, Shared(s, None), order).Some? <==> SelectionsPresent(s.ops)
    ensures SelectionsPresent(s.ops) ==> RunTasks(k, ffs, Shared(s, None), order).value.exec == Execute(k, ffs, s).value
  {
    LayersProper(s.ops, |s.ops|);
    var trace := LayersAreRun(k, ffs, s, |s.ops|);
    if SelectionsPresent(s.ops) {
      CompleteOrder(k, ffs, Layers(s.ops, |s.ops|), trace, |s.ops|, |s.peaks|, order);
    } else {
      SomeOrderThrows(k, ffs, s, order);
    }
  }

  lemma {:induction false} SomeOrderThrows<Peak, Rng, Sample>(
    k: Kernel<Peak, Rng, Sample>, ffs: seq<FeedForward>, s: Exec<Peak, Rng>, order: seq<Task>)
    requires |s.peaks| >= 1 && Topological(Layers(s.ops, |s.ops|), |s.peaks|, order)
    requires !SelectionsPresent(s.ops)
    ensures RunTasks(k, ffs, Shared(s, None), order).None?
  {
    var i :| 0 <= i < |s.ops| && s.ops[i].kind == HomodyneSingleModeX && s.ops[i].Selection().None?;
    var l := PostSelectLayer(s.ops, |s.ops|, i);
    var a := IsScheduled(Layers(s.ops, |s.ops|), |s.peaks|, order, l);
    MissingSelectionThrows(k, ffs, Shared(s, None), order, a);
  }

  lemma {:induction false} IsScheduled(layers: seq<Layer>, peaks: nat, order: seq<Task>, l: nat) returns (a: nat)
    requires peaks >= 1 && Topological(layers, peaks, order) && l < |layers|
    ensures a < |order| && order[a] == At(layers[l], 0)
  {
    assert At(layers[l], 0) in order;
    a :| 0 <= a < |order| && order[a] == At(layers[l], 0);
  }

  lemma {:induction false} PostSelectLayer(ops: seq<Op>, n: nat, i: nat) returns (l: nat)
    requires i < n <= |ops| && IsMeasurement(ops[i].kind)
    ensures l < |Layers(ops, n)| && Layers(ops, n)[l] == PostSelect(i)
  {
    if i < n - 1 {
      l := PostSelectLayer(ops, n - 1, i);
    } else {
      l := |Layers(ops, n)| - 1;
    }
  }

  // ----- what the order guarantees about the shared sampling result -----

  /** Tasks of one peak run in the order of their layers. */
  lemma {:induction false} ChainOrder(layers: seq<Layer>, peaks: nat, order: seq<Task>, l: nat, l': nat, m: nat, a: nat, b: nat)
    requires Topological(layers, peaks, order) && m < peaks
    requires l < l' < |layers| && a < |order| && b < |order|
    requires order[a] == At(layers[l], m) && order[b] == At(layers[l'], m)
    ensures a < b
    decreases l'
  {
    var u := At(layers[l' - 1], m);
    assert Link(layers, peaks, (u, order[b]), l', m);
    if l < l' - 1 {
      assert u in order;
      var c :| 0 <= c < |order| && order[c] == u;
      assert IsEdge(layers, peaks, (order[c], order[b]));
      ChainOrder(layers, peaks, order, l, l' - 1, m, a, c);
    }
  }

  /** A sampling task is ordered with respect to every other task, the same way in every order. */
  lemma {:induction false} SamplingComparable(ops: seq<Op>, peaks: nat, order: seq<Task>, order': seq<Task>, a: nat, b: nat, a': nat, b': nat)
    requires peaks >= 1
    requires Topological(Layers(ops, |ops|), peaks, order) && Topological(Layers(ops, |ops|), peaks, order')
    requires a < |order| && b < |order| && a != b && order[a].layer.Sampling?
    requires a' < |order'| && b' < |order'| && order'[a'] == order[a] && order'[b'] == order[b]
    ensures a < b <==> a' < b'
  {
    var layers := Layers(ops, |ops|);
    var l, _ := Locate(layers, peaks, order, a);
    var l', m := Locate(layers, peaks, order, b);
    assert order[a] == At(layers[l], m);
    if l < l' {
      ChainOrder(layers, peaks, order, l, l', m, a, b);
      ChainOrder(layers, peaks, order', l, l', m, a', b');
    } else if l' < l {
      ChainOrder(layers, peaks, order, l', l, m, b, a);
      ChainOrder(layers, peaks, order', l', l, m, b', a');
    }
  }

  /** A post-selection finds the sampling result of its own measurement: its sampling has run, and
      no other sampling has run since. */
  lemma {:induction false} OwnSamplingResult(ops: seq<Op>, peaks: nat, order: seq<Task>, b: nat)
    requires peaks >= 1 && Topological(Layers(ops, |ops|), peaks, order)
    requires b < |order| && order[b].layer.PostSelect?
    ensures exists a :: 0 <= a < b && order[a] == Task(Sampling(order[b].layer.op), 0)
                        && forall c | a < c < b :: !order[c].layer.Sampling?
  {
    var layers := Layers(ops, |ops|);
    LayersProper(ops, |ops|);
    var l, m := Locate(layers, peaks, order, b);
    var t := At(layers[l - 1], m);
    assert t in order;
    var a :| 0 <= a < |order| && order[a] == t;
    ChainOrder(layers, peaks, order, l - 1, l, m, a, b);
    forall c | a < c < b ensures !order[c].layer.Sampling? {
      if order[c].layer.Sampling? {
        var j, _ := Locate(layers, peaks, order, c);
        assert order[c] == At(layers[j], m) && order[c] != order[a];
        NotBetween(layers, peaks, order, l, j, m, a, b, c);
      }
    }
  }

  lemma {:induction false} NotBetween(layers: seq<Layer>, peaks: nat, order: seq<Task>, l: nat, j: nat, m: nat, a: nat, b: nat, c: nat)
    requires Topological(layers, peaks, order) && m < peaks
    requires 0 < l < |layers| && j < |layers| && j != l && j != l - 1
    requires a < |order| && b < |order| && c < |order|
    requires order[a] == At(layers[l - 1], m) && order[b] == At(layers[l], m) && order[c] == At(layers[j], m)
    ensures c < a || c > b
  {
    if j < l - 1 {
      ChainOrder(layers, peaks, order, j, l - 1, m, c, a);
    } else {
      ChainOrder(layers, peaks, order, l, j, m, b, c);
    }
  }
}
