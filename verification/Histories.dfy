/** The kernel that forgets nothing: a peak is the list of everything that was done to it.  Two runs that
    some kernel can tell apart are told apart by this one. */
module Histories {
  import opened Elementary
  import opened Operations
  import opened Engine
  import opened Resolution

  datatype Entry =
    | Applied(kind: Kind, modes: seq<nat>, params: seq<real>)
    | Read(mode: nat, selection: Option<real>)

  type History = seq<Entry>

  function HistoryKernel(): Kernel<History, (), Option<real>> {
    Kernel(0.0,
           (kind: Kind, modes: seq<nat>, params: seq<real>, h: History) => h + [Applied(kind, modes, params)],
           (mode: nat, sel: Option<real>, peaks: seq<History>, rng: ()) => (sel, rng),
           (sel: Option<real>) => if sel.Some? then sel.value else 0.0,
           (mode: nat, sel: Option<real>, m: nat, h: History) => h + [Read(mode, sel)])
  }

  /** What executing an operation adds to the history. */
  function Record(op: Op): History {
    if !IsMeasurement(op.kind) then [Applied(op.kind, op.modes, op.Effective())]
    else
      (if op.kind == HomodyneSingleMode && op.params != [] then [Applied(PhaseRotation, [Mode(op)], [op.params[0]])] else [])
      + [Read(Mode(op), op.Selection())]
  }

  /** The history after the first i operations has this length, whatever the parameters were. */
  function Length(ops: seq<Op>, i: nat): nat
    requires i <= |ops|
  {
    if i == 0 then 0 else Length(ops, i - 1) + |Record(ops[i - 1])|
  }

  lemma {:induction false} StepRecords(ffs: seq<FeedForward>, e: Exec<History, ()>, h: History, i: nat, next: Exec<History, ()>)
    requires Steps(HistoryKernel(), ffs, e, i, next) && e.peaks == [h]
    ensures i < |e.ops| && next.peaks == [h + Record(e.ops[i])]
  {
    var k, op := HistoryKernel(), e.ops[i];
    if IsMeasurement(op.kind) {
      var turn := if op.kind == HomodyneSingleMode && op.params != [] then [Applied(PhaseRotation, [Mode(op)], [op.params[0]])] else [];
      var rotated := Rotated(k, op, e.peaks);
      assert rotated == [h + turn] by {
        if turn == [] {
          assert h + turn == h;
        } else {
          assert [op.params[0] - 0.0] == [op.params[0]];
          assert k.apply(PhaseRotation, [Mode(op)], [op.params[0] - 0.0], h) == h + turn;
        }
      }
      var sel := k.sample(Mode(op), op.Selection(), rotated, e.rng).0;
      assert sel == op.Selection();
      assert SelectAll(k, Mode(op), sel, rotated) == [h + turn + [Read(Mode(op), sel)]];
      assert h + turn + [Read(Mode(op), sel)] == h + Record(op);
    } else {
      assert ApplyToAll(k, op.kind, op.modes, op.Effective(), e.peaks) == [h + Record(op)];
    }
  }

  lemma {:induction false} SameShapeLength(a: Op, b: Op)
    requires a.SameShape(b)
    ensures |Record(a)| == |Record(b)|
  {
  }

  ghost predicate IsStart(s: Exec<History, ()>) { s.peaks == [[]] && s.measured == map[] }

  /** The history before operation i. */
  lemma {:induction false} RunRecords(ffs: seq<FeedForward>, s: Exec<History, ()>, i: nat) returns (h: History)
    requires WellFormed(s.ops, ffs) && IsStart(s) && i <= |s.ops|
    ensures Run(HistoryKernel(), ffs, s, 0, i).Some? && SameShapes(s.ops, Before(HistoryKernel(), ffs, s, i).ops)
    ensures Before(HistoryKernel(), ffs, s, i).peaks == [h] && |h| == Length(s.ops, i)
  {
    hide Step, Steps, Record, HistoryKernel, WellFormed;
    var k := HistoryKernel();
    RunsSettled(k, ffs, s, i);
    h := [];
    if i > 0 {
      h := RunRecords(ffs, s, i - 1);
      RunOneMore(k, ffs, s, i - 1);
      var e := Before(k, ffs, s, i - 1);
      StepRecords(ffs, e, h, i - 1, Before(k, ffs, s, i));
      SameShapeLength(s.ops[i - 1], e.ops[i - 1]);
      h := h + Record(e.ops[i - 1]);
    }
  }

  /** The history only grows. */
  lemma {:induction false} RunExtends(ffs: seq<FeedForward>, s: Exec<History, ()>, i: nat, j: nat, h: History) returns (rest: History)
    requires WellFormed(s.ops, ffs) && IsStart(s) && i < j <= |s.ops|
    requires Run(HistoryKernel(), ffs, s, 0, i).Some? && i < |Before(HistoryKernel(), ffs, s, i).ops|
    requires Before(HistoryKernel(), ffs, s, i).peaks == [h]
    ensures Run(HistoryKernel(), ffs, s, 0, j).Some?
    ensures Before(HistoryKernel(), ffs, s, j).peaks == [h + Record(Before(HistoryKernel(), ffs, s, i).ops[i]) + rest]
    decreases j
  {
    hide Step, Steps, Record, HistoryKernel, WellFormed;
    var k := HistoryKernel();
    RunOneMore(k, ffs, s, j - 1);
    var e := Before(k, ffs, s, j - 1);
    if i == j - 1 {
      StepRecords(ffs, e, h, i, Before(k, ffs, s, j));
      rest := [];
      assert h + Record(e.ops[i]) == h + Record(e.ops[i]) + rest;
    } else {
      var first := h + Record(Before(k, ffs, s, i).ops[i]);
      var front := RunExtends(ffs, s, i, j - 1, h);
      StepRecords(ffs, e, first + front, j - 1, Before(k, ffs, s, j));
      rest := front + Record(e.ops[j - 1]);
      assert first + front + Record(e.ops[j - 1]) == first + rest;
    }
  }

  /** Two runs, with operations of the same lengths, that execute operation i differently end differently. */
  lemma {:induction false} ToldApart(ffs: seq<FeedForward>, s: Exec<History, ()>, ffs': seq<FeedForward>, u: Exec<History, ()>, i: nat)
    requires WellFormed(s.ops, ffs) && WellFormed(u.ops, ffs') && IsStart(s) && IsStart(u)
    requires |s.ops| == |u.ops| && i < |s.ops| && Length(s.ops, i) == Length(u.ops, i)
    requires |Record(s.ops[i])| == |Record(u.ops[i])|
    requires Run(HistoryKernel(), ffs, s, 0, i).Some? && i < |Before(HistoryKernel(), ffs, s, i).ops|
    requires Run(HistoryKernel(), ffs', u, 0, i).Some? && i < |Before(HistoryKernel(), ffs', u, i).ops|
    requires Record(Before(HistoryKernel(), ffs, s, i).ops[i]) != Record(Before(HistoryKernel(), ffs', u, i).ops[i])
    ensures Execute(HistoryKernel(), ffs, s).Some? && Execute(HistoryKernel(), ffs', u).Some?
    ensures Final(HistoryKernel(), ffs, s).peaks != Final(HistoryKernel(), ffs', u).peaks
  {
    hide Step, Run, HistoryKernel, Record, WellFormed, Length;
    var k := HistoryKernel();
    var h := RunRecords(ffs, s, i);
    var h' := RunRecords(ffs', u, i);
    var a, b := Before(k, ffs, s, i).ops[i], Before(k, ffs', u, i).ops[i];
    SameShapeLength(s.ops[i], a);
    SameShapeLength(u.ops[i], b);
    var rest := RunExtends(ffs, s, i, |s.ops|, h);
    var rest' := RunExtends(ffs', u, i, |u.ops|, h');
    Apart(h, Record(a), rest, h', Record(b), rest');
    assert Final(k, ffs, s) == Before(k, ffs, s, |s.ops|) && Final(k, ffs', u) == Before(k, ffs', u, |u.ops|);
    assert [h + Record(a) + rest][0] != [h' + Record(b) + rest'][0];
  }

  lemma {:induction false} Apart(h: History, a: History, rest: History, h': History, b: History, rest': History)
    requires |h| == |h'| && |a| == |b| && a != b
    ensures h + a + rest != h' + b + rest'
  {
    var j :| 0 <= j < |a| && a[j] != b[j];
    assert (h + a + rest)[|h| + j] == a[j] && (h' + b + rest')[|h'| + j] == b[j];
  }

  /** The parameters of an operation that is not a gate with a matrix can be told from its record, if
      there are as many of them as its constructor takes. */
  lemma {:induction false} RecordTellsParams(a: Op, b: Op)
    requires a.kind == b.kind && |a.params| == |b.params| && ArityOk(a.kind, |a.params|) && !IsMatrixGate(a.kind)
    requires a.params != b.params
    ensures Record(a) != Record(b)
  {
    if IsMeasurement(a.kind) {
      assert Record(a)[|Record(a)| - 1] == Read(Mode(a), a.Selection()) && Record(b)[|Record(b)| - 1] == Read(Mode(b), b.Selection());
      if a.kind == HomodyneSingleMode {
        assert Record(a)[0] == Applied(PhaseRotation, [Mode(a)], [a.params[0]]) && Record(b)[0] == Applied(PhaseRotation, [Mode(b)], [b.params[0]]);
      }
    }
  }
}
