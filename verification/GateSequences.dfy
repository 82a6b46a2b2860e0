/** Whole sequences of gates, embedded in any number of modes: they keep the symplectic form and can be undone. */
module GateSequences {
  import opened Elementary
  import opened Operations
  import opened Points
  import opened Symplectic
  import Conditioning
  import Sums

  /** The area two points span, mode by mode. */
  function Areas(a: seq<Quad>, b: seq<Quad>): Sums.Vector {
    (i: int) => if 0 <= i < |a| && i < |b| then Area(a[i], b[i]) else 0.0
  }

  /** The symplectic form of all modes. */
  function TotalArea(a: seq<Quad>, b: seq<Quad>): real { Sums.Sum(Areas(a, b), |a|) }

  ghost predicate IsGate(f: Functions, op: Op) {
    IsMatrixGate(op.kind) && Constructible(f, op.kind, op.modes, op.built)
  }

  ghost predicate AllGates(f: Functions, ops: seq<Op>) {
    forall j | 0 <= j < |ops| :: IsGate(f, ops[j])
  }

  // ----- one gate -----

  lemma {:induction false} OneModeChanged(a: seq<Quad>, b: seq<Quad>, m: nat, u: Quad, v: Quad)
    requires |a| == |b| && m < |a| && Area(u, v) == Area(a[m], b[m])
    ensures TotalArea(a[m := u], b[m := v]) == TotalArea(a, b)
  {
    hide Area;
    Sums.SumEq(Areas(a[m := u], b[m := v]), Areas(a, b), |a|);
  }

  lemma {:induction false} AreaAt(a: seq<Quad>, b: seq<Quad>, m: nat, l: nat, u: Quad, v: Quad, u': Quad, v': Quad, i: int)
    requires |a| == |b| && m < |a| && l < |a| && m != l
    requires Area(u, v) + Area(u', v') == Area(a[m], b[m]) + Area(a[l], b[l])
    ensures var e := Area(u, v) - Area(a[m], b[m]);
      Areas(a[m := u][l := u'], b[m := v][l := v'])(i) == Sums.Added(Sums.Added(Areas(a, b), Sums.Spike(m, e)), Sums.Spike(l, -e))(i)
  {
    hide Area;
  }

  lemma {:induction false} TwoModesChanged(a: seq<Quad>, b: seq<Quad>, m: nat, l: nat, u: Quad, v: Quad, u': Quad, v': Quad)
    requires |a| == |b| && m < |a| && l < |a| && m != l
    requires Area(u, v) + Area(u', v') == Area(a[m], b[m]) + Area(a[l], b[l])
    ensures TotalArea(a[m := u][l := u'], b[m := v][l := v']) == TotalArea(a, b)
  {
    var n, e := |a|, Area(u, v) - Area(a[m], b[m]);
    var f, g, h := Areas(a, b), Sums.Spike(m, e), Sums.Spike(l, -e);
    hide Area, Areas, Sums.Sum, Sums.Added, Sums.Spike;
    forall i | 0 <= i < n ensures Areas(a[m := u][l := u'], b[m := v][l := v'])(i) == Sums.Added(Sums.Added(f, g), h)(i) {
      AreaAt(a, b, m, l, u, v, u', v', i);
    }
    Sums.SumEq(Areas(a[m := u][l := u'], b[m := v][l := v']), Sums.Added(Sums.Added(f, g), h), n);
    Sums.SumAdded(Sums.Added(f, g), h, n);
    Sums.SumAdded(f, g, n);
    Conditioning.SpikeSum(n, m, e);
    Conditioning.SpikeSum(n, l, -e);
  }

  lemma {:induction false} PairForm(m: Mat4, a: Quad, b: Quad, c: Quad, d: Quad)
    requires Preserves4(m)
    ensures Area(Act4(m, a, b).0, Act4(m, c, d).0) + Area(Act4(m, a, b).1, Act4(m, c, d).1) == Area(a, c) + Area(b, d)
  {
    var u, v := Vec(a, b), Vec(c, d);
    assert Omega(Apply4(m, u), Apply4(m, v)) == Omega(u, v);
    hide Preserves4, Apply4, Omega, Area;
    OmegaIsArea(Apply4(m, u), Apply4(m, v));
    OmegaIsArea(u, v);
    assert Mode0(u) == a && Mode1(u) == b && Mode0(v) == c && Mode1(v) == d;
  }

  lemma {:induction false} UnaryApplies(f: Functions, kind: Kind, modes: seq<nat>, params: seq<real>, pt: Point)
    requires IsUnaryGate(kind) && Applicable(kind, modes, params, |pt.modes|)
    ensures ApplyGate(f, kind, modes, params, pt) == pt.(modes := pt.modes[modes[0] := Act2(UnaryMatrix(f, kind, params), pt.modes[modes[0]])])
  {
    hide UnaryMatrix, Act2, Act4;
  }

  lemma {:induction false} BinaryApplies(f: Functions, kind: Kind, modes: seq<nat>, params: seq<real>, pt: Point)
    requires IsBinaryGate(kind) && Applicable(kind, modes, params, |pt.modes|)
    ensures var ab := Act4(BinaryMatrix(f, kind, params), pt.modes[modes[0]], pt.modes[modes[1]]);
      ApplyGate(f, kind, modes, params, pt) == pt.(modes := pt.modes[modes[0] := ab.0][modes[1] := ab.1])
  {
    hide BinaryMatrix, Act2, Act4;
  }

  lemma {:induction false} NotApplicable(f: Functions, kind: Kind, modes: seq<nat>, params: seq<real>, pt: Point)
    requires !Applicable(kind, modes, params, |pt.modes|)
    ensures ApplyGate(f, kind, modes, params, pt) == pt
  {
  }

  lemma {:induction false} GateKeepsArea(f: Functions, kind: Kind, modes: seq<nat>, params: seq<real>, p: Point, q: Point)
    requires f.Lawful() && IsMatrixGate(kind) && Constructible(f, kind, modes, params) && |p.modes| == |q.modes|
    ensures TotalArea(ApplyGate(f, kind, modes, params, p).modes, ApplyGate(f, kind, modes, params, q).modes) == TotalArea(p.modes, q.modes)
  {
    hide f.Lawful, Constructible, UnaryMatrix, BinaryMatrix, TotalArea, Area, Act2, Act4, Preserves4, ApplyGate;
    if !Applicable(kind, modes, params, |p.modes|) {
      NotApplicable(f, kind, modes, params, p);
      NotApplicable(f, kind, modes, params, q);
    } else if IsUnaryGate(kind) {
      UnarySymplectic(f, kind, modes, params);
      UnaryApplies(f, kind, modes, params, p);
      UnaryApplies(f, kind, modes, params, q);
      var m, u, v := UnaryMatrix(f, kind, params), p.modes[modes[0]], q.modes[modes[0]];
      assert Area(Act2(m, u), Act2(m, v)) == Area(u, v);
      OneModeChanged(p.modes, q.modes, modes[0], Act2(m, u), Act2(m, v));
    } else {
      BinarySymplectic(f, kind, modes, params);
      BinaryApplies(f, kind, modes, params, p);
      BinaryApplies(f, kind, modes, params, q);
      var m, a, b, c, d := BinaryMatrix(f, kind, params), p.modes[modes[0]], p.modes[modes[1]], q.modes[modes[0]], q.modes[modes[1]];
      PairForm(m, a, b, c, d);
      TwoModesChanged(p.modes, q.modes, modes[0], modes[1], Act4(m, a, b).0, Act4(m, c, d).0, Act4(m, a, b).1, Act4(m, c, d).1);
    }
  }

  // ----- undoing a gate -----

  function UndoPair(m: Mat4, a: Quad, b: Quad): (Quad, Quad) {
    var u := Undo4(m, Vec(a, b));
    (Mode0(u), Mode1(u))
  }

  function UndoGate(f: Functions, kind: Kind, modes: seq<nat>, params: seq<real>, pt: Point): (r: Point)
    ensures |r.modes| == |pt.modes|
  {
    if !Applicable(kind, modes, params, |pt.modes|) then pt
    else if IsUnaryGate(kind) then
      pt.(modes := pt.modes[modes[0] := Undo2(UnaryMatrix(f, kind, params), pt.modes[modes[0]])])
    else if IsBinaryGate(kind) then
      var (a, b) := UndoPair(BinaryMatrix(f, kind, params), pt.modes[modes[0]], pt.modes[modes[1]]);
      pt.(modes := pt.modes[modes[0] := a][modes[1] := b])
    else pt
  }

  lemma {:induction false} UndonePair(m: Mat4, a: Quad, b: Quad)
    requires Preserves4(m)
    ensures UndoPair(m, Act4(m, a, b).0, Act4(m, a, b).1) == (a, b)
  {
    hide Preserves4, Undo4, Apply4;
    var u := Vec(a, b);
    Undone4(m, u);
    assert Vec(Act4(m, a, b).0, Act4(m, a, b).1) == Apply4(m, u);
    assert Mode0(u) == a && Mode1(u) == b;
  }

  lemma {:induction false} GateUndone(f: Functions, kind: Kind, modes: seq<nat>, params: seq<real>, pt: Point)
    requires f.Lawful() && IsMatrixGate(kind) && Constructible(f, kind, modes, params)
    ensures UndoGate(f, kind, modes, params, ApplyGate(f, kind, modes, params, pt)) == pt
  {
    hide f.Lawful, Constructible, UnaryMatrix, BinaryMatrix, Undo2, UndoPair, Act2, Act4, Preserves4, ApplyGate;
    if !Applicable(kind, modes, params, |pt.modes|) {
      NotApplicable(f, kind, modes, params, pt);
    } else if IsUnaryGate(kind) {
      UnarySymplectic(f, kind, modes, params);
      UnaryApplies(f, kind, modes, params, pt);
      Undone2(UnaryMatrix(f, kind, params), pt.modes[modes[0]]);
    } else {
      BinarySymplectic(f, kind, modes, params);
      BinaryApplies(f, kind, modes, params, pt);
      var m, a, b := BinaryMatrix(f, kind, params), pt.modes[modes[0]], pt.modes[modes[1]];
      UndonePair(m, a, b);
      var now := ApplyGate(f, kind, modes, params, pt).modes;
      assert now[modes[0]] == Act4(m, a, b).0 && now[modes[1]] == Act4(m, a, b).1;
      assert now[modes[0] := a][modes[1] := b] == pt.modes;
    }
  }

  // ----- sequences -----

  lemma {:induction false} GateOnPoint(f: Functions, op: Op, pt: Point)
    requires IsGate(f, op)
    ensures OnPoint(f, op, pt) == ApplyGate(f, op.kind, op.modes, op.built, pt)
    ensures Constructible(f, op.kind, op.modes, op.built) && IsMatrixGate(op.kind)
  {
    hide ApplyGate, Constructible;
  }

  /** Any sequence of gates, on any number of modes, preserves the symplectic form. */
  lemma {:induction false} GatesKeepArea(f: Functions, ops: seq<Op>, p: Point, q: Point, i: nat)
    requires f.Lawful() && AllGates(f, ops) && i <= |ops| && |p.modes| == |q.modes|
    ensures TotalArea(PointAt(f, ops, p, i).modes, PointAt(f, ops, q, i).modes) == TotalArea(p.modes, q.modes)
  {
    hide f.Lawful, TotalArea, IsGate, OnPoint;
    if i > 0 {
      GatesKeepArea(f, ops, p, q, i - 1);
      var op, u, v := ops[i - 1], PointAt(f, ops, p, i - 1), PointAt(f, ops, q, i - 1);
      GateOnPoint(f, op, u);
      GateOnPoint(f, op, v);
      GateKeepsArea(f, op.kind, op.modes, op.built, u, v);
    }
  }

  /** Undoes operations i - 1, ..., 0. */
  function UndoAll(f: Functions, ops: seq<Op>, pt: Point, i: nat): Point
    requires i <= |ops|
    decreases i
  {
    if i == 0 then pt
    else UndoAll(f, ops, UndoGate(f, ops[i - 1].kind, ops[i - 1].modes, ops[i - 1].built, pt), i - 1)
  }

  /** Any sequence of gates can be undone. */
  lemma {:induction false} GatesUndone(f: Functions, ops: seq<Op>, pt: Point, i: nat)
    requires f.Lawful() && AllGates(f, ops) && i <= |ops|
    ensures UndoAll(f, ops, PointAt(f, ops, pt, i), i) == pt
  {
    hide f.Lawful, IsGate, OnPoint, UndoGate;
    if i > 0 {
      GatesUndone(f, ops, pt, i - 1);
      var op, u := ops[i - 1], PointAt(f, ops, pt, i - 1);
      GateOnPoint(f, op, u);
      GateUndone(f, op.kind, op.modes, op.built, u);
    }
  }
}
