/** Gate matrices embedded in all modes are invertible. */
module GateMatrices {
  import opened Elementary
  import opened Operations
  import opened Points
  import opened Sums
  import opened Conditioning
  import opened Congruence
  import opened PartialUpdate
  import Symplectic

  function Entries2(m: Mat2): Matrix {
    (a: int, b: int) => if a == 0 then (if b == 0 then m.a else m.b) else if b == 0 then m.c else m.d
  }

  /** Entry b of a row: x0, x1, p0, p1. */
  function At(v: Vec4, b: int): real { if b == 0 then v.x0 else if b == 1 then v.x1 else if b == 2 then v.p0 else v.p1 }

  function RowAt(m: Mat4, a: int): Vec4 { if a == 0 then m.x0 else if a == 1 then m.x1 else if a == 2 then m.p0 else m.p1 }

  function Entries4(m: Mat4): Matrix { (a: int, b: int) => At(RowAt(m, a), b) }

  /** The variables a gate operates on, of n modes: positions first, then momenta. */
  function Indices(kind: Kind, modes: seq<nat>, n: nat): seq<nat>
    requires |modes| == ModeCount(kind)
  {
    if IsBinaryGate(kind) then [modes[0], modes[1], modes[0] + n, modes[1] + n] else [modes[0], modes[0] + n]
  }

  function GateMatrix(f: Functions, kind: Kind, params: seq<real>): Matrix
    requires IsMatrixGate(kind) && ArityOk(kind, |params|)
  {
    if IsUnaryGate(kind) then Entries2(UnaryMatrix(f, kind, params)) else Entries4(BinaryMatrix(f, kind, params))
  }

  lemma {:induction false} IndicesOperate(kind: Kind, modes: seq<nat>, params: seq<real>, n: nat)
    requires Applicable(kind, modes, params, n)
    ensures Operates(Indices(kind, modes, n), 2 * n)
    ensures |Indices(kind, modes, n)| == if IsBinaryGate(kind) then 4 else 2
  {
  }

  // ----- injective transposes -----

  /** The transpose of the r x r matrix m has only zero in its kernel. */
  ghost predicate SmallInjective(m: Matrix, r: nat) {
    forall y: Vector | NonZero(y, r) :: NonZero(Image(Transpose(m), y, r), r)
  }

  /** The operated components of v. */
  function Operand(v: Vector, idx: seq<nat>): Vector { (c: int) => if 0 <= c < |idx| then v(idx[c]) else 0.0 }

  lemma {:induction false} EmbeddedImage(m: Matrix, idx: seq<nat>, v: Vector, n: nat, i: nat)
    requires Operates(idx, n) && i < n
    ensures i !in idx ==> Image(Transpose(Embed(m, idx)), v, n)(i) == v(i)
    ensures i in idx ==> Image(Transpose(Embed(m, idx)), v, n)(i) == Image(Transpose(m), Operand(v, idx), |idx|)(Position(idx, i))
  {
    var t := Transpose(m);
    forall j | 0 <= j < n ensures Transpose(Embed(m, idx))(i, j) == Embed(t, idx)(i, j) {
    }
    RowEq(Transpose(Embed(m, idx)), Embed(t, idx), v, v, n, i);
    hide Row, Embed;
    UpdatedMean(t, idx, v, n, i);
    if i in idx {
      var a := Position(idx, i);
      hide Position;
      SumEq(OperatedTerms(t, idx, a, v), RowTerms(t, Operand(v, idx), a), |idx|);
      RowIs(t, Operand(v, idx), |idx|, a);
    }
  }

  /** The components of v that are not all zero on idx or outside. */
  lemma {:induction false} SomewhereNonZero(idx: seq<nat>, v: Vector, n: nat)
    requires Operates(idx, n) && NonZero(v, n)
    ensures NonZero(Operand(v, idx), |idx|) || exists i: nat :: i < n && i !in idx && v(i) != 0.0
  {
    var i: nat :| i < n && v(i) != 0.0;
    if i in idx {
      assert Operand(v, idx)(Position(idx, i)) == v(i);
    }
  }

  /** A small injective matrix stays injective in any number of modes. */
  lemma {:induction false} EmbeddedInjective(m: Matrix, idx: seq<nat>, n: nat)
    requires Operates(idx, n) && SmallInjective(m, |idx|)
    ensures TransposeInjective(Embed(m, idx), n)
  {
    forall v: Vector | NonZero(v, n) ensures NonZero(Image(Transpose(Embed(m, idx)), v, n), n) {
      SomewhereNonZero(idx, v, n);
      var image := Image(Transpose(Embed(m, idx)), v, n);
      hide Operand, Embed, Image;
      if NonZero(Operand(v, idx), |idx|) {
        var c: nat :| c < |idx| && Image(Transpose(m), Operand(v, idx), |idx|)(c) != 0.0;
        PositionAt(idx, c);
        EmbeddedImage(m, idx, v, n, idx[c]);
        assert image(idx[c]) != 0.0;
      } else {
        var i: nat :| i < n && i !in idx && v(i) != 0.0;
        EmbeddedImage(m, idx, v, n, i);
        assert image(i) != 0.0;
      }
    }
  }

  lemma {:induction false} TwoTerms(f: Vector)
    ensures Sum(f, 2) == f(0) + f(1)
  {
    assert Sum(f, 1) == f(0);
  }

  lemma {:induction false} FourTerms(f: Vector)
    ensures Sum(f, 4) == f(0) + f(1) + f(2) + f(3)
  {
    TwoTerms(f);
    assert Sum(f, 3) == Sum(f, 2) + f(2);
  }

  lemma {:induction false} Image2(m: Mat2, y: Vector)
    ensures Quad(Image(Transpose(Entries2(m)), y, 2)(0), Image(Transpose(Entries2(m)), y, 2)(1)) == Act2(Transpose2(m), Quad(y(0), y(1)))
  {
    TwoTerms(RowTerms(Transpose(Entries2(m)), y, 0));
    TwoTerms(RowTerms(Transpose(Entries2(m)), y, 1));
  }

  lemma {:induction false} Injective2(m: Mat2)
    requires Symplectic.Preserves2(Transpose2(m))
    ensures SmallInjective(Entries2(m), 2)
  {
    var t, zero := Transpose2(m), Quad(0.0, 0.0);
    assert Symplectic.Undo2(t, zero) == zero;
    hide Image, Entries2, Act2, Symplectic.Undo2, Symplectic.Preserves2, Transpose2;
    forall y: Vector | NonZero(y, 2) ensures NonZero(Image(Transpose(Entries2(m)), y, 2), 2) {
      var image, u := Image(Transpose(Entries2(m)), y, 2), Quad(y(0), y(1));
      Image2(m, y);
      Symplectic.Undone2(t, u);
      assert u != zero;
      assert image(0) != 0.0 || image(1) != 0.0;
    }
  }

  lemma {:induction false} SameFactor(x: real, z: real, y: real)
    requires x == z
    ensures x * y == z * y
  {
  }

  lemma {:induction false} ImageEntry4(m: Mat4, y: Vector, b: int, c: Vec4)
    requires c == Vec4(At(m.x0, b), At(m.x1, b), At(m.p0, b), At(m.p1, b))
    ensures Image(Transpose(Entries4(m)), y, 4)(b) == c.x0 * y(0) + c.x1 * y(1) + c.p0 * y(2) + c.p1 * y(3)
  {
    var t := Transpose(Entries4(m));
    var f := RowTerms(t, y, b);
    FourTerms(f);
    assert RowAt(m, 0) == m.x0 && RowAt(m, 1) == m.x1 && RowAt(m, 2) == m.p0 && RowAt(m, 3) == m.p1;
    assert t(b, 0) == c.x0 && t(b, 1) == c.x1 && t(b, 2) == c.p0 && t(b, 3) == c.p1;
    assert f(0) == t(b, 0) * y(0) && f(1) == t(b, 1) * y(1) && f(2) == t(b, 2) * y(2) && f(3) == t(b, 3) * y(3);
    SameFactor(t(b, 0), c.x0, y(0));
    SameFactor(t(b, 1), c.x1, y(1));
    SameFactor(t(b, 2), c.p0, y(2));
    SameFactor(t(b, 3), c.p1, y(3));
    RowIs(t, y, 4, b);
    hide At, Row, Entries4, Sum;
  }

  function FirstFour(y: Vector): Vec4 { Vec4(y(0), y(1), y(2), y(3)) }

  lemma {:induction false} Image4(m: Mat4, y: Vector)
    ensures FirstFour(Image(Transpose(Entries4(m)), y, 4)) == Apply4(Transpose4(m), FirstFour(y))
  {
    var t, u := Transpose4(m), FirstFour(y);
    ImageEntry4(m, y, 0, t.x0);
    ImageEntry4(m, y, 1, t.x1);
    ImageEntry4(m, y, 2, t.p0);
    ImageEntry4(m, y, 3, t.p1);
    hide Image, Entries4, Transpose4;
    Dot4Is(t.x0, y);
    Dot4Is(t.x1, y);
    Dot4Is(t.p0, y);
    Dot4Is(t.p1, y);
    hide Dot4;
  }

  lemma {:induction false} Dot4Is(c: Vec4, y: Vector)
    ensures Dot4(c, FirstFour(y)) == c.x0 * y(0) + c.x1 * y(1) + c.p0 * y(2) + c.p1 * y(3)
  {
    var u := FirstFour(y);
    SameFactor(u.x0, y(0), c.x0);
    SameFactor(u.x1, y(1), c.x1);
    SameFactor(u.p0, y(2), c.p0);
    SameFactor(u.p1, y(3), c.p1);
  }

  lemma {:induction false} Injective4(m: Mat4)
    requires Symplectic.Preserves4(Transpose4(m))
    ensures SmallInjective(Entries4(m), 4)
  {
    var t := Transpose4(m);
    hide Image, Entries4, Apply4, Symplectic.Preserves4, Transpose4;
    forall y: Vector | NonZero(y, 4) ensures NonZero(Image(Transpose(Entries4(m)), y, 4), 4) {
      var image, u := Image(Transpose(Entries4(m)), y, 4), FirstFour(y);
      Image4(m, y);
      if FirstFour(image) == Symplectic.ORIGIN {
        Symplectic.OnlyOrigin(t, u);
      }
      assert image(0) != 0.0 || image(1) != 0.0 || image(2) != 0.0 || image(3) != 0.0;
    }
  }

  /** The matrix of every gate the constructors accept has an injective transpose. */
  lemma {:induction false} GateInjective(f: Functions, kind: Kind, modes: seq<nat>, params: seq<real>, n: nat)
    requires f.Lawful() && IsMatrixGate(kind) && Constructible(f, kind, modes, params) && Applicable(kind, modes, params, n)
    ensures TransposeInjective(Embed(GateMatrix(f, kind, params), Indices(kind, modes, n)), 2 * n)
  {
    IndicesOperate(kind, modes, params, n);
    hide f.Lawful, Constructible, UnaryMatrix, BinaryMatrix, Embed, Entries2, Entries4, SmallInjective, TransposeInjective, Operates, Indices;
    if IsUnaryGate(kind) {
      Symplectic.UnarySymplectic(f, kind, modes, params);
      Injective2(UnaryMatrix(f, kind, params));
    } else {
      Symplectic.BinarySymplectic(f, kind, modes, params);
      Injective4(BinaryMatrix(f, kind, params));
    }
    EmbeddedInjective(GateMatrix(f, kind, params), Indices(kind, modes, n), 2 * n);
  }
}
