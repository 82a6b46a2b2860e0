/** Finite sums, and the matrices and quadratic forms made of them. */
module Sums {

  type Vector = int -> real
  type Matrix = (int, int) -> real

  function Sum(f: Vector, n: nat): real {
    if n == 0 then 0.0 else Sum(f, n - 1) + f(n - 1)
  }

  function Added(f: Vector, g: Vector): Vector { (k: int) => f(k) + g(k) }

  function Scaled(c: real, f: Vector): Vector { (k: int) => c * f(k) }

  /** e at m, zero elsewhere. */
  function Spike(m: int, e: real): Vector { (k: int) => if k == m then e else 0.0 }

  lemma {:induction false} SumEq(f: Vector, g: Vector, n: nat)
    requires forall k | 0 <= k < n :: f(k) == g(k)
    ensures Sum(f, n) == Sum(g, n)
  {
    if n > 0 {
      SumEq(f, g, n - 1);
    }
  }

  lemma {:induction false} SumAdded(f: Vector, g: Vector, n: nat)
    ensures Sum(Added(f, g), n) == Sum(f, n) + Sum(g, n)
  {
    if n > 0 {
      SumAdded(f, g, n - 1);
    }
  }

  lemma {:induction false} SumScaled(c: real, f: Vector, n: nat)
    ensures Sum(Scaled(c, f), n) == c * Sum(f, n)
  {
    if n > 0 {
      SumScaled(c, f, n - 1);
    }
  }

  lemma {:induction false} SumZero(f: Vector, n: nat)
    requires forall k | 0 <= k < n :: f(k) == 0.0
    ensures Sum(f, n) == 0.0
  {
    if n > 0 {
      SumZero(f, n - 1);
    }
  }

  /** A sum with a single nonzero term. */
  lemma {:induction false} SumOne(f: Vector, n: nat, m: nat)
    requires m < n && forall k | 0 <= k < n && k != m :: f(k) == 0.0
    ensures Sum(f, n) == f(m)
  {
    if m < n - 1 {
      SumOne(f, n - 1, m);
    } else {
      SumZero(f, n - 1);
    }
  }

  lemma {:induction false} SumNonNegative(f: Vector, n: nat)
    requires forall k | 0 <= k < n :: f(k) >= 0.0
    ensures Sum(f, n) >= 0.0
    ensures (exists k :: 0 <= k < n && f(k) > 0.0) ==> Sum(f, n) > 0.0
  {
    if n > 0 {
      SumNonNegative(f, n - 1);
    }
  }

  /** Entries of a row, and of a column, as vectors. */
  function RowOf(a: Matrix, i: int): Vector { (j: int) => a(i, j) }

  function ColumnOf(a: Matrix, j: int): Vector { (i: int) => a(i, j) }

  function RowSums(a: Matrix, n: nat): Vector { (i: int) => Sum(RowOf(a, i), n) }

  function ColumnSums(a: Matrix, m: nat): Vector { (j: int) => Sum(ColumnOf(a, j), m) }

  /** Exchanging the order of two sums. */
  lemma {:induction false} SumSwap(a: Matrix, m: nat, n: nat)
    ensures Sum(RowSums(a, n), m) == Sum(ColumnSums(a, m), n)
  {
    if m == 0 {
      SumZero(ColumnSums(a, 0), n);
    } else {
      SumSwap(a, m - 1, n);
      SumAdded(ColumnSums(a, m - 1), RowOf(a, m - 1), n);
      SumEq(ColumnSums(a, m), Added(ColumnSums(a, m - 1), RowOf(a, m - 1)), n);
    }
  }

  // ----- quadratic forms -----

  /** The terms of row i of a times v. */
  function RowTerms(a: Matrix, v: Vector, i: int): Vector { (j: int) => a(i, j) * v(j) }

  function Row(a: Matrix, v: Vector, n: nat, i: int): real {
    Sum(RowTerms(a, v, i), n)
  }

  function FormTerms(a: Matrix, v: Vector, n: nat): Vector { (i: int) => v(i) * Row(a, v, n, i) }

  function Form(a: Matrix, v: Vector, n: nat): real {
    Sum(FormTerms(a, v, n), n)
  }

  ghost predicate NonZero(v: Vector, n: nat) {
    exists i :: 0 <= i < n && v(i) != 0.0
  }

  ghost predicate Symmetric(a: Matrix, n: nat) {
    forall i, j | 0 <= i < n && 0 <= j < n :: a(i, j) == a(j, i)
  }

  ghost predicate PositiveDefinite(a: Matrix, n: nat) {
    forall v: Vector | NonZero(v, n) :: Form(a, v, n) > 0.0
  }

  ghost predicate SameMatrix(a: Matrix, b: Matrix, n: nat) {
    forall i, j | 0 <= i < n && 0 <= j < n :: a(i, j) == b(i, j)
  }

  lemma {:induction false} RowEq(a: Matrix, b: Matrix, v: Vector, w: Vector, n: nat, i: int)
    requires forall j | 0 <= j < n :: a(i, j) == b(i, j) && v(j) == w(j)
    ensures Row(a, v, n, i) == Row(b, w, n, i)
  {
    SumEq(RowTerms(a, v, i), RowTerms(b, w, i), n);
  }

  lemma {:induction false} FormEq(a: Matrix, b: Matrix, v: Vector, w: Vector, n: nat)
    requires SameMatrix(a, b, n) && forall i | 0 <= i < n :: v(i) == w(i)
    ensures Form(a, v, n) == Form(b, w, n)
  {
    hide Row;
    forall i | 0 <= i < n ensures FormTerms(a, v, n)(i) == FormTerms(b, w, n)(i) {
      RowEq(a, b, v, w, n, i);
    }
    SumEq(FormTerms(a, v, n), FormTerms(b, w, n), n);
  }

  lemma {:induction false} FormZero(a: Matrix, v: Vector, n: nat)
    requires !NonZero(v, n)
    ensures Form(a, v, n) == 0.0
  {
    hide Row;
    forall i | 0 <= i < n ensures FormTerms(a, v, n)(i) == 0.0 {
      assert v(i) == 0.0;
    }
    SumZero(FormTerms(a, v, n), n);
  }

  /** The diagonal of a positive definite matrix is positive. */
  lemma {:induction false} DiagonalPositive(a: Matrix, n: nat, m: nat)
    requires PositiveDefinite(a, n) && m < n
    ensures a(m, m) > 0.0
  {
    var e := Spike(m, 1.0);
    assert e(m) != 0.0;
    assert NonZero(e, n) && Form(a, e, n) > 0.0;
    SumOne(FormTerms(a, e, n), n, m);
    SumOne(RowTerms(a, e, m), n, m);
  }
}
