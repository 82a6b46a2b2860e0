/** Linear maps on covariances: a gate replaces cov by S * cov * S^T, with S the gate's matrix embedded in
    the identity. */
module Congruence {
  import opened Sums
  import opened Conditioning

  // ----- matrix products -----

  /** The j-th column of b through a. */
  function Image(a: Matrix, v: Vector, n: nat): Vector { (i: int) => Row(a, v, n, i) }

  function Product(a: Matrix, b: Matrix, n: nat): Matrix { (i: int, j: int) => Row(a, ColumnOf(b, j), n, i) }

  function Transpose(a: Matrix): Matrix { (i: int, j: int) => a(j, i) }

  /** S * cov * S^T */
  function Transformed(s: Matrix, cov: Matrix, n: nat): Matrix {
    Product(s, Product(cov, Transpose(s), n), n)
  }

  /** The terms a(i, k) * b(k, j) * v(j) of row i of a * b * v. */
  function TripleTerms(a: Matrix, b: Matrix, v: Vector, i: int): Matrix { (k: int, j: int) => a(i, k) * (b(k, j) * v(j)) }

  lemma {:induction false} TripleRow(a: Matrix, b: Matrix, v: Vector, n: nat, i: int, k: nat)
    ensures RowSums(TripleTerms(a, b, v, i), n)(k) == RowTerms(a, Image(b, v, n), i)(k)
  {
    SumEq(RowOf(TripleTerms(a, b, v, i), k), Scaled(a(i, k), RowTerms(b, v, k)), n);
    SumScaled(a(i, k), RowTerms(b, v, k), n);
  }

  lemma {:induction false} Regroup(x: real, y: real, z: real)
    ensures x * (y * z) == z * (x * y)
  {
  }

  lemma {:induction false} TripleColumn(a: Matrix, b: Matrix, v: Vector, n: nat, i: int, j: nat)
    ensures ColumnSums(TripleTerms(a, b, v, i), n)(j) == RowTerms(Product(a, b, n), v, i)(j)
  {
    var f, g := ColumnOf(TripleTerms(a, b, v, i), j), Scaled(v(j), RowTerms(a, ColumnOf(b, j), i));
    forall k | 0 <= k < n ensures f(k) == g(k) {
      Regroup(a(i, k), b(k, j), v(j));
    }
    SumEq(f, g, n);
    SumScaled(v(j), RowTerms(a, ColumnOf(b, j), i), n);
    Commute(v(j), Row(a, ColumnOf(b, j), n, i));
  }

  /** (a * b) * v == a * (b * v) */
  lemma {:induction false} ProductImage(a: Matrix, b: Matrix, v: Vector, n: nat, i: int)
    ensures Row(Product(a, b, n), v, n, i) == Row(a, Image(b, v, n), n, i)
  {
    hide *;
    var t := TripleTerms(a, b, v, i);
    SumSwap(t, n, n);
    forall k: nat | k < n ensures RowSums(t, n)(k) == RowTerms(a, Image(b, v, n), i)(k) {
      TripleRow(a, b, v, n, i, k);
    }
    SumEq(RowSums(t, n), RowTerms(a, Image(b, v, n), i), n);
    forall j: nat | j < n ensures ColumnSums(t, n)(j) == RowTerms(Product(a, b, n), v, i)(j) {
      TripleColumn(a, b, v, n, i, j);
    }
    SumEq(ColumnSums(t, n), RowTerms(Product(a, b, n), v, i), n);
    RowIs(a, Image(b, v, n), n, i);
    RowIs(Product(a, b, n), v, n, i);
  }

  /** Pointwise products. */
  function Times(u: Vector, v: Vector): Vector { (k: int) => u(k) * v(k) }

  function PairTerms(a: Matrix, u: Vector, v: Vector): Matrix { (i: int, k: int) => u(i) * (a(i, k) * v(k)) }

  lemma {:induction false} PairRow(a: Matrix, u: Vector, v: Vector, n: nat, i: nat)
    ensures RowSums(PairTerms(a, u, v), n)(i) == Times(u, Image(a, v, n))(i)
  {
    SumEq(RowOf(PairTerms(a, u, v), i), Scaled(u(i), RowTerms(a, v, i)), n);
    SumScaled(u(i), RowTerms(a, v, i), n);
  }

  lemma {:induction false} PairColumn(a: Matrix, u: Vector, v: Vector, n: nat, k: nat)
    ensures ColumnSums(PairTerms(a, u, v), n)(k) == Times(Image(Transpose(a), u, n), v)(k)
  {
    var f, g := ColumnOf(PairTerms(a, u, v), k), Scaled(v(k), RowTerms(Transpose(a), u, k));
    forall i | 0 <= i < n ensures f(i) == g(i) {
      Rotate(u(i), a(i, k), v(k));
    }
    SumEq(f, g, n);
    SumScaled(v(k), RowTerms(Transpose(a), u, k), n);
    Commute(v(k), Row(Transpose(a), u, n, k));
  }

  lemma {:induction false} Rotate(x: real, y: real, z: real)
    ensures x * (y * z) == z * (y * x)
  {
  }

  /** u . (a * v) == (a^T * u) . v */
  lemma {:induction false} Adjoint(a: Matrix, u: Vector, v: Vector, n: nat)
    ensures Sum(Times(u, Image(a, v, n)), n) == Sum(Times(Image(Transpose(a), u, n), v), n)
  {
    hide *;
    var t := PairTerms(a, u, v);
    SumSwap(t, n, n);
    forall i: nat | i < n ensures RowSums(t, n)(i) == Times(u, Image(a, v, n))(i) {
      PairRow(a, u, v, n, i);
    }
    SumEq(RowSums(t, n), Times(u, Image(a, v, n)), n);
    forall k: nat | k < n ensures ColumnSums(t, n)(k) == Times(Image(Transpose(a), u, n), v)(k) {
      PairColumn(a, u, v, n, k);
    }
    SumEq(ColumnSums(t, n), Times(Image(Transpose(a), u, n), v), n);
  }

  lemma {:induction false} RowSame(a: Matrix, u: Vector, v: Vector, n: nat, i: int)
    requires forall k | 0 <= k < n :: u(k) == v(k)
    ensures Row(a, u, n, i) == Row(a, v, n, i)
  {
    RowEq(a, a, u, v, n, i);
  }

  lemma {:induction false} FormAsTimes(a: Matrix, v: Vector, n: nat)
    ensures Form(a, v, n) == Sum(Times(v, Image(a, v, n)), n)
  {
    SumEq(FormTerms(a, v, n), Times(v, Image(a, v, n)), n);
  }

  lemma {:induction false} TransformedRow(s: Matrix, cov: Matrix, v: Vector, n: nat, i: int)
    ensures var y := Image(Transpose(s), v, n);
      Row(Transformed(s, cov, n), v, n, i) == Row(s, Image(cov, y, n), n, i)
  {
    var y := Image(Transpose(s), v, n);
    var inner := Product(cov, Transpose(s), n);
    ProductImage(s, inner, v, n, i);
    forall k | 0 <= k < n ensures Image(inner, v, n)(k) == Image(cov, y, n)(k) {
      ProductImage(cov, Transpose(s), v, n, k);
    }
    hide Row, Product;
    RowSame(s, Image(inner, v, n), Image(cov, y, n), n, i);
  }

  /** The form of S * cov * S^T at v is the form of cov at S^T * v. */
  lemma {:induction false} TransformedForm(s: Matrix, cov: Matrix, v: Vector, n: nat)
    ensures Form(Transformed(s, cov, n), v, n) == Form(cov, Image(Transpose(s), v, n), n)
  {
    var c, y := Transformed(s, cov, n), Image(Transpose(s), v, n);
    var z := Image(cov, y, n);
    FormAsTimes(c, v, n);
    FormAsTimes(cov, y, n);
    Adjoint(s, v, z, n);
    hide Sum, Transformed, Row, Form;
    forall i | 0 <= i < n ensures Times(v, Image(c, v, n))(i) == Times(v, Image(s, z, n))(i) {
      TransformedRow(s, cov, v, n, i);
    }
    SumEq(Times(v, Image(c, v, n)), Times(v, Image(s, z, n)), n);
  }

  /** S^T has only zero in its kernel. */
  ghost predicate TransposeInjective(s: Matrix, n: nat) {
    forall v: Vector | NonZero(v, n) :: NonZero(Image(Transpose(s), v, n), n)
  }

  lemma {:induction false} TransformedPositive(s: Matrix, cov: Matrix, n: nat)
    requires PositiveDefinite(cov, n) && TransposeInjective(s, n)
    ensures PositiveDefinite(Transformed(s, cov, n), n)
  {
    hide Form, Transformed, Image, NonZero;
    forall v: Vector | NonZero(v, n) ensures Form(Transformed(s, cov, n), v, n) > 0.0 {
      TransformedForm(s, cov, v, n);
    }
  }

  lemma {:induction false} TransformedEntry(s: Matrix, cov: Matrix, n: nat, i: int, j: int)
    ensures Transformed(s, cov, n)(i, j) == Sum(Times(RowOf(s, i), Image(cov, RowOf(s, j), n)), n)
  {
    var inner := Product(cov, Transpose(s), n);
    var f, g := RowTerms(s, ColumnOf(inner, j), i), Times(RowOf(s, i), Image(cov, RowOf(s, j), n));
    forall k | 0 <= k < n ensures f(k) == g(k) {
      RowSame(cov, ColumnOf(Transpose(s), j), RowOf(s, j), n, k);
    }
    SumEq(f, g, n);
  }

  lemma {:induction false} TransformedSymmetric(s: Matrix, cov: Matrix, n: nat)
    requires Symmetric(cov, n)
    ensures Symmetric(Transformed(s, cov, n), n)
  {
    forall i, j | 0 <= i < n && 0 <= j < n ensures Transformed(s, cov, n)(i, j) == Transformed(s, cov, n)(j, i) {
      var u, v := RowOf(s, i), RowOf(s, j);
      TransformedEntry(s, cov, n, i, j);
      TransformedEntry(s, cov, n, j, i);
      Adjoint(cov, u, v, n);
      var f, g := Times(Image(Transpose(cov), u, n), v), Times(v, Image(cov, u, n));
      forall k | 0 <= k < n ensures f(k) == g(k) {
        RowEq(Transpose(cov), cov, u, u, n, k);
        Commute(Row(cov, u, n, k), v(k));
      }
      SumEq(f, g, n);
    }
  }
}
