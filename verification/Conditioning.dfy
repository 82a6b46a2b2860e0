/** Conditioning a Gaussian on one of its variables: what a homodyne post-selection makes of a covariance. */
module Conditioning {
  import opened Sums

  /** a * b / c, with an irrelevant value where c is zero; a variance never is. */
  function Fraction(a: real, b: real, c: real): real {
    if c == 0.0 then 0.0 else a * b / c
  }

  lemma {:induction false} NoFraction(v: real, c: real)
    ensures Fraction(0.0, v, c) == 0.0 && Fraction(v, 0.0, c) == 0.0
  {
  }

  /** The covariance after post-selecting variable x of a mode whose other variable is p: the Schur
      complement on all other variables, and hbar / 2 for the measured mode, uncorrelated with the rest. */
  function Conditional(cov: Matrix, x: int, p: int): Matrix {
    (i: int, j: int) =>
      if i == x || i == p || j == x || j == p then (if i == j then 0.5 else 0.0)
      else cov(i, j) - Fraction(cov(i, x), cov(j, x), cov(x, x))
  }

  // ----- moving one coordinate of a vector -----

  ghost predicate Shifted(r: Vector, w: Vector, n: nat, x: nat, t: real) {
    forall j | 0 <= j < n :: w(j) == if j == x then r(x) + t else r(j)
  }

  lemma {:induction false} Distribute(a: real, r: real, t: real)
    ensures a * (r + t) == a * r + t * a
  {
  }

  lemma {:induction false} RowShift(a: Matrix, r: Vector, w: Vector, n: nat, i: int, x: nat, t: real)
    requires x < n && Shifted(r, w, n, x, t)
    ensures Row(a, w, n, i) == Row(a, r, n, i) + t * a(i, x)
  {
    var e := t * a(i, x);
    forall j | 0 <= j < n ensures RowTerms(a, w, i)(j) == Added(RowTerms(a, r, i), Spike(x, e))(j) {
      Distribute(a(i, j), r(j), t);
    }
    SumEq(RowTerms(a, w, i), Added(RowTerms(a, r, i), Spike(x, e)), n);
    SumAdded(RowTerms(a, r, i), Spike(x, e), n);
    SumOne(Spike(x, e), n, x);
  }

  lemma {:induction false} ShiftTerm(r: real, row: real, t: real, a: real, w: real, hit: bool, q: real, axx: real, e: real)
    requires w == if hit then r + t else r
    requires hit ==> row == q && a == axx
    requires e == t * (q + t * axx)
    ensures w * (row + t * a) == (r * row + t * (a * r)) + (if hit then e else 0.0)
  {
  }

  /** One term of the form of the moved vector. */
  lemma {:induction false} ShiftAt(a: Matrix, r: Vector, w: Vector, n: nat, x: nat, t: real, e: real, i: nat)
    requires Symmetric(a, n) && x < n && i < n && Shifted(r, w, n, x, t)
    requires e == t * (Row(a, r, n, x) + t * a(x, x))
    ensures FormTerms(a, w, n)(i) == Added(Added(FormTerms(a, r, n), Scaled(t, RowTerms(a, r, x))), Spike(x, e))(i)
  {
    RowShift(a, r, w, n, i, x, t);
    hide Row, Symmetric;
    assert a(i, x) == a(x, i) by { SymmetricAt(a, n, i, x); }
    var ri, row, axi, wi, q, axx := r(i), Row(a, r, n, i), a(x, i), w(i), Row(a, r, n, x), a(x, x);
    ShiftTerm(ri, row, t, axi, wi, i == x, q, axx, e);
  }

  lemma {:induction false} SymmetricAt(a: Matrix, n: nat, i: nat, j: nat)
    requires Symmetric(a, n) && i < n && j < n
    ensures a(i, j) == a(j, i)
  {
  }

  lemma {:induction false} Total(form: real, t: real, q: real, axx: real, e: real)
    requires e == t * (q + t * axx)
    ensures (form + t * q) + e == form + 2.0 * t * q + t * t * axx
  {
  }

  lemma {:induction false} FormIs(a: Matrix, v: Vector, n: nat)
    ensures Form(a, v, n) == Sum(FormTerms(a, v, n), n)
  {
    hide FormTerms, Sum;
  }

  lemma {:induction false} RowIs(a: Matrix, v: Vector, n: nat, i: int)
    ensures Row(a, v, n, i) == Sum(RowTerms(a, v, i), n)
  {
    hide RowTerms, Sum;
  }

  lemma {:induction false} SpikeSum(n: nat, x: nat, e: real)
    requires x < n
    ensures Sum(Spike(x, e), n) == e
  {
    SumOne(Spike(x, e), n, x);
  }

  lemma {:induction false} FormShift(a: Matrix, r: Vector, w: Vector, n: nat, x: nat, t: real)
    requires Symmetric(a, n) && x < n && Shifted(r, w, n, x, t)
    ensures Form(a, w, n) == Form(a, r, n) + 2.0 * t * Row(a, r, n, x) + t * t * a(x, x)
  {
    hide *;
    var q, axx := Row(a, r, n, x), a(x, x);
    var e := t * (q + t * axx);
    var f, g := Added(FormTerms(a, r, n), Scaled(t, RowTerms(a, r, x))), Spike(x, e);
    forall i | 0 <= i < n ensures FormTerms(a, w, n)(i) == Added(f, g)(i) {
      ShiftAt(a, r, w, n, x, t, e, i);
    }
    SumEq(FormTerms(a, w, n), Added(f, g), n);
    SumAdded(f, g, n);
    SpikeSum(n, x, e);
    SumAdded(FormTerms(a, r, n), Scaled(t, RowTerms(a, r, x)), n);
    SumScaled(t, RowTerms(a, r, x), n);
    FormIs(a, r, n);
    FormIs(a, w, n);
    RowIs(a, r, n, x);
    var form := Form(a, r, n);
    Total(form, t, q, axx, e);
  }

  // ----- the conditional covariance -----

  lemma {:induction false} Commute(a: real, b: real)
    ensures a * b == b * a
  {
  }

  lemma {:induction false} ConditionalSymmetric(cov: Matrix, n: nat, x: nat, p: nat)
    requires Symmetric(cov, n)
    ensures Symmetric(Conditional(cov, x, p), n)
  {
    forall i, j | 0 <= i < n && 0 <= j < n ensures Conditional(cov, x, p)(i, j) == Conditional(cov, x, p)(j, i) {
      Commute(cov(i, x), cov(j, x));
    }
  }

  /** v without its components at x and p. */
  function Others(v: Vector, x: int, p: int): Vector {
    (i: int) => if i == x || i == p then 0.0 else v(i)
  }

  lemma {:induction false} MoveQuotient(cix: real, cxj: real, cxx: real, k: real)
    requires cxx != 0.0 && k == cix / cxx
    ensures Fraction(cix, cxj, cxx) == k * cxj
  {
    assert k * cxx == cix;
    assert cix * cxj == (k * cxj) * cxx;
  }

  lemma {:induction false} LastStep(cij: real, k: real, cjx: real, cxj: real, v: real, entry: real, l: real, f: real, g: real)
    requires cjx == cxj && entry == cij - k * cjx && l == entry * v && f == cij * v && g == cxj * v
    ensures l == f + -k * g
  {
  }

  lemma {:induction false} Vanish(v: real, cij: real, k: real, cxj: real, l: real, f: real, g: real)
    requires l == 0.0 * v && f == cij * 0.0 && g == cxj * 0.0
    ensures l == f + -k * g
  {
  }

  lemma {:induction false} RowTermAt(cov: Matrix, n: nat, x: nat, p: nat, v: Vector, i: nat, k: real, j: nat)
    requires Symmetric(cov, n) && x < n && i < n && j < n && cov(x, x) != 0.0 && k == cov(i, x) / cov(x, x) && i != x && i != p
    ensures var r := Others(v, x, p);
      RowTerms(Conditional(cov, x, p), v, i)(j) == Added(RowTerms(cov, r, i), Scaled(-k, RowTerms(cov, r, x)))(j)
  {
    SymmetricAt(cov, n, j, x);
    hide Symmetric;
    var r := Others(v, x, p);
    var cij, cix, cjx, cxj, cxx, vj := cov(i, j), cov(i, x), cov(j, x), cov(x, j), cov(x, x), v(j);
    var l, f, g := RowTerms(Conditional(cov, x, p), v, i)(j), RowTerms(cov, r, i)(j), RowTerms(cov, r, x)(j);
    if j == x || j == p {
      Vanish(vj, cij, k, cxj, l, f, g);
    } else {
      MoveQuotient(cix, cjx, cxx, k);
      var entry := Conditional(cov, x, p)(i, j);
      LastStep(cij, k, cjx, cxj, vj, entry, l, f, g);
    }
  }

  /** A row of the conditional covariance. */
  lemma {:induction false} ConditionalRow(cov: Matrix, n: nat, x: nat, p: nat, v: Vector, i: nat)
    requires Symmetric(cov, n) && x < n && p < n && i < n && cov(x, x) != 0.0
    ensures var r := Others(v, x, p);
      Row(Conditional(cov, x, p), v, n, i)
      == if i == x || i == p then 0.5 * v(i) else Row(cov, r, n, i) - (cov(i, x) / cov(x, x)) * Row(cov, r, n, x)
  {
    var c, r := Conditional(cov, x, p), Others(v, x, p);
    if i == x || i == p {
      SumOne(RowTerms(c, v, i), n, i);
    } else {
      hide *;
      var k := cov(i, x) / cov(x, x);
      var f, g := RowTerms(cov, r, i), Scaled(-k, RowTerms(cov, r, x));
      forall j | 0 <= j < n ensures RowTerms(c, v, i)(j) == Added(f, g)(j) {
        RowTermAt(cov, n, x, p, v, i, k, j);
      }
      SumEq(RowTerms(c, v, i), Added(f, g), n);
      SumAdded(f, g, n);
      SumScaled(-k, RowTerms(cov, r, x), n);
      RowIs(c, v, n, i);
      RowIs(cov, r, n, i);
      RowIs(cov, r, n, x);
    }
  }

  lemma {:induction false} Ratio(b: real, s: real, q: real, t: real)
    requires s > 0.0 && t == -(q / s)
    ensures (b / s) * q == -(t * b)
  {
    var bs, qs := b / s, q / s;
    assert bs * s == b && qs * s == q;
    assert bs * (qs * s) == qs * (bs * s);
  }

  lemma {:induction false} CompleteSquare(form: real, t: real, q: real, s: real)
    requires s > 0.0 && t == -(q / s)
    ensures form + 2.0 * t * q + t * t * s == form + t * q
  {
    assert t * s == -q;
    assert t * (t * s) == t * -q;
  }

  lemma {:induction false} Expand(v: real, row: real, t: real, b: real, crow: real)
    requires crow == row + t * b
    ensures v * crow == v * row + t * (b * v)
  {
  }

  /** Half the squares of the components at x and p. */
  function Squares(v: Vector, x: int, p: int): Vector {
    (i: int) => if i == x || i == p then 0.5 * (v(i) * v(i)) else 0.0
  }

  lemma {:induction false} FormTermAt(cov: Matrix, n: nat, x: nat, p: nat, v: Vector, t: real, i: nat)
    requires Symmetric(cov, n) && x < n && p < n && x != p && i < n && cov(x, x) > 0.0
    requires t == -(Row(cov, Others(v, x, p), n, x) / cov(x, x))
    ensures var r := Others(v, x, p);
      FormTerms(Conditional(cov, x, p), v, n)(i)
      == Added(Added(FormTerms(cov, r, n), Scaled(t, RowTerms(cov, r, x))), Squares(v, x, p))(i)
  {
    ConditionalRow(cov, n, x, p, v, i);
    SymmetricAt(cov, n, i, x);
    hide Row, Symmetric, Conditional;
    var r := Others(v, x, p);
    if i == x || i == p {
      Commute(v(i), 0.5);
    } else {
      var vi, row, b, s, q, crow := v(i), Row(cov, r, n, i), cov(x, i), cov(x, x), Row(cov, r, n, x), Row(Conditional(cov, x, p), v, n, i);
      Ratio(b, s, q, t);
      Expand(vi, row, t, b, crow);
    }
  }

  /** The quadratic form of the conditional covariance: a form of the original one, plus squares. */
  lemma {:induction false} ConditionalForm(cov: Matrix, n: nat, x: nat, p: nat, v: Vector, w: Vector, t: real)
    requires Symmetric(cov, n) && x < n && p < n && x != p && cov(x, x) > 0.0
    requires t == -(Row(cov, Others(v, x, p), n, x) / cov(x, x)) && Shifted(Others(v, x, p), w, n, x, t)
    ensures Form(Conditional(cov, x, p), v, n) == Form(cov, w, n) + Sum(Squares(v, x, p), n)
  {
    hide *;
    var c, r, s := Conditional(cov, x, p), Others(v, x, p), cov(x, x);
    var q := Row(cov, r, n, x);
    var f, g := Added(FormTerms(cov, r, n), Scaled(t, RowTerms(cov, r, x))), Squares(v, x, p);
    FormShift(cov, r, w, n, x, t);
    forall i | 0 <= i < n ensures FormTerms(c, v, n)(i) == Added(f, g)(i) {
      FormTermAt(cov, n, x, p, v, t, i);
    }
    SumEq(FormTerms(c, v, n), Added(f, g), n);
    SumAdded(f, g, n);
    SumAdded(FormTerms(cov, r, n), Scaled(t, RowTerms(cov, r, x)), n);
    SumScaled(t, RowTerms(cov, r, x), n);
    FormIs(c, v, n);
    FormIs(cov, r, n);
    RowIs(cov, r, n, x);
    var form := Form(cov, r, n);
    CompleteSquare(form, t, q, s);
  }

  lemma {:induction false} PositiveProduct(a: real, b: real)
    requires a > 0.0 && b > 0.0
    ensures a * b > 0.0
  {
  }

  lemma {:induction false} Square(a: real, s: real)
    requires s == 0.5 * (a * a)
    ensures s >= 0.0 && (a != 0.0 ==> s > 0.0)
  {
    if a != 0.0 {
      var b := if a > 0.0 then a else -a;
      var h := 0.5 * b;
      PositiveProduct(h, b);
      assert s == h * b;
    }
  }

  lemma {:induction false} SquaresNonNegative(v: Vector, n: nat, x: nat, p: nat)
    ensures Sum(Squares(v, x, p), n) >= 0.0
    ensures (exists i :: 0 <= i < n && (i == x || i == p) && v(i) != 0.0) ==> Sum(Squares(v, x, p), n) > 0.0
  {
    forall i | 0 <= i < n
      ensures Squares(v, x, p)(i) >= 0.0
      ensures (i == x || i == p) && v(i) != 0.0 ==> Squares(v, x, p)(i) > 0.0
    {
      var a, s := v(i), Squares(v, x, p)(i);
      if i == x || i == p {
        Square(a, s);
      }
    }
    SumNonNegative(Squares(v, x, p), n);
  }

  lemma {:induction false} ConditionalFormPositive(cov: Matrix, n: nat, x: nat, p: nat, v: Vector)
    requires Symmetric(cov, n) && PositiveDefinite(cov, n) && x < n && p < n && x != p && NonZero(v, n) && cov(x, x) > 0.0
    ensures Form(Conditional(cov, x, p), v, n) > 0.0
  {
    var r := Others(v, x, p);
    var t := -(Row(cov, r, n, x) / cov(x, x));
    var w := (i: int) => if i == x then t else r(i);
    hide Form, Row, Conditional, Squares, Sum;
    ConditionalForm(cov, n, x, p, v, w, t);
    SquaresNonNegative(v, n, x, p);
    if NonZero(w, n) {
      assert Form(cov, w, n) > 0.0;
    } else {
      FormZero(cov, w, n);
      var i :| 0 <= i < n && v(i) != 0.0;
      assert w(i) == 0.0;
    }
  }

  /** Post-selection keeps a covariance symmetric and positive definite. */
  lemma {:induction false} ConditionalPositive(cov: Matrix, n: nat, x: nat, p: nat)
    requires Symmetric(cov, n) && PositiveDefinite(cov, n) && x < n && p < n && x != p
    ensures Symmetric(Conditional(cov, x, p), n) && PositiveDefinite(Conditional(cov, x, p), n)
  {
    ConditionalSymmetric(cov, n, x, p);
    DiagonalPositive(cov, n, x);
    hide Form, Conditional, Symmetric;
    forall v: Vector | NonZero(v, n) ensures Form(Conditional(cov, x, p), v, n) > 0.0 {
      ConditionalFormPositive(cov, n, x, p, v);
    }
  }
}
