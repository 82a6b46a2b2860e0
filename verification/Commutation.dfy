/** Homodyne post-selections on two modes can be made in either order. */
module Commutation {
  import opened Sums
  import opened Conditioning
  import opened PostSelection

  /** What two successive post-selections subtract from an entry (i, j): pi, pj are its covariances with
      the variable measured first, whose variance is a, and qi, qj those with the second one. */
  function Subtracted(a: real, b: real, c: real, pi: real, pj: real, qi: real, qj: real): real {
    Fraction(pi, pj, a) + Fraction(qi - Fraction(pi, b, a), qj - Fraction(pj, b, a), c - Fraction(b, b, a))
  }

  lemma {:induction false} Polynomial(a: real, c: real, kb: real, ki: real, kj: real, qi: real, qj: real)
    ensures (ki * (kj * a)) * (a * (c - kb * (kb * a))) + a * ((qi - ki * (kb * a)) * (qj - kj * (kb * a)))
            == c * ((ki * a) * (kj * a)) - (kb * a) * ((ki * a) * qj + qi * (kj * a)) + a * (qi * qj)
  {
  }

  lemma {:induction false} Divided(u: real, v: real, a: real, k: real)
    requires a != 0.0 && k == u / a
    ensures k * a == u && Fraction(u, v, a) == k * v
  {
    assert (k * v) * a == (k * a) * v;
    assert u * v / a == k * v;
  }

  lemma {:induction false} Scale(x: real, y: real, g: real, z: real, d: real, a: real)
    requires z != 0.0 && g == x * y / z && d == a * z
    ensures g * d == a * (x * y)
  {
    assert g * z == x * y;
    assert g * (a * z) == a * (g * z);
  }

  lemma {:induction false} SubtractedScaled(a: real, b: real, c: real, pi: real, pj: real, qi: real, qj: real, d: real)
    requires a != 0.0 && c - Fraction(b, b, a) != 0.0 && d == a * (c - Fraction(b, b, a))
    ensures Subtracted(a, b, c, pi, pj, qi, qj) * d == c * (pi * pj) - b * (pi * qj + qi * pj) + a * (qi * qj)
    ensures d == a * c - b * b
  {
    var kb, ki, kj := b / a, pi / a, pj / a;
    Divided(b, b, a, kb);
    Divided(pi, pj, a, ki);
    Divided(pi, b, a, ki);
    Divided(pj, b, a, kj);
    var c1, x, y := c - kb * b, qi - ki * b, qj - kj * b;
    var g := Fraction(x, y, c1);
    Scale(x, y, g, c1, d, a);
    Expanded(a, b, c, kb, ki, kj, pi, pj, qi, qj, c1, x, y, g, d);
  }

  lemma {:induction false} Expanded(a: real, b: real, c: real, kb: real, ki: real, kj: real, pi: real, pj: real, qi: real, qj: real,
                                    c1: real, x: real, y: real, g: real, d: real)
    requires kb * a == b && ki * a == pi && kj * a == pj
    requires c1 == c - kb * b && x == qi - ki * b && y == qj - kj * b && d == a * c1 && g * d == a * (x * y)
    ensures (ki * pj + g) * d == c * (pi * pj) - b * (pi * qj + qi * pj) + a * (qi * qj)
    ensures d == a * c - b * b
  {
    Polynomial(a, c, kb, ki, kj, qi, qj);
    assert (ki * pj + g) * d == (ki * pj) * d + g * d;
    assert a * (kb * b) == (kb * a) * b;
  }

  lemma {:induction false} Cancel(x: real, y: real, d: real)
    requires d != 0.0 && x * d == y * d
    ensures x == y
  {
    assert (x - y) * d == 0.0;
  }

  lemma {:induction false} EitherOrder(a: real, b: real, c: real, pi: real, pj: real, qi: real, qj: real)
    requires a != 0.0 && c != 0.0 && c - Fraction(b, b, a) != 0.0 && a - Fraction(b, b, c) != 0.0
    ensures Subtracted(a, b, c, pi, pj, qi, qj) == Subtracted(c, b, a, qi, qj, pi, pj)
  {
    var d, e := a * (c - Fraction(b, b, a)), c * (a - Fraction(b, b, c));
    SubtractedScaled(a, b, c, pi, pj, qi, qj, d);
    SubtractedScaled(c, b, a, qi, qj, pi, pj, e);
    hide *;
    Symmetrical(a, b, c, pi, pj, qi, qj);
    assert d == e by { Commute(a, c); }
    Product(a, c - Fraction(b, b, a), d);
    Cancel(Subtracted(a, b, c, pi, pj, qi, qj), Subtracted(c, b, a, qi, qj, pi, pj), d);
  }

  lemma {:induction false} Product(x: real, y: real, d: real)
    requires x != 0.0 && y != 0.0 && d == x * y
    ensures d != 0.0
  {
  }

  lemma {:induction false} Symmetrical(a: real, b: real, c: real, pi: real, pj: real, qi: real, qj: real)
    ensures c * (pi * pj) - b * (pi * qj + qi * pj) + a * (qi * qj) == a * (qi * qj) - b * (qi * pj + pi * qj) + c * (pi * pj)
  {
  }

  /** The variances the two post-selections divide by. */
  ghost predicate Divisors(cov: Matrix, x1: int, x2: int) {
    var a, b, c := cov(x1, x1), cov(x2, x1), cov(x2, x2);
    a != 0.0 && c != 0.0 && c - Fraction(b, b, a) != 0.0 && a - Fraction(b, b, c) != 0.0 && b == cov(x1, x2)
  }

  ghost predicate TwoModes(n: nat, x1: nat, p1: nat, x2: nat, p2: nat) {
    x1 < n && p1 < n && x2 < n && p2 < n && x1 != p1 && x2 != p2 && x1 != x2 && x1 != p2 && p1 != x2 && p1 != p2
  }

  lemma {:induction false} DivisorsNonzero(cov: Matrix, n: nat, x1: nat, p1: nat, x2: nat, p2: nat)
    requires Symmetric(cov, n) && PositiveDefinite(cov, n) && TwoModes(n, x1, p1, x2, p2)
    ensures Divisors(cov, x1, x2)
  {
    ConditionalPositive(cov, n, x1, p1);
    ConditionalPositive(cov, n, x2, p2);
    hide PositiveDefinite;
    DiagonalPositive(cov, n, x1);
    DiagonalPositive(cov, n, x2);
    DiagonalPositive(Conditional(cov, x1, p1), n, x2);
    DiagonalPositive(Conditional(cov, x2, p2), n, x1);
  }

  lemma {:induction false} TwiceEntry(cov: Matrix, n: nat, x1: nat, p1: nat, x2: nat, p2: nat, i: nat, j: nat)
    requires Symmetric(cov, n) && TwoModes(n, x1, p1, x2, p2) && i < n && j < n
    ensures Conditional(Conditional(cov, x1, p1), x2, p2)(i, j)
            == if i == x1 || i == p1 || i == x2 || i == p2 || j == x1 || j == p1 || j == x2 || j == p2
               then (if i == j then 0.5 else 0.0)
               else cov(i, j) - Subtracted(cov(x1, x1), cov(x2, x1), cov(x2, x2), cov(i, x1), cov(j, x1), cov(i, x2), cov(j, x2))
  {
    SymmetricAt(cov, n, x1, x2);
    hide Symmetric;
    assert Fraction(0.0, cov(j, x2), cov(x2, x2)) == 0.0;
    var c := Conditional(cov, x1, p1);
    if i == x1 || i == p1 {
      assert c(i, x2) == 0.0;
      NoFraction(c(j, x2), c(x2, x2));
    } else if j == x1 || j == p1 {
      assert c(j, x2) == 0.0;
      NoFraction(c(i, x2), c(x2, x2));
    }
  }

  lemma {:induction false} EntriesCommute(cov: Matrix, n: nat, x1: nat, p1: nat, x2: nat, p2: nat, i: nat, j: nat)
    requires Symmetric(cov, n) && TwoModes(n, x1, p1, x2, p2) && i < n && j < n && Divisors(cov, x1, x2)
    ensures Conditional(Conditional(cov, x1, p1), x2, p2)(i, j) == Conditional(Conditional(cov, x2, p2), x1, p1)(i, j)
  {
    TwiceEntry(cov, n, x1, p1, x2, p2, i, j);
    TwiceEntry(cov, n, x2, p2, x1, p1, i, j);
    EitherOrder(cov(x1, x1), cov(x2, x1), cov(x2, x2), cov(i, x1), cov(j, x1), cov(i, x2), cov(j, x2));
    hide Conditional, Subtracted, Symmetric;
  }

  lemma {:induction false} FractionCommutes(u: real, v: real, c: real)
    ensures Fraction(u, v, c) == Fraction(v, u, c)
  {
    Commute(u, v);
  }

  lemma {:induction false} TwiceMean(cov: Matrix, mean: Vector, n: nat, x1: nat, p1: nat, u1: real, x2: nat, p2: nat, u2: real, i: nat)
    requires Symmetric(cov, n) && TwoModes(n, x1, p1, x2, p2) && i < n
    ensures ConditionalMean(Conditional(cov, x1, p1), ConditionalMean(cov, mean, x1, p1, u1), x2, p2, u2)(i)
            == if i == x1 || i == p1 || i == x2 || i == p2 then 0.0
               else mean(i) + Subtracted(cov(x1, x1), cov(x2, x1), cov(x2, x2), cov(i, x1), u1 - mean(x1), cov(i, x2), u2 - mean(x2))
  {
    SymmetricAt(cov, n, x1, x2);
    hide Symmetric;
    var c, m := Conditional(cov, x1, p1), ConditionalMean(cov, mean, x1, p1, u1);
    var e1, e2, a, b := u1 - mean(x1), u2 - mean(x2), cov(x1, x1), cov(x2, x1);
    if i == x1 || i == p1 {
      assert c(i, x2) == 0.0;
      NoFraction(u2 - m(x2), c(x2, x2));
    } else if i != x2 && i != p2 {
      FractionCommutes(e1, cov(i, x1), a);
      FractionCommutes(u2 - m(x2), c(i, x2), c(x2, x2));
    }
  }

  lemma {:induction false} MeansCommute(cov: Matrix, mean: Vector, n: nat, x1: nat, p1: nat, u1: real, x2: nat, p2: nat, u2: real, i: nat)
    requires Symmetric(cov, n) && TwoModes(n, x1, p1, x2, p2) && i < n && Divisors(cov, x1, x2)
    ensures ConditionalMean(Conditional(cov, x1, p1), ConditionalMean(cov, mean, x1, p1, u1), x2, p2, u2)(i)
            == ConditionalMean(Conditional(cov, x2, p2), ConditionalMean(cov, mean, x2, p2, u2), x1, p1, u1)(i)
  {
    TwiceMean(cov, mean, n, x1, p1, u1, x2, p2, u2, i);
    TwiceMean(cov, mean, n, x2, p2, u2, x1, p1, u1, i);
    EitherOrder(cov(x1, x1), cov(x2, x1), cov(x2, x2), cov(i, x1), u1 - mean(x1), cov(i, x2), u2 - mean(x2));
    hide Conditional, ConditionalMean, Subtracted, Symmetric;
  }

  /** Post-selections of two modes with given outcomes commute. */
  lemma {:induction false} SelectionsCommute(
    cov: Matrix, mean: Vector, n: nat, x1: nat, p1: nat, u1: real, x2: nat, p2: nat, u2: real)
    requires Symmetric(cov, n) && PositiveDefinite(cov, n) && TwoModes(n, x1, p1, x2, p2)
    ensures SameMatrix(Conditional(Conditional(cov, x1, p1), x2, p2), Conditional(Conditional(cov, x2, p2), x1, p1), n)
    ensures forall i | 0 <= i < n ::
              ConditionalMean(Conditional(cov, x1, p1), ConditionalMean(cov, mean, x1, p1, u1), x2, p2, u2)(i)
              == ConditionalMean(Conditional(cov, x2, p2), ConditionalMean(cov, mean, x2, p2, u2), x1, p1, u1)(i)
  {
    DivisorsNonzero(cov, n, x1, p1, x2, p2);
    hide Conditional, ConditionalMean, Symmetric, PositiveDefinite, TwoModes, Divisors;
    forall i, j | 0 <= i < n && 0 <= j < n
      ensures Conditional(Conditional(cov, x1, p1), x2, p2)(i, j) == Conditional(Conditional(cov, x2, p2), x1, p1)(i, j)
    {
      EntriesCommute(cov, n, x1, p1, x2, p2, i, j);
    }
    forall i | 0 <= i < n
      ensures ConditionalMean(Conditional(cov, x1, p1), ConditionalMean(cov, mean, x1, p1, u1), x2, p2, u2)(i)
              == ConditionalMean(Conditional(cov, x2, p2), ConditionalMean(cov, mean, x2, p2, u2), x1, p1, u1)(i)
    {
      MeansCommute(cov, mean, n, x1, p1, u1, x2, p2, u2, i);
    }
  }
}
