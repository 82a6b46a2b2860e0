/** Replacing a mode by a squeezed state. */
module Replacement {
  import opened Elementary
  import opened Operations
  import opened Sums
  import opened Conditioning
  import opened PartialUpdate

  /** `GenerateSqueezedCov` for the squeezing 10^(level / 10). */
  function SqueezedCov(f: Functions, squeezing: real, phi: real): Mat2 {
    Mul2(Mul2(Rotation(f, phi), Scale2(Mat2(Quotient(1.0, squeezing), 0.0, 0.0, squeezing), 0.5)), Transpose2(Rotation(f, phi)))
  }

  /** cov with the block of the mode (x, p) replaced. */
  function Replaced(cov: Matrix, x: int, p: int, block: Mat2): Matrix {
    (i: int, j: int) =>
      if i == x && j == x then block.a else if i == x && j == p then block.b
      else if i == p && j == x then block.c else if i == p && j == p then block.d
      else cov(i, j)
  }

  /** The mode (x, p) is uncorrelated with every other variable. */
  ghost predicate Uncorrelated(cov: Matrix, n: nat, x: int, p: int) {
    forall j | 0 <= j < n && j != x && j != p :: cov(x, j) == 0.0 && cov(p, j) == 0.0 && cov(j, x) == 0.0 && cov(j, p) == 0.0
  }

  /** The quadratic form of a 2x2 matrix. */
  function Form2(b: Mat2, x: real, p: real): real { x * (b.a * x + b.b * p) + p * (b.c * x + b.d * p) }

  ghost predicate Positive2(b: Mat2) {
    b.b == b.c && forall x: real, p: real | x != 0.0 || p != 0.0 :: Form2(b, x, p) > 0.0
  }

  // ----- the squeezed covariance -----

  /** The covariance of a state squeezed by q = 1 / inv, at the angle with cosine c and sine s. */
  ghost predicate IsSqueezed(m: Mat2, inv: real, q: real, c: real, s: real) {
    && m.a == 0.5 * (inv * (c * c) + q * (s * s))
    && m.b == 0.5 * (inv * (c * s) - q * (s * c)) && m.c == m.b
    && m.d == 0.5 * (inv * (s * s) + q * (c * c))
  }

  lemma {:induction false} LeftFactor(c: real, s: real, i2: real, q2: real)
    ensures Mul2(Mat2(c, -s, s, c), Mat2(i2, 0.0, 0.0, q2)) == Mat2(c * i2, -s * q2, s * i2, c * q2)
  {
  }

  lemma {:induction false} RotatedEntry(c: real, s: real, i2: real, q2: real, inv: real, q: real, m: real)
    requires i2 == inv * 0.5 && q2 == q * 0.5 && m == (c * i2) * c + (-s * q2) * -s
    ensures m == 0.5 * (inv * (c * c) + q * (s * s))
  {
  }

  lemma {:induction false} MixedEntry(c: real, s: real, i2: real, q2: real, inv: real, q: real, m: real)
    requires i2 == inv * 0.5 && q2 == q * 0.5 && (m == (c * i2) * s + (-s * q2) * c || m == (s * i2) * c + (c * q2) * -s)
    ensures m == 0.5 * (inv * (c * s) - q * (s * c))
  {
  }

  lemma {:induction false} LowerEntry(c: real, s: real, i2: real, q2: real, inv: real, q: real, m: real)
    requires i2 == inv * 0.5 && q2 == q * 0.5 && m == (s * i2) * s + (c * q2) * c
    ensures m == 0.5 * (inv * (s * s) + q * (c * c))
  {
  }

  lemma {:induction false} RightProduct(l: Mat2, c: real, s: real)
    ensures Mul2(l, Mat2(c, s, -s, c)) == Mat2(l.a * c + l.b * -s, l.a * s + l.b * c, l.c * c + l.d * -s, l.c * s + l.d * c)
  {
  }

  lemma {:induction false} AllEntries(c: real, s: real, i2: real, q2: real, inv: real, q: real, m: Mat2)
    requires i2 == inv * 0.5 && q2 == q * 0.5
    requires m.a == (c * i2) * c + (-s * q2) * -s && m.b == (c * i2) * s + (-s * q2) * c
    requires m.c == (s * i2) * c + (c * q2) * -s && m.d == (s * i2) * s + (c * q2) * c
    ensures IsSqueezed(m, inv, q, c, s)
  {
    RotatedEntry(c, s, i2, q2, inv, q, m.a);
    MixedEntry(c, s, i2, q2, inv, q, m.b);
    MixedEntry(c, s, i2, q2, inv, q, m.c);
    LowerEntry(c, s, i2, q2, inv, q, m.d);
  }

  lemma {:induction false} RightFactor(c: real, s: real, i2: real, q2: real, inv: real, q: real)
    requires i2 == inv * 0.5 && q2 == q * 0.5
    ensures IsSqueezed(Mul2(Mat2(c * i2, -s * q2, s * i2, c * q2), Mat2(c, s, -s, c)), inv, q, c, s)
  {
    hide *;
    var l := Mat2(c * i2, -s * q2, s * i2, c * q2);
    RightProduct(l, c, s);
    AllEntries(c, s, i2, q2, inv, q, Mul2(l, Mat2(c, s, -s, c)));
  }

  lemma {:induction false} SqueezedEntries(f: Functions, squeezing: real, phi: real)
    ensures IsSqueezed(SqueezedCov(f, squeezing, phi), Quotient(1.0, squeezing), squeezing, f.cos(phi), f.sin(phi))
  {
    hide Quotient, Mul2, IsSqueezed;
    var c, s, inv := f.cos(phi), f.sin(phi), Quotient(1.0, squeezing);
    var i2, q2 := inv * 0.5, squeezing * 0.5;
    LeftFactor(c, s, i2, q2);
    RightFactor(c, s, i2, q2, inv, squeezing);
  }

  /** The form of the squeezed covariance is half of inv u^2 + q w^2, for the rotated (u, w). */
  lemma {:induction false} RotatedForm(m: Mat2, inv: real, q: real, c: real, s: real, x: real, p: real, u: real, w: real)
    requires IsSqueezed(m, inv, q, c, s) && u == c * x + s * p && w == c * p - s * x
    ensures Form2(m, x, p) == (0.5 * (u * u)) * inv + (0.5 * (w * w)) * q
  {
  }

  lemma {:induction false} RotatedBack(c: real, s: real, x: real, p: real, u: real, w: real)
    requires u == c * x + s * p && w == c * p - s * x && c * c + s * s == 1.0
    ensures c * u - s * w == x && s * u + c * w == p
  {
    assert c * u - s * w == (c * c + s * s) * x;
    assert s * u + c * w == (c * c + s * s) * p;
  }

  lemma {:induction false} NonNegativeProduct(a: real, b: real)
    requires a >= 0.0 && b > 0.0
    ensures a * b >= 0.0 && (a > 0.0 ==> a * b > 0.0)
  {
  }

  lemma {:induction false} SqueezedFormPositive(m: Mat2, inv: real, q: real, c: real, s: real, x: real, p: real)
    requires IsSqueezed(m, inv, q, c, s) && c * c + s * s == 1.0 && inv > 0.0 && q > 0.0 && (x != 0.0 || p != 0.0)
    ensures Form2(m, x, p) > 0.0
  {
    hide *;
    var u, w := c * x + s * p, c * p - s * x;
    RotatedForm(m, inv, q, c, s, x, p, u, w);
    RotatedBack(c, s, x, p, u, w);
    var hu, hw := 0.5 * (u * u), 0.5 * (w * w);
    Square(u, hu);
    Square(w, hw);
    NonNegativeProduct(hu, inv);
    NonNegativeProduct(hw, q);
    SomePositive(c, s, u, w, hu, hw, hu * inv, hw * q);
  }

  lemma {:induction false} SomePositive(c: real, s: real, u: real, w: real, hu: real, hw: real, a: real, b: real)
    requires c * u - s * w != 0.0 || s * u + c * w != 0.0
    requires a >= 0.0 && b >= 0.0 && (u != 0.0 ==> hu > 0.0) && (w != 0.0 ==> hw > 0.0) && (hu > 0.0 ==> a > 0.0) && (hw > 0.0 ==> b > 0.0)
    ensures a + b > 0.0
  {
  }

  /** The covariance of a squeezed state is symmetric and positive definite at any angle. */
  lemma {:induction false} SqueezedPositive(f: Functions, squeezing: real, phi: real)
    requires f.Lawful() && squeezing > 0.0
    ensures Positive2(SqueezedCov(f, squeezing, phi))
  {
    SqueezedEntries(f, squeezing, phi);
    var m, inv, c, s := SqueezedCov(f, squeezing, phi), Quotient(1.0, squeezing), f.cos(phi), f.sin(phi);
    assert f.OnCircle(phi);
    assert inv * squeezing == 1.0;
    hide SqueezedCov, Form2, f.Lawful, f.OnCircle;
    forall x: real, p: real | x != 0.0 || p != 0.0 ensures Form2(m, x, p) > 0.0 {
      SqueezedFormPositive(m, inv, squeezing, c, s, x, p);
    }
  }

  // ----- replacing the block -----

  lemma {:induction false} BlockTerm(cov: Matrix, n: nat, x: nat, p: nat, block: Mat2, v: Vector, i: nat, j: nat, ex: real, ep: real)
    requires Uncorrelated(cov, n, x, p) && x != p && (i == x || i == p) && j < n
    requires ex == Replaced(cov, x, p, block)(i, x) * v(x) && ep == Replaced(cov, x, p, block)(i, p) * v(p)
    ensures RowTerms(Replaced(cov, x, p, block), v, i)(j) == Added(Spike(x, ex), Spike(p, ep))(j)
  {
  }

  lemma {:induction false} OtherTerm(cov: Matrix, n: nat, x: nat, p: nat, block: Mat2, v: Vector, i: nat, j: nat)
    requires Uncorrelated(cov, n, x, p) && i != x && i != p && i < n && j < n
    ensures RowTerms(Replaced(cov, x, p, block), v, i)(j) == RowTerms(cov, Others(v, x, p), i)(j)
  {
  }

  lemma {:induction false} BlockRow(cov: Matrix, n: nat, x: nat, p: nat, block: Mat2, v: Vector, i: nat)
    requires Uncorrelated(cov, n, x, p) && x < n && p < n && x != p && (i == x || i == p)
    ensures Row(Replaced(cov, x, p, block), v, n, i) == Replaced(cov, x, p, block)(i, x) * v(x) + Replaced(cov, x, p, block)(i, p) * v(p)
  {
    hide *;
    var c := Replaced(cov, x, p, block);
    var ex, ep := c(i, x) * v(x), c(i, p) * v(p);
    var f, g := Spike(x, ex), Spike(p, ep);
    forall j | 0 <= j < n ensures RowTerms(c, v, i)(j) == Added(f, g)(j) {
      BlockTerm(cov, n, x, p, block, v, i, j, ex, ep);
    }
    SumEq(RowTerms(c, v, i), Added(f, g), n);
    SumAdded(f, g, n);
    SpikeSum(n, x, ex);
    SpikeSum(n, p, ep);
    RowIs(c, v, n, i);
  }

  lemma {:induction false} OtherRow(cov: Matrix, n: nat, x: nat, p: nat, block: Mat2, v: Vector, i: nat)
    requires Uncorrelated(cov, n, x, p) && i != x && i != p && i < n
    ensures Row(Replaced(cov, x, p, block), v, n, i) == Row(cov, Others(v, x, p), n, i)
  {
    hide *;
    var c, r := Replaced(cov, x, p, block), Others(v, x, p);
    forall j | 0 <= j < n ensures RowTerms(c, v, i)(j) == RowTerms(cov, r, i)(j) {
      OtherTerm(cov, n, x, p, block, v, i, j);
    }
    SumEq(RowTerms(c, v, i), RowTerms(cov, r, i), n);
    RowIs(c, v, n, i);
    RowIs(cov, r, n, i);
  }

  lemma {:induction false} SpikesAt(f: Vector, x: nat, ex: real, p: nat, ep: real, i: nat)
    ensures Added(Added(f, Spike(x, ex)), Spike(p, ep))(i) == f(i) + (if i == x then ex else 0.0) + (if i == p then ep else 0.0)
  {
  }

  lemma {:induction false} TermIs(cov: Matrix, v: Vector, n: nat, i: nat, vi: real, row: real)
    requires vi == v(i) && row == Row(cov, v, n, i)
    ensures FormTerms(cov, v, n)(i) == vi * row
  {
    hide Row;
  }

  lemma {:induction false} OthersAt(v: Vector, x: int, p: int, i: int)
    ensures Others(v, x, p)(i) == if i == x || i == p then 0.0 else v(i)
  {
  }

  lemma {:induction false} BlockAt(cov: Matrix, x: nat, p: nat, block: Mat2, i: nat)
    requires x != p && (i == x || i == p)
    ensures Replaced(cov, x, p, block)(i, x) == if i == x then block.a else block.c
    ensures Replaced(cov, x, p, block)(i, p) == if i == x then block.b else block.d
  {
  }

  lemma {:induction false} BlockProduct(a: real, b: real, a': real, b': real, vx: real, vp: real, vi: real, row: real, e: real)
    requires a == a' && b == b' && row == a * vx + b * vp && e == vi * (a' * vx + b' * vp)
    ensures vi * row == e
  {
  }

  lemma {:induction false} ReplacedTerm(cov: Matrix, n: nat, x: nat, p: nat, block: Mat2, v: Vector, i: nat, ex: real, ep: real)
    requires Uncorrelated(cov, n, x, p) && x < n && p < n && x != p && i < n
    requires ex == v(x) * (block.a * v(x) + block.b * v(p)) && ep == v(p) * (block.c * v(x) + block.d * v(p))
    ensures FormTerms(Replaced(cov, x, p, block), v, n)(i) == Added(Added(FormTerms(cov, Others(v, x, p), n), Spike(x, ex)), Spike(p, ep))(i)
  {
    hide *;
    var c, r := Replaced(cov, x, p, block), Others(v, x, p);
    var vi, ri, row, rest := v(i), r(i), Row(c, v, n, i), Row(cov, r, n, i);
    TermIs(c, v, n, i, vi, row);
    TermIs(cov, r, n, i, ri, rest);
    OthersAt(v, x, p, i);
    SpikesAt(FormTerms(cov, r, n), x, ex, p, ep, i);
    if i == x || i == p {
      BlockRow(cov, n, x, p, block, v, i);
      BlockAt(cov, x, p, block, i);
      if i == x {
        BlockProduct(c(i, x), c(i, p), block.a, block.b, v(x), v(p), vi, row, ex);
      } else {
        BlockProduct(c(i, x), c(i, p), block.c, block.d, v(x), v(p), vi, row, ep);
      }
    } else {
      OtherRow(cov, n, x, p, block, v, i);
    }
  }

  lemma {:induction false} Form2Is(b: Mat2, x: real, p: real)
    ensures Form2(b, x, p) == x * (b.a * x + b.b * p) + p * (b.c * x + b.d * p)
  {
  }

  lemma {:induction false} ReplacedForm(cov: Matrix, n: nat, x: nat, p: nat, block: Mat2, v: Vector)
    requires Uncorrelated(cov, n, x, p) && x < n && p < n && x != p
    ensures Form(Replaced(cov, x, p, block), v, n) == Form(cov, Others(v, x, p), n) + Form2(block, v(x), v(p))
  {
    hide *;
    var c, r := Replaced(cov, x, p, block), Others(v, x, p);
    var ex, ep := v(x) * (block.a * v(x) + block.b * v(p)), v(p) * (block.c * v(x) + block.d * v(p));
    var f := Added(FormTerms(cov, r, n), Spike(x, ex));
    forall i | 0 <= i < n ensures FormTerms(c, v, n)(i) == Added(f, Spike(p, ep))(i) {
      ReplacedTerm(cov, n, x, p, block, v, i, ex, ep);
    }
    SumEq(FormTerms(c, v, n), Added(f, Spike(p, ep)), n);
    SumAdded(f, Spike(p, ep), n);
    SumAdded(FormTerms(cov, r, n), Spike(x, ex), n);
    SpikeSum(n, x, ex);
    SpikeSum(n, p, ep);
    FormIs(c, v, n);
    FormIs(cov, r, n);
    assert Form2(block, v(x), v(p)) == ex + ep by { Form2Is(block, v(x), v(p)); }
  }

  /** Replacing an uncorrelated mode keeps a covariance symmetric and positive definite. */
  lemma {:induction false} ReplacedPositive(cov: Matrix, n: nat, x: nat, p: nat, block: Mat2)
    requires Symmetric(cov, n) && PositiveDefinite(cov, n) && Uncorrelated(cov, n, x, p) && Positive2(block)
    requires x < n && p < n && x != p
    ensures Symmetric(Replaced(cov, x, p, block), n) && PositiveDefinite(Replaced(cov, x, p, block), n)
  {
    var c := Replaced(cov, x, p, block);
    forall i, j | 0 <= i < n && 0 <= j < n ensures c(i, j) == c(j, i) {
      assert cov(i, j) == cov(j, i);
    }
    forall v: Vector | NonZero(v, n) ensures Form(c, v, n) > 0.0 {
      ReplacedForm(cov, n, x, p, block, v);
      hide Form, Replaced, Symmetric, Uncorrelated, Form2;
      var r := Others(v, x, p);
      if NonZero(r, n) {
        assert Form(cov, r, n) > 0.0;
      } else {
        FormZero(cov, r, n);
        var i :| 0 <= i < n && v(i) != 0.0;
        assert r(i) == 0.0;
      }
    }
  }

  /** `ReplaceBySqueezedState::UpdatePeak`: the mode gets mean zero and the squeezed covariance; nothing
      else changes, correlations of the mode included. */
  method ReplacePeak(f: Functions, squeezing: real, phi: real, mu: array<Complex>, sigma: array2<real>, x: nat, p: nat)
    requires sigma.Length0 == sigma.Length1 == mu.Length && x < mu.Length && p < mu.Length && x != p
    modifies mu, sigma
    ensures forall i | 0 <= i < mu.Length :: mu[i] == if i == x || i == p then Complex(0.0, 0.0) else old(mu[i])
    ensures forall i, j | 0 <= i < mu.Length && 0 <= j < mu.Length ::
              sigma[i, j] == Replaced(old(AsMatrix(Entries(sigma))), x, p, SqueezedCov(f, squeezing, phi))(i, j)
  {
    ghost var before := AsMatrix(Entries(sigma));
    assert forall i, j | 0 <= i < mu.Length && 0 <= j < mu.Length :: sigma[i, j] == before(i, j);
    hide AsMatrix, Entries;
    mu[x], mu[p] := Complex(0.0, 0.0), Complex(0.0, 0.0);
    var block := SqueezedCov(f, squeezing, phi);
    sigma[x, x], sigma[x, p], sigma[p, x], sigma[p, p] := block.a, block.b, block.c, block.d;
    hide SqueezedCov;
  }
}
