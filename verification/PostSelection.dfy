/** Homodyne post-selection of one peak, in place. */
module PostSelection {
  import opened Sums
  import opened Conditioning
  import opened PartialUpdate

  /** A mean after variable x was found to be `value`. */
  function ConditionalMean(cov: Matrix, mean: Vector, x: int, p: int, value: real): Vector {
    (i: int) => if i == x || i == p then 0.0 else mean(i) + Fraction(value - mean(x), cov(i, x), cov(x, x))
  }

  /** The entries the loop over i has already updated when it reaches row i, column j. */
  predicate Updated(a: int, b: int, i: int, j: int) {
    a < i || b < i || (a == i && b < j) || (b == i && a < j)
  }

  /** The state of the loop: outside x and p the entries updated so far hold the conditional covariance. */
  ghost predicate Half(cov: Matrix, now: seq<seq<real>>, n: nat, x: nat, p: nat, i: nat, j: nat) {
    && |now| == n && (forall a | 0 <= a < n :: |now[a]| == n)
    && forall a, b | 0 <= a < n && 0 <= b < n ::
         now[a][b] == if a != x && a != p && b != x && b != p && Updated(a, b, i, j) then Conditional(cov, x, p)(a, b) else cov(a, b)
  }

  /** One entry and its mirror image; column x is read while the matrix is written, but is not written. */
  method UpdateEntry(cov: array2<real>, x: nat, p: nat, i: nat, j: nat, ghost before: Matrix)
    requires cov.Length0 == cov.Length1 && x < cov.Length0 && p < cov.Length0 && i <= j < cov.Length0
    requires i != x && i != p && j != x && j != p && before(x, x) != 0.0 && Symmetric(before, cov.Length0)
    requires Half(before, Entries(cov), cov.Length0, x, p, i, j)
    modifies cov
    ensures Half(before, Entries(cov), cov.Length0, x, p, i, j + 1)
  {
    ghost var now := Entries(cov);
    assert cov[i, x] == now[i][x] && cov[j, x] == now[j][x] && cov[x, x] == now[x][x] && cov[i, j] == now[i][j];
    var v := cov[i, j] - cov[i, x] * cov[j, x] / cov[x, x];
    assert v == Conditional(before, x, p)(i, j);
    ConditionalSymmetric(before, cov.Length0, x, p);
    SymmetricAt(Conditional(before, x, p), cov.Length0, i, j);
    cov[i, j] := v;
    cov[j, i] := v;
    hide Conditional, Symmetric;
  }

  /** Row i of the upper triangle, and its mirror image. */
  method UpdateRow(cov: array2<real>, x: nat, p: nat, i: nat, ghost before: Matrix)
    requires cov.Length0 == cov.Length1 && x < cov.Length0 && p < cov.Length0 && i < cov.Length0
    requires i != x && i != p && before(x, x) != 0.0 && Symmetric(before, cov.Length0)
    requires Half(before, Entries(cov), cov.Length0, x, p, i, i)
    modifies cov
    ensures Half(before, Entries(cov), cov.Length0, x, p, i + 1, i + 1)
  {
    hide Conditional, Symmetric;
    for j := i to cov.Length0
      invariant Half(before, Entries(cov), cov.Length0, x, p, i, j)
    {
      if j != x && j != p {
        UpdateEntry(cov, x, p, i, j, before);
      }
    }
  }

  /** The means the loop has reached when it gets to row i. */
  ghost predicate MeansUpdated(now: seq<Complex>, cov: Matrix, re: Vector, im: Vector, x: nat, p: nat, value: real, i: nat) {
    forall k | 0 <= k < |now| ::
      now[k] == if k == x || k == p || k >= i then Complex(re(k), im(k))
                else Complex(ConditionalMean(cov, re, x, p, value)(k), ConditionalMean(cov, im, x, p, 0.0)(k))
  }

  /** Column x is only read, so it still holds what it held at first. */
  lemma {:induction false} ColumnUnchanged(cov: Matrix, now: seq<seq<real>>, n: nat, x: nat, p: nat, i: nat, k: nat)
    requires Half(cov, now, n, x, p, i, i) && k < n && x < n
    ensures now[k][x] == cov(k, x)
  {
  }

  /** mean(i) += (value - mean(x)) / cov(x, x) * cov(i, x) */
  method UpdateMean(value: real, mean: array<Complex>, cov: array2<real>, x: nat, p: nat, i: nat, ghost before: Matrix, ghost re: Vector, ghost im: Vector)
    requires cov.Length0 == cov.Length1 == mean.Length && x < mean.Length && p < mean.Length && i < mean.Length
    requires i != x && i != p && before(x, x) != 0.0
    requires cov[x, x] == before(x, x) && cov[i, x] == before(i, x)
    requires MeansUpdated(mean[..], before, re, im, x, p, value, i)
    modifies mean
    ensures MeansUpdated(mean[..], before, re, im, x, p, value, i + 1)
  {
    ghost var now := mean[..];
    assert now[x] == Complex(re(x), im(x)) && now[i] == Complex(re(i), im(i));
    mean[i] := Complex(mean[i].re + (value - mean[x].re) * cov[i, x] / cov[x, x], mean[i].im + (0.0 - mean[x].im) * cov[i, x] / cov[x, x]);
    assert mean[..] == now[i := mean[i]];
    hide ConditionalMean;
  }

  lemma {:induction false} SkipMean(now: seq<Complex>, cov: Matrix, re: Vector, im: Vector, x: nat, p: nat, value: real, i: nat)
    requires MeansUpdated(now, cov, re, im, x, p, value, i) && (i == x || i == p)
    ensures MeansUpdated(now, cov, re, im, x, p, value, i + 1)
  {
    hide ConditionalMean;
  }

  /** The loop over i: means of all other variables, and the upper triangle row by row. */
  method UpdateOthers(value: real, mean: array<Complex>, cov: array2<real>, x: nat, p: nat)
    requires cov.Length0 == cov.Length1 == mean.Length && x < mean.Length && p < mean.Length
    requires cov[x, x] != 0.0 && Symmetric(AsMatrix(Entries(cov)), mean.Length)
    modifies mean, cov
    ensures Half(old(AsMatrix(Entries(cov))), Entries(cov), mean.Length, x, p, mean.Length, mean.Length)
    ensures MeansUpdated(mean[..], old(AsMatrix(Entries(cov))), old(RealPart(mean[..])), old(ImaginaryPart(mean[..])), x, p, value, mean.Length)
  {
    var n := mean.Length;
    ghost var before, re, im := AsMatrix(Entries(cov)), RealPart(mean[..]), ImaginaryPart(mean[..]);
    assert MeansUpdated(mean[..], before, re, im, x, p, value, 0) by { hide ConditionalMean; }
    assert before(x, x) != 0.0;
    hide *;
    NothingUpdated(cov, x, p);
    for i := 0 to n
      invariant Half(before, Entries(cov), n, x, p, i, i)
      invariant MeansUpdated(mean[..], before, re, im, x, p, value, i)
    {
      ghost var now := Entries(cov);
      if i != x && i != p {
        ColumnUnchanged(before, now, n, x, p, i, x);
        ColumnUnchanged(before, now, n, x, p, i, i);
        UpdateMean(value, mean, cov, x, p, i, before, re, im);
        UpdateRow(cov, x, p, i, before);
      } else {
        SkipRow(before, now, n, x, p, i);
        SkipMean(mean[..], before, re, im, x, p, value, i);
      }
    }
  }

  lemma {:induction false} NothingUpdated(cov: array2<real>, x: nat, p: nat)
    requires cov.Length0 == cov.Length1
    ensures Half(AsMatrix(Entries(cov)), Entries(cov), cov.Length0, x, p, 0, 0)
  {
    hide Conditional;
  }

  lemma {:induction false} SkipRow(cov: Matrix, now: seq<seq<real>>, n: nat, x: nat, p: nat, i: nat)
    requires Half(cov, now, n, x, p, i, i) && (i == x || i == p)
    ensures Half(cov, now, n, x, p, i + 1, i + 1)
  {
    hide Conditional;
  }

  /** The measured mode is left uncorrelated, with variance hbar / 2. */
  method ClearMode(cov: array2<real>, x: nat, p: nat)
    requires cov.Length0 == cov.Length1 && x < cov.Length0 && p < cov.Length0
    modifies cov
    ensures forall a, b | 0 <= a < cov.Length0 && 0 <= b < cov.Length0 ::
              cov[a, b] == if a == x || a == p || b == x || b == p then (if a == b then 0.5 else 0.0) else old(cov[a, b])
  {
    var n := cov.Length0;
    for i := 0 to n
      invariant forall a, b | 0 <= a < n && 0 <= b < n ::
                  cov[a, b] == if ((a == x || a == p) && b < i) || ((b == x || b == p) && a < i) then 0.0 else old(cov[a, b])
    {
      cov[x, i] := 0.0;
      cov[i, x] := 0.0;
      cov[p, i] := 0.0;
      cov[i, p] := 0.0;
    }
    cov[x, x] := 0.5;
    cov[p, p] := 0.5;
  }

  /** `PostSelectBySamplingResult` for one peak: the simultaneous conditional-Gaussian update. */
  method PostSelect(value: real, mean: array<Complex>, cov: array2<real>, x: nat, p: nat)
    requires cov.Length0 == cov.Length1 == mean.Length && x < mean.Length && p < mean.Length && x != p
    requires cov[x, x] != 0.0 && Symmetric(AsMatrix(Entries(cov)), mean.Length)
    modifies mean, cov
    ensures forall i, j | 0 <= i < mean.Length && 0 <= j < mean.Length ::
              cov[i, j] == Conditional(old(AsMatrix(Entries(cov))), x, p)(i, j)
    ensures forall i | 0 <= i < mean.Length ::
              mean[i] == Complex(ConditionalMean(old(AsMatrix(Entries(cov))), old(RealPart(mean[..])), x, p, value)(i),
                                 ConditionalMean(old(AsMatrix(Entries(cov))), old(ImaginaryPart(mean[..])), x, p, 0.0)(i))
  {
    ghost var before := AsMatrix(Entries(cov));
    hide AsMatrix, Symmetric, RealPart, ImaginaryPart;
    UpdateOthers(value, mean, cov, x, p);
    ghost var now := Entries(cov);
    assert forall a, b | 0 <= a < mean.Length && 0 <= b < mean.Length :: cov[a, b] == now[a][b];
    mean[x] := Complex(0.0, 0.0);
    mean[p] := Complex(0.0, 0.0);
    ClearMode(cov, x, p);
  }
}
