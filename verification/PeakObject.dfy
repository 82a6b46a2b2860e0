/** The peak object of a state, updated in place: its methods do what the functions on peaks say. */
module PeakObject {
  import opened Elementary
  import opened Operations
  import opened Points
  import opened Sums
  import opened Conditioning
  import opened Congruence
  import opened PartialUpdate
  import opened PostSelection
  import opened Replacement
  import opened GateMatrices
  import opened GaussianPeaks
  import opened ProductStates
  import Weights

  // ----- the functions on matrices only look at the entries that exist -----

  lemma {:induction false} TransformedEq(s: Matrix, a: Matrix, b: Matrix, n: nat, i: nat, j: nat)
    requires SameMatrix(a, b, n) && i < n && j < n
    ensures Transformed(s, a, n)(i, j) == Transformed(s, b, n)(i, j)
  {
    TransformedEntry(s, a, n, i, j);
    TransformedEntry(s, b, n, i, j);
    var f, g := Times(RowOf(s, i), Image(a, RowOf(s, j), n)), Times(RowOf(s, i), Image(b, RowOf(s, j), n));
    hide Transformed;
    forall k | 0 <= k < n ensures f(k) == g(k) {
      RowEq(a, b, RowOf(s, j), RowOf(s, j), n, k);
    }
    SumEq(f, g, n);
  }

  lemma {:induction false} ImageEq(s: Matrix, u: Vector, v: Vector, n: nat, i: int)
    requires forall k | 0 <= k < n :: u(k) == v(k)
    ensures Row(s, u, n, i) == Row(s, v, n, i)
  {
    RowEq(s, s, u, v, n, i);
  }

  lemma {:induction false} SymmetricEq(a: Matrix, b: Matrix, n: nat)
    requires SameMatrix(a, b, n) && Symmetric(b, n)
    ensures Symmetric(a, n)
  {
  }

  /** The arrays hold these means and covariances. */
  ghost predicate HoldsMatrix(now: seq<seq<real>>, cov: Matrix, n: nat) {
    && |now| == n && (forall i | 0 <= i < n :: |now[i]| == n)
    && forall i, j | 0 <= i < n && 0 <= j < n :: now[i][j] == cov(i, j)
  }

  lemma {:induction false} HeldSame(now: seq<seq<real>>, cov: Matrix, n: nat)
    requires HoldsMatrix(now, cov, n)
    ensures SameMatrix(AsMatrix(now), cov, n)
  {
  }

  ghost predicate HoldsMean(now: seq<Complex>, re: Vector, im: Vector, n: nat) {
    |now| == n && forall i | 0 <= i < n :: now[i] == Complex(re(i), im(i))
  }

  lemma {:induction false} GatedMeans(s: Matrix, now: seq<Complex>, re: Vector, im: Vector, n: nat, i: nat)
    requires HoldsMean(now, re, im, n) && i < n
    ensures Row(s, RealPart(now), n, i) == Row(s, re, n, i) && Row(s, ImaginaryPart(now), n, i) == Row(s, im, n, i)
  {
    ImageEq(s, RealPart(now), re, n, i);
    ImageEq(s, ImaginaryPart(now), im, n, i);
  }

  lemma {:induction false} ConditionalEq(a: Matrix, b: Matrix, n: nat, x: nat, p: nat, i: nat, j: nat)
    requires SameMatrix(a, b, n) && x < n && i < n && j < n
    ensures Conditional(a, x, p)(i, j) == Conditional(b, x, p)(i, j)
  {
  }

  lemma {:induction false} ConditionalMeanEq(
    a: Matrix, b: Matrix, now: seq<Complex>, re: Vector, im: Vector, n: nat, x: nat, p: nat, value: real, i: nat)
    requires SameMatrix(a, b, n) && HoldsMean(now, re, im, n) && x < n && i < n
    ensures ConditionalMean(a, RealPart(now), x, p, value)(i) == ConditionalMean(b, re, x, p, value)(i)
    ensures ConditionalMean(a, ImaginaryPart(now), x, p, 0.0)(i) == ConditionalMean(b, im, x, p, 0.0)(i)
  {
  }

  lemma {:induction false} ReplacedEq(a: Matrix, b: Matrix, n: nat, x: nat, p: nat, block: Mat2, i: nat, j: nat)
    requires SameMatrix(a, b, n) && i < n && j < n
    ensures Replaced(a, x, p, block)(i, j) == Replaced(b, x, p, block)(i, j)
  {
  }

  /** The parts of a post-selected peak. */
  lemma {:induction false} SelectedParts(mode: nat, s: Sample, m: nat, g: Peak, now: seq<Complex>, entries: seq<seq<real>>)
    requires mode < g.n && m < |s.densities| && s.total != 0.0
    requires |now| == 2 * g.n && |entries| == 2 * g.n && forall i | 0 <= i < 2 * g.n :: |entries[i]| == 2 * g.n
    requires forall i | 0 <= i < 2 * g.n ::
               now[i] == Complex(ConditionalMean(g.cov, g.re, mode, mode + g.n, s.value)(i), ConditionalMean(g.cov, g.im, mode, mode + g.n, 0.0)(i))
    requires forall i, j | 0 <= i < 2 * g.n && 0 <= j < 2 * g.n :: entries[i][j] == Conditional(g.cov, mode, mode + g.n)(i, j)
    ensures var h := PostSelected(mode, s, m, g);
      && h.n == g.n && h.coeff == Complex(s.densities[m].re / s.total, s.densities[m].im / s.total)
      && HoldsMean(now, h.re, h.im, 2 * g.n) && HoldsMatrix(entries, h.cov, 2 * g.n)
  {
    hide Conditional, ConditionalMean;
  }

  // ----- the object -----

  class MultiModePeak {
    const n: nat
    var coeff: Complex
    const mean: array<Complex>
    const cov: array2<real>

    /** The object is the peak g. */
    ghost predicate Holds(g: Peak)
      reads this, mean, cov
    {
      && g.n == n && coeff == g.coeff && mean.Length == 2 * n && cov.Length0 == 2 * n && cov.Length1 == 2 * n
      && HoldsMean(mean[..], g.re, g.im, 2 * n) && HoldsMatrix(Entries(cov), g.cov, 2 * n)
    }

    constructor (c: seq<SinglePeak>)
      ensures Holds(Assembled(c)) && fresh(mean) && fresh(cov)
    {
      var z, v, m := Assemble(c);
      n, coeff, mean, cov := |c|, z, v, m;
      new;
      hide Weights.Weight, MeanEntryOf, ProductStates.BlockEntry;
    }

    method Displace(mode: nat, dx: real, dp: real, ghost g: Peak)
      requires Holds(g) && mode < n
      modifies mean
      ensures Holds(Displaced(mode, dx, dp, g))
    {
      ghost var now, entries := mean[..], Entries(cov);
      mean[mode] := Complex(mean[mode].re + dx, mean[mode].im);
      mean[mode + n] := Complex(mean[mode + n].re + dp, mean[mode + n].im);
      assert mean[..] == now[mode := mean[mode]][mode + n := mean[mode + n]];
      assert Entries(cov) == entries;
    }

    method Gate(m: Matrix, idx: seq<nat>, ghost g: Peak)
      requires Holds(g) && Operates(idx, 2 * n) && Symmetric(g.cov, 2 * n)
      modifies mean, cov
      ensures Holds(Gated(m, idx, g))
    {
      ghost var now, entries, s := mean[..], Entries(cov), Embed(m, idx);
      hide Transformed, Embed, AsMatrix, RealPart, ImaginaryPart, Row, Operates;
      HeldSame(entries, g.cov, 2 * n);
      SymmetricEq(AsMatrix(entries), g.cov, 2 * n);
      UpdatePeak(m, idx, mean, cov);
      forall i: nat, j: nat | i < 2 * n && j < 2 * n ensures cov[i, j] == Transformed(s, g.cov, 2 * n)(i, j) {
        TransformedEq(s, AsMatrix(entries), g.cov, 2 * n, i, j);
      }
      forall i: nat | i < 2 * n ensures mean[i] == Complex(Row(s, g.re, 2 * n, i), Row(s, g.im, 2 * n, i)) {
        GatedMeans(s, now, g.re, g.im, 2 * n, i);
      }
    }

    method Replace(f: Functions, squeezing: real, phi: real, mode: nat, ghost g: Peak)
      requires Holds(g) && mode < n
      modifies mean, cov
      ensures Holds(Renewed(f, squeezing, phi, mode, g))
    {
      ghost var entries, block := Entries(cov), SqueezedCov(f, squeezing, phi);
      hide SqueezedCov, AsMatrix, Replaced;
      HeldSame(entries, g.cov, 2 * n);
      ReplacePeak(f, squeezing, phi, mean, cov, mode, mode + n);
      forall i: nat, j: nat | i < 2 * n && j < 2 * n ensures cov[i, j] == Replaced(g.cov, mode, mode + n, block)(i, j) {
        ReplacedEq(AsMatrix(entries), g.cov, 2 * n, mode, mode + n, block, i, j);
      }
    }

    /** What a gate, a displacement or a replacement does to one peak. */
    method Apply(f: Functions, pow10: real -> real, kind: Kind, modes: seq<nat>, params: seq<real>, ghost g: Peak)
      requires Holds(g) && Symmetric(g.cov, 2 * n) && Applicable(kind, modes, params, n) && !IsMeasurement(kind)
      modifies mean, cov
      ensures Holds(Operate(f, pow10, kind, modes, params, g))
    {
      hide Symmetric, Displaced, Gated, Renewed, GateMatrix, Indices;
      if kind == Displacement {
        Displace(modes[0], params[0], params[1], g);
      } else if IsMatrixGate(kind) {
        IndicesOperate(kind, modes, params, n);
        hide Holds, Operates;
        Gate(GateMatrix(f, kind, params), Indices(kind, modes, n), g);
      } else {
        Replace(f, pow10(params[0] * 0.1), params[1], modes[0], g);
      }
    }

    /** `PostSelectBySamplingResult` for the peak with index m. */
    method Select(mode: nat, s: Sample, m: nat, ghost g: Peak)
      requires Holds(g) && Symmetric(g.cov, 2 * n) && mode < n && g.cov(mode, mode) != 0.0
      requires m < |s.densities| && s.total != 0.0
      modifies this`coeff, mean, cov
      ensures Holds(PostSelected(mode, s, m, g))
    {
      ghost var now, entries := mean[..], Entries(cov);
      HeldSame(entries, g.cov, 2 * n);
      SymmetricEq(AsMatrix(entries), g.cov, 2 * n);
      assert cov[mode, mode] == entries[mode][mode];
      hide AsMatrix, RealPart, ImaginaryPart, Conditional, ConditionalMean, Symmetric, PostSelected, HoldsMean, HoldsMatrix;
      PostSelect(s.value, mean, cov, mode, mode + n);
      coeff := Complex(s.densities[m].re / s.total, s.densities[m].im / s.total);
      forall i: nat, j: nat | i < 2 * n && j < 2 * n ensures cov[i, j] == Conditional(g.cov, mode, mode + n)(i, j) {
        ConditionalEq(AsMatrix(entries), g.cov, 2 * n, mode, mode + n, i, j);
      }
      forall i: nat | i < 2 * n
        ensures mean[i] == Complex(ConditionalMean(g.cov, g.re, mode, mode + n, s.value)(i), ConditionalMean(g.cov, g.im, mode, mode + n, 0.0)(i))
      {
        ConditionalMeanEq(AsMatrix(entries), g.cov, now, g.re, g.im, 2 * n, mode, mode + n, s.value, i);
      }
      SelectedParts(mode, s, m, g, mean[..], Entries(cov));
    }
  }
}
