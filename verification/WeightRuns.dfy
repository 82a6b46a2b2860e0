/** The total weight of the peaks over a whole run. */
module WeightRuns {
  import opened Elementary
  import opened Operations
  import opened Engine
  import opened PartialUpdate
  import opened Weights
  import opened GaussianPeaks
  import opened GaussianRuns
  import opened DirectProduct
  import opened ProductStates

  function Coeffs(peaks: seq<Peak>): (r: seq<Complex>)
    ensures |r| == |peaks| && forall m | 0 <= m < |r| :: r[m] == peaks[m].coeff
  {
    seq(|peaks|, m requires 0 <= m < |peaks| => peaks[m].coeff)
  }

  function TotalCoeff(peaks: seq<Peak>): Complex { SumOf(Coeffs(peaks)) }

  /** What sampling reports: a density for every peak, and the real part of their sum, which is not zero. */
  ghost predicate Reports(s: Sample, n: nat) {
    |s.densities| == n && s.total == SumOf(s.densities).re && s.total != 0.0
  }

  ghost predicate ReportsDensities<Rng(!new)>(sampler: (nat, Option<real>, seq<Peak>, Rng) -> (Sample, Rng)) {
    forall mode, sel, peaks, rng | peaks != [] :: Reports(sampler(mode, sel, peaks, rng).0, |peaks|)
  }

  function Shares(s: Sample, n: nat): seq<Complex> { seq(n, (m: nat) => Share(s, m)) }

  lemma {:induction false} Divided(z: Complex, t: real)
    requires t != 0.0
    ensures Mul(Complex(1.0 / t, 0.0), z) == Complex(z.re / t, z.im / t)
  {
    var i, x, y := 1.0 / t, z.re, z.im;
    Reciprocal(x, t, i);
    Reciprocal(y, t, i);
  }

  lemma {:induction false} Reciprocal(x: real, t: real, i: real)
    requires t != 0.0 && i == 1.0 / t
    ensures i * x == x / t
  {
    assert i * t == 1.0;
    assert (i * x) * t == x;
  }

  /** Post-selection makes the real part of the total weight exactly one; it is one altogether if and
      only if the total density is real. */
  lemma {:induction false} SharesTotal(s: Sample, n: nat)
    requires Reports(s, n)
    ensures SumOf(Shares(s, n)) == Complex(1.0, SumOf(s.densities).im / s.total)
    ensures SumOf(Shares(s, n)) == ONE <==> SumOf(s.densities).im == 0.0
  {
    var t, shares := s.total, Shares(s, n);
    var f := (i: int) => if 0 <= i < |s.densities| then s.densities[i] else ZERO;
    var g := (i: int) => if 0 <= i < |shares| then shares[i] else ZERO;
    var c := Complex(1.0 / t, 0.0);
    forall i | 0 <= i < n ensures g(i) == Multiple(c, f)(i) {
      Divided(f(i), t);
    }
    hide Mul, Add, Share;
    TotalEq(g, Multiple(c, f), n);
    TotalMultiple(c, f, n);
    Divided(Total(f, n), t);
    Quotients(SumOf(s.densities).re, SumOf(s.densities).im, t);
  }

  /** Every peak gets the share of its own density: the new weights are in the proportion of the densities. */
  lemma {:induction false} SharesInProportion(s: Sample, n: nat, a: nat, b: nat)
    requires Reports(s, n) && a < n && b < n
    ensures Mul(Share(s, a), s.densities[b]) == Mul(Share(s, b), s.densities[a])
  {
    var t, x, y := s.total, s.densities[a], s.densities[b];
    hide SumOf;
    Crossed(x.re, y.re, t);
    Crossed(x.im, y.im, t);
    Crossed(x.re, y.im, t);
    Crossed(x.im, y.re, t);
  }

  lemma {:induction false} Crossed(x: real, y: real, t: real)
    requires t != 0.0
    ensures (x / t) * y == (y / t) * x
  {
    var i := 1.0 / t;
    Reciprocal(x, t, i);
    Reciprocal(y, t, i);
  }

  lemma {:induction false} Quotients(x: real, y: real, t: real)
    requires t != 0.0 && x == t
    ensures x / t == 1.0 && (y / t == 0.0 <==> y == 0.0)
  {
    assert (y / t) * t == y;
  }

  ghost predicate SameSize(peaks: seq<Peak>, n: nat) {
    forall m | 0 <= m < |peaks| :: peaks[m].n == n
  }

  lemma {:induction false} AppliedWeight<Rng>(
    f: Functions, pow10: real -> real, sampler: (nat, Option<real>, seq<Peak>, Rng) -> (Sample, Rng), kind: Kind, modes: seq<nat>, params: seq<real>,
    peaks: seq<Peak>, n: nat)
    requires SameSize(peaks, n)
    ensures var next := ApplyToAll(GaussianKernel(f, pow10, sampler), kind, modes, params, peaks);
      SameSize(next, n) && |next| == |peaks| && Coeffs(next) == Coeffs(peaks)
  {
    hide Operate;
    var k := GaussianKernel(f, pow10, sampler);
    var next := ApplyToAll(k, kind, modes, params, peaks);
    forall m | 0 <= m < |peaks| ensures next[m].n == n && next[m].coeff == peaks[m].coeff {
      assert next[m] == Operate(f, pow10, kind, modes, params, peaks[m]);
    }
  }

  lemma {:induction false} RotatedWeight<Rng>(
    f: Functions, pow10: real -> real, sampler: (nat, Option<real>, seq<Peak>, Rng) -> (Sample, Rng), op: Op, peaks: seq<Peak>, n: nat)
    requires SameSize(peaks, n)
    ensures var next := Rotated(GaussianKernel(f, pow10, sampler), op, peaks);
      SameSize(next, n) && |next| == |peaks| && Coeffs(next) == Coeffs(peaks)
  {
    hide Operate, ApplyToAll, SameSize;
    if op.kind == HomodyneSingleMode && op.params != [] {
      AppliedWeight(f, pow10, sampler, PhaseRotation, [Mode(op)], [op.params[0] - f.halfPi], peaks, n);
    }
  }

  lemma {:induction false} SelectedWeight<Rng>(
    f: Functions, pow10: real -> real, sampler: (nat, Option<real>, seq<Peak>, Rng) -> (Sample, Rng), mode: nat, s: Sample, peaks: seq<Peak>, n: nat)
    requires SameSize(peaks, n)
    ensures var next := SelectAll(GaussianKernel(f, pow10, sampler), mode, s, peaks);
      SameSize(next, n) && |next| == |peaks| && Coeffs(next) == if mode < n then Shares(s, |peaks|) else Coeffs(peaks)
  {
    hide Observed;
    var k := GaussianKernel(f, pow10, sampler);
    var next := SelectAll(k, mode, s, peaks);
    forall m | 0 <= m < |peaks|
      ensures next[m].n == n && next[m].coeff == if mode < n then Share(s, m) else peaks[m].coeff
    {
      assert next[m] == PostSelected(mode, s, m, peaks[m]);
      ObservedParts(mode, s.value, Share(s, m), peaks[m]);
    }
    hide Share;
  }

  lemma {:induction false} ObservedParts(mode: nat, value: real, coeff: Complex, g: Peak)
    ensures Observed(mode, value, coeff, g).n == g.n && Observed(mode, value, coeff, g).coeff == coeff
  {
  }

  /** The part of the state the weight depends on. */
  ghost predicate Weighed(peaks: seq<Peak>, n: nat) {
    peaks != [] && SameSize(peaks, n) && TotalCoeff(peaks).re == 1.0
  }

  lemma {:induction false} StepWeight<Rng(!new)>(
    f: Functions, pow10: real -> real, sampler: (nat, Option<real>, seq<Peak>, Rng) -> (Sample, Rng), ffs: seq<FeedForward>,
    e: Exec<Peak, Rng>, i: nat, next: Exec<Peak, Rng>, n: nat)
    requires ReportsDensities(sampler) && Weighed(e.peaks, n) && i < |e.ops| && Steps(GaussianKernel(f, pow10, sampler), ffs, e, i, next)
    ensures Weighed(next.peaks, n)
  {
    var k, op := GaussianKernel(f, pow10, sampler), e.ops[i];
    if IsMeasurement(op.kind) {
      var rotated := Rotated(k, op, e.peaks);
      var s := sampler(Mode(op), op.Selection(), rotated, e.rng).0;
      assert next.peaks == SelectAll(k, Mode(op), s, rotated);
      RotatedWeight(f, pow10, sampler, op, e.peaks, n);
      assert Reports(s, |rotated|);
      hide Reports, ReportsDensities, Steps, GaussianKernel, SumOf, Rotated;
      SelectedWeight(f, pow10, sampler, Mode(op), s, rotated, n);
      SharesTotal(s, |rotated|);
    } else {
      assert next.peaks == ApplyToAll(k, op.kind, op.modes, op.Effective(), e.peaks);
      hide ReportsDensities, Steps, GaussianKernel, SumOf;
      AppliedWeight(f, pow10, sampler, op.kind, op.modes, op.Effective(), e.peaks, n);
    }
  }

  /** Gates leave the weights alone and measurements renormalise them: once the real part of the total
      weight is one, it stays one in every state the run reaches. */
  lemma {:induction false} WeightConserved<Rng(!new)>(
    f: Functions, pow10: real -> real, sampler: (nat, Option<real>, seq<Peak>, Rng) -> (Sample, Rng), ffs: seq<FeedForward>,
    s: Exec<Peak, Rng>, i: nat, n: nat)
    requires ReportsDensities(sampler) && Weighed(s.peaks, n) && i <= |s.ops|
    requires Run(GaussianKernel(f, pow10, sampler), ffs, s, 0, i).Some?
    ensures Weighed(Run(GaussianKernel(f, pow10, sampler), ffs, s, 0, i).value.peaks, n)
  {
    hide ReportsDensities, Weighed, GaussianKernel, Steps;
    var k := GaussianKernel(f, pow10, sampler);
    if i > 0 {
      RunShapes(k, ffs, s, i);
      RunShapes(k, ffs, s, i - 1);
      WeightConserved(f, pow10, sampler, ffs, s, i - 1, n);
      StepWeight(f, pow10, sampler, ffs, Run(k, ffs, s, 0, i - 1).value, i - 1, Run(k, ffs, s, 0, i).value, n);
    }
  }

  ghost predicate IsProduct(modes: seq<seq<SinglePeak>>, peaks: seq<Peak>) {
    |peaks| == Count(modes) && forall i | 0 <= i < |peaks| :: peaks[i] == Assembled(Combination(modes, i))
  }

  lemma {:induction false} AssembledSize(c: seq<SinglePeak>)
    ensures Assembled(c).n == |c|
  {
  }

  lemma {:induction false} ProductCoeffs(modes: seq<seq<SinglePeak>>, peaks: seq<Peak>)
    requires IsProduct(modes, peaks)
    ensures SameSize(peaks, |modes|) && TotalCoeff(peaks) == Total(WeightAt(CoeffOf(), modes), Count(modes))
  {
    hide Count, Combination, Assembled, WeightAt;
    var c := Coeffs(peaks);
    var f := (i: int) => if 0 <= i < |c| then c[i] else ZERO;
    forall i | 0 <= i < |peaks| ensures f(i) == WeightAt(CoeffOf(), modes)(i) && peaks[i].n == |modes| {
      ProductWeight(modes, i);
      AssembledSize(Combination(modes, i));
      assert |Combination(modes, i)| == |modes| by { CombinationSize(modes, i); }
    }
    TotalEq(f, WeightAt(CoeffOf(), modes), |peaks|);
  }

  lemma {:induction false} CombinationSize(modes: seq<seq<SinglePeak>>, i: nat)
    requires i < Count(modes)
    ensures |Combination(modes, i)| == |modes|
  {
    hide Count, Digits;
  }

  /** The product of modes whose weights sum to one is such a state. */
  lemma {:induction false} ProductWeighed(modes: seq<seq<SinglePeak>>, peaks: seq<Peak>)
    requires Count(modes) >= 1 && IsProduct(modes, peaks)
    requires forall k | 0 <= k < |modes| :: Total(PeakWeights(CoeffOf(), modes[k]), |modes[k]|) == ONE
    ensures Weighed(peaks, |modes|) && TotalCoeff(peaks) == ONE
  {
    hide Total, Count, WeightAt, PeakWeights, TotalCoeff, SameSize, IsProduct, CoeffOf;
    UnitWeights(CoeffOf(), modes);
    ProductCoeffs(modes, peaks);
    assert peaks != [] by { ProductLength(modes, peaks); }
  }

  lemma {:induction false} ProductLength(modes: seq<seq<SinglePeak>>, peaks: seq<Peak>)
    requires IsProduct(modes, peaks)
    ensures |peaks| == Count(modes)
  {
    hide Count, Combination, Assembled;
  }

  // ----- cat states -----

  /** The weights of the four peaks of a cat state: overlap is exp(-2 |alpha|^2), c and s the cosine and sine of pi times the parity. */
  function CatWeights(overlap: real, c: real, s: real): seq<Complex> {
    var n := Quotient(0.5, 1.0 + overlap * c);
    var z := Complex((overlap * n) * c, -((overlap * n) * s));
    [Complex(n, 0.0), Complex(n, 0.0), z, Complex(z.re, -z.im)]
  }

  function Conjugate(z: Complex): Complex { Complex(z.re, -z.im) }

  function Scaled(r: real, z: Complex): Complex { Complex(r * z.re, r * z.im) }

  /** The trace of the superposition of two states of this overlap with amplitudes 1 and c + i s. */
  function CatTrace(overlap: real, c: real): real { 2.0 * (1.0 + overlap * c) }

  /** The weights of a cat state are those of the superposition of two coherent states of this overlap with
      amplitudes 1 and u: its four peaks are the terms of the density matrix, and each has the trace of its
      term as its weight, over the trace of them all. */
  ghost predicate IsSuperposition(w: seq<Complex>, overlap: real, u: Complex, trace: real) {
    && |w| == 4
    && var (first, second, mixed, conjugate) := (w[0], w[1], w[2], w[3]);
       && Scaled(trace, first) == Mul(ONE, Conjugate(ONE)) && Scaled(trace, second) == Mul(u, Conjugate(u))
       && Scaled(trace, mixed) == Scaled(overlap, Mul(ONE, Conjugate(u))) && Scaled(trace, conjugate) == Scaled(overlap, Mul(u, Conjugate(ONE)))
  }

  lemma {:induction false} CatIsSuperposition(overlap: real, c: real, s: real)
    requires c * c + s * s == 1.0 && CatTrace(overlap, c) != 0.0
    ensures IsSuperposition(CatWeights(overlap, c, s), overlap, Complex(c, s), CatTrace(overlap, c))
  {
    hide *;
    UnitProducts(Complex(c, s));
    ModulusOne(c, s);
    TraceInverse(overlap, c);
    CatEntries(overlap, c, s, Quotient(0.5, 1.0 + overlap * c), CatTrace(overlap, c));
    Superposes(CatWeights(overlap, c, s), overlap, Complex(c, s), CatTrace(overlap, c));
  }

  lemma {:induction false} Superposes(w: seq<Complex>, overlap: real, u: Complex, trace: real)
    requires |w| == 4 && Scaled(trace, w[0]) == ONE && Scaled(trace, w[1]) == ONE
    requires Scaled(trace, w[2]) == Scaled(overlap, Conjugate(u)) && Scaled(trace, w[3]) == Scaled(overlap, u)
    requires Mul(ONE, Conjugate(ONE)) == ONE && Mul(ONE, Conjugate(u)) == Conjugate(u) && Mul(u, Conjugate(ONE)) == u && Mul(u, Conjugate(u)) == ONE
    ensures IsSuperposition(w, overlap, u, trace)
  {
    hide Scaled, Mul, Conjugate;
  }

  lemma {:induction false} TraceInverse(overlap: real, c: real)
    requires CatTrace(overlap, c) != 0.0
    ensures CatTrace(overlap, c) * Quotient(0.5, 1.0 + overlap * c) == 1.0
  {
    var d := 1.0 + overlap * c;
    assert d != 0.0 && CatTrace(overlap, c) == 2.0 * d;
    var n := Quotient(0.5, d);
    assert n * d == 0.5;
  }

  lemma {:induction false} UnitProducts(u: Complex)
    ensures Mul(ONE, Conjugate(ONE)) == ONE && Mul(ONE, Conjugate(u)) == Conjugate(u) && Mul(u, Conjugate(ONE)) == u
  {
    hide Mul, Conjugate;
    ConjugateOne();
    Units(ONE);
    Units(u);
    Units(Conjugate(u));
  }

  lemma {:induction false} ConjugateOne()
    ensures Conjugate(ONE) == ONE
  {
  }

  lemma {:induction false} ModulusOne(c: real, s: real)
    requires c * c + s * s == 1.0
    ensures Mul(Complex(c, s), Conjugate(Complex(c, s))) == ONE
  {
    var t := -s;
    assert s * t == -(s * s) && c * t == -(c * s);
  }

  lemma {:induction false} CatEntries(overlap: real, c: real, s: real, n: real, trace: real)
    requires n == Quotient(0.5, 1.0 + overlap * c) && trace * n == 1.0
    ensures var w, u := CatWeights(overlap, c, s), Complex(c, s);
      && |w| == 4 && Scaled(trace, w[0]) == ONE && Scaled(trace, w[1]) == ONE
      && Scaled(trace, w[2]) == Scaled(overlap, Conjugate(u)) && Scaled(trace, w[3]) == Scaled(overlap, u)
  {
    hide *;
    var k, l := (overlap * n) * c, (overlap * n) * s;
    CatTerm(trace, n, overlap, c);
    CatTerm(trace, n, overlap, s);
    CatWeightsAre(overlap, c, s, n, k, l);
    ConjugateIs(c, s);
    ScaledPair(trace, k, l);
    ScaledPair(overlap, c, s);
    ScaledPair(trace, n, 0.0);
  }

  lemma {:induction false} CatWeightsAre(overlap: real, c: real, s: real, n: real, k: real, l: real)
    requires n == Quotient(0.5, 1.0 + overlap * c) && k == (overlap * n) * c && l == (overlap * n) * s
    ensures CatWeights(overlap, c, s) == [Complex(n, 0.0), Complex(n, 0.0), Complex(k, -l), Complex(k, l)]
  {
    hide Quotient;
    var w := CatWeights(overlap, c, s);
    assert w[2] == Complex(k, -l) && w[3] == Complex(k, l);
  }

  lemma {:induction false} ConjugateIs(c: real, s: real)
    ensures Conjugate(Complex(c, s)) == Complex(c, -s) && ONE == Complex(1.0, 0.0)
  {
  }

  lemma {:induction false} ScaledPair(r: real, x: real, y: real)
    ensures Scaled(r, Complex(x, -y)) == Complex(r * x, -(r * y)) && Scaled(r, Complex(x, y)) == Complex(r * x, r * y)
    ensures Scaled(r, Complex(x, 0.0)) == Complex(r * x, 0.0)
  {
  }

  lemma {:induction false} CatTerm(trace: real, n: real, overlap: real, c: real)
    requires trace * n == 1.0
    ensures trace * ((overlap * n) * c) == overlap * c
  {
    assert trace * ((overlap * n) * c) == (trace * n) * (overlap * c);
  }

  lemma {:induction false} CatNormalised(overlap: real, c: real, s: real)
    requires 1.0 + overlap * c != 0.0
    ensures SumOf(CatWeights(overlap, c, s)) == ONE
  {
    var w, n := CatWeights(overlap, c, s), Quotient(0.5, 1.0 + overlap * c);
    assert n * (1.0 + overlap * c) == 0.5;
    assert n + (overlap * n) * c == 0.5;
    SumOfFour(w[0], w[1], w[2], w[3]);
    hide SumOf;
  }

  lemma {:induction false} SumOfFour(a: Complex, b: Complex, c: Complex, d: Complex)
    ensures SumOf([a, b, c, d]) == Complex(a.re + b.re + c.re + d.re, a.im + b.im + c.im + d.im)
  {
    var s := [a, b, c, d];
    SumOfNothing();
    SumOfMore([], a);
    SumOfMore([a], b);
    SumOfMore([a, b], c);
    SumOfMore([a, b, c], d);
    hide SumOf;
    assert [] + [a] == [a] && [a] + [b] == [a, b] && [a, b] + [c] == [a, b, c] && [a, b, c] + [d] == s;
  }
}
