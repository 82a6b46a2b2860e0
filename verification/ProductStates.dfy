/** The initial state of a simulation: one peak per combination of the modes' peaks. */
module ProductStates {
  import opened Operations
  import opened Sums
  import opened Conditioning
  import opened PartialUpdate
  import opened Replacement
  import opened DirectProduct
  import opened Weights
  import opened GaussianPeaks
  import ThreadChunks

  datatype SinglePeak = SinglePeak(coeff: Complex, x: Complex, p: Complex, cov: Mat2)

  /** The covariance of uncorrelated modes: entry (i, j). */
  function BlockEntry(c: seq<SinglePeak>, i: int, j: int): real {
    var n := |c|;
    if 0 <= i < n then (if j == i then c[i].cov.a else if j == i + n then c[i].cov.b else 0.0)
    else if n <= i < 2 * n then (if j == i - n then c[i - n].cov.c else if j == i then c[i - n].cov.d else 0.0)
    else 0.0
  }

  function MeanEntryOf(c: seq<SinglePeak>, i: int): Complex {
    var n := |c|;
    if 0 <= i < n then c[i].x else if n <= i < 2 * n then c[i - n].p else Complex(0.0, 0.0)
  }

  function BlockCov(c: seq<SinglePeak>): Matrix { (i: int, j: int) => BlockEntry(c, i, j) }

  function CoeffOf(): SinglePeak -> Complex { (p: SinglePeak) => p.coeff }

  /** The peak of several modes. */
  function Assembled(c: seq<SinglePeak>): Peak {
    Peak(|c|, Weight(CoeffOf(), c), (i: int) => MeanEntryOf(c, i).re, (i: int) => MeanEntryOf(c, i).im, BlockCov(c))
  }

  /** The constructor of `MultiModeSinglePeak`. */
  method Assemble(c: seq<SinglePeak>) returns (coeff: Complex, mean: array<Complex>, cov: array2<real>)
    ensures fresh(mean) && fresh(cov) && mean.Length == 2 * |c| && cov.Length0 == cov.Length1 == 2 * |c|
    ensures coeff == Assembled(c).coeff
    ensures forall i | 0 <= i < mean.Length :: mean[i] == Complex(Assembled(c).re(i), Assembled(c).im(i))
    ensures forall i, j | 0 <= i < 2 * |c| && 0 <= j < 2 * |c| :: cov[i, j] == Assembled(c).cov(i, j)
  {
    var n := |c|;
    coeff := ONE;
    for k := 0 to n
      invariant coeff == Weight(CoeffOf(), c[..k])
    {
      assert c[..k + 1][..k] == c[..k];
      coeff := Mul(coeff, c[k].coeff);
    }
    assert c[..n] == c;
    mean := new Complex[2 * n](_ => Complex(0.0, 0.0));
    cov := new real[2 * n, 2 * n]((_, _) => 0.0);
    hide Weight, Mul;
    for mode := 0 to n
      invariant forall i | 0 <= i < 2 * n :: mean[i] == if i < mode || n <= i < n + mode then MeanEntryOf(c, i) else Complex(0.0, 0.0)
      invariant forall i, j | 0 <= i < 2 * n && 0 <= j < 2 * n :: cov[i, j] == if i < mode || n <= i < n + mode then BlockEntry(c, i, j) else 0.0
    {
      var p := mode + n;
      mean[mode], mean[p] := c[mode].x, c[mode].p;
      cov[mode, mode], cov[mode, p], cov[p, mode], cov[p, p] := c[mode].cov.a, c[mode].cov.b, c[mode].cov.c, c[mode].cov.d;
    }
  }

  // ----- positive definite -----

  function HalfIdentity(): Matrix { (i: int, j: int) => if i == j then 0.5 else 0.0 }

  lemma {:induction false} HalfIdentityPositive(n: nat)
    ensures Symmetric(HalfIdentity(), n) && PositiveDefinite(HalfIdentity(), n)
  {
    var a := HalfIdentity();
    forall v: Vector | NonZero(v, n) ensures Form(a, v, n) > 0.0 {
      forall i: nat | i < n ensures FormTerms(a, v, n)(i) >= 0.0 && (v(i) != 0.0 ==> FormTerms(a, v, n)(i) > 0.0) {
        HalfTerm(v, n, i);
      }
      hide Row, FormTerms;
      SumNonNegative(FormTerms(a, v, n), n);
    }
  }

  lemma {:induction false} HalfTerm(v: Vector, n: nat, i: nat)
    requires i < n
    ensures FormTerms(HalfIdentity(), v, n)(i) >= 0.0 && (v(i) != 0.0 ==> FormTerms(HalfIdentity(), v, n)(i) > 0.0)
  {
    var a, e := HalfIdentity(), v(i);
    SumOne(RowTerms(a, v, i), n, i);
    assert Row(a, v, n, i) == 0.5 * e;
    hide Row, Sum, HalfIdentity;
    var s := FormTerms(a, v, n)(i);
    HalfSquare(e, s);
  }

  lemma {:induction false} HalfSquare(e: real, s: real)
    requires s == e * (0.5 * e)
    ensures s >= 0.0 && (e != 0.0 ==> s > 0.0)
  {
    assert s == 0.5 * (e * e);
    Square(e, s);
  }

  /** The blocks of the first k modes; hbar / 2 elsewhere. */
  function Partial(c: seq<SinglePeak>, k: nat): Matrix {
    (i: int, j: int) => if (0 <= i < k && i < |c|) || (|c| <= i < |c| + k) then BlockEntry(c, i, j) else if i == j then 0.5 else 0.0
  }

  lemma {:induction false} SamePositive(a: Matrix, b: Matrix, n: nat)
    requires SameMatrix(a, b, n) && Symmetric(a, n) && PositiveDefinite(a, n)
    ensures Symmetric(b, n) && PositiveDefinite(b, n)
  {
    forall v: Vector | NonZero(v, n) ensures Form(b, v, n) > 0.0 {
      hide Form;
      FormEq(a, b, v, v, n);
    }
    hide Form, NonZero;
  }

  lemma {:induction false} PartialUncorrelated(c: seq<SinglePeak>, k: nat, m: nat)
    requires k <= |c| && m < |c|
    ensures Uncorrelated(Partial(c, k), 2 * |c|, m, m + |c|)
  {
  }

  lemma {:induction false} PartialStep(c: seq<SinglePeak>, k: nat)
    requires k < |c|
    ensures SameMatrix(Replaced(Partial(c, k), k, k + |c|, c[k].cov), Partial(c, k + 1), 2 * |c|)
  {
  }

  lemma {:induction false} PartialPositive(c: seq<SinglePeak>, k: nat)
    requires k <= |c| && forall m | 0 <= m < |c| :: Positive2(c[m].cov)
    ensures Symmetric(Partial(c, k), 2 * |c|) && PositiveDefinite(Partial(c, k), 2 * |c|)
  {
    var n := 2 * |c|;
    if k == 0 {
      HalfIdentityPositive(n);
      assert SameMatrix(HalfIdentity(), Partial(c, 0), n);
      hide Symmetric, PositiveDefinite, SameMatrix;
      SamePositive(HalfIdentity(), Partial(c, 0), n);
    } else {
      hide Symmetric, PositiveDefinite, SameMatrix, Partial, Replaced, Uncorrelated, Positive2;
      PartialPositive(c, k - 1);
      PartialUncorrelated(c, k - 1, k - 1);
      PartialStep(c, k - 1);
      var next := Replaced(Partial(c, k - 1), k - 1, k - 1 + |c|, c[k - 1].cov);
      ReplacedPositive(Partial(c, k - 1), n, k - 1, k - 1 + |c|, c[k - 1].cov);
      SamePositive(next, Partial(c, k), n);
    }
  }

  function AllModes(n: nat): (s: set<nat>)
    ensures forall m: nat :: m in s <==> m < n
  {
    if n == 0 then {} else AllModes(n - 1) + {n - 1}
  }

  lemma {:induction false} SeparateModes(c: seq<SinglePeak>, m: nat)
    ensures Separate(Assembled(c), m)
  {
  }

  /** A peak made of positive definite blocks is positive definite, and all its modes are separate. */
  lemma {:induction false} AssembledSound(c: seq<SinglePeak>)
    requires forall m | 0 <= m < |c| :: Positive2(c[m].cov)
    ensures Sound(Assembled(c), |c|, AllModes(|c|))
  {
    var n := 2 * |c|;
    assert SameMatrix(Partial(c, |c|), BlockCov(c), n);
    hide Symmetric, PositiveDefinite, SameMatrix, Partial, Separate, Positive2;
    PartialPositive(c, |c|);
    SamePositive(Partial(c, |c|), BlockCov(c), n);
    forall m | m in AllModes(|c|) ensures Separate(Assembled(c), m) {
      SeparateModes(c, m);
    }
  }

  // ----- the state -----

  /** The work of one thread. */
  method ConstructChunk(combinations: array<seq<SinglePeak>>, peaks: array<Peak>, first: nat, last: nat)
    requires first <= last <= peaks.Length == combinations.Length
    modifies peaks
    ensures forall i | 0 <= i < peaks.Length :: peaks[i] == if first <= i < last then Assembled(combinations[i]) else old(peaks[i])
  {
    hide Assembled;
    for j := first to last
      invariant forall i | 0 <= i < peaks.Length :: peaks[i] == if first <= i < j then Assembled(combinations[i]) else old(peaks[i])
    {
      peaks[j] := Assembled(combinations[j]);
    }
  }

  /** The constructor of `State`: enumerates the combinations, then assembles the peaks chunk by chunk. */
  method ConstructState(modes: seq<seq<SinglePeak>>, maxThreads: nat) returns (peaks: array<Peak>)
    requires Count(modes) >= 1 && maxThreads >= 1
    ensures fresh(peaks) && peaks.Length == Count(modes)
    ensures forall i | 0 <= i < peaks.Length :: peaks[i] == Assembled(Combination(modes, i))
  {
    var combinations := AllCombinations(modes);
    var n := combinations.Length;
    peaks := new Peak[n](_ => Assembled([]));
    hide Count, Combination, Assembled;
    var bounds, _ := ThreadChunks.Chunks(n, maxThreads);
    for t := 0 to |bounds|
      invariant forall i | 0 <= i < n :: combinations[i] == Combination(modes, i)
      invariant forall i | 0 <= i < n && t > 0 && i < bounds[t - 1].1 :: peaks[i] == Assembled(combinations[i])
    {
      if t + 1 < |bounds| {
        ThreadChunks.ChunksOrdered(bounds, n, t, |bounds| - 1);
      }
      ConstructChunk(combinations, peaks, bounds[t].0, bounds[t].1);
    }
  }

  ghost predicate PositiveBlocks(modes: seq<seq<SinglePeak>>) {
    forall k, i | 0 <= k < |modes| && 0 <= i < |modes[k]| :: Positive2(modes[k][i].cov)
  }

  /** Every peak of a product of positive definite peaks is positive definite, with all modes separate. */
  lemma {:induction false} ProductSound(modes: seq<seq<SinglePeak>>, i: nat)
    requires i < Count(modes) && PositiveBlocks(modes)
    ensures Sound(Assembled(Combination(modes, i)), |modes|, AllModes(|modes|))
  {
    var c := Combination(modes, i);
    assert |c| == |modes| && forall k | 0 <= k < |c| :: c[k] == modes[k][Digits(modes, i)[k]];
    hide Count, Combination, Positive2, Assembled, Sound, Digits;
    AssembledSound(c);
  }

  /** The weight of peak i of a product state. */
  lemma {:induction false} ProductWeight(modes: seq<seq<SinglePeak>>, i: nat)
    requires i < Count(modes)
    ensures Assembled(Combination(modes, i)).coeff == WeightAt(CoeffOf(), modes)(i)
  {
    hide Combination, Weight, Count;
  }

  /** One mode of a peak on its own: means and covariance. */
  function MarginalOf(g: Peak, mode: nat): (Complex, Complex, Mat2) {
    (Complex(g.re(mode), g.im(mode)), Complex(g.re(mode + g.n), g.im(mode + g.n)), BlockOf(g, mode))
  }

  lemma {:induction false} AssembledMarginal(c: seq<SinglePeak>, mode: nat)
    requires mode < |c|
    ensures MarginalOf(Assembled(c), mode) == (c[mode].x, c[mode].p, c[mode].cov)
  {
    hide Weight;
    var g := Assembled(c);
    assert MeanEntryOf(c, mode) == c[mode].x && MeanEntryOf(c, mode + |c|) == c[mode].p;
    assert BlockOf(g, mode).a == c[mode].cov.a && BlockOf(g, mode).b == c[mode].cov.b;
    assert BlockOf(g, mode).c == c[mode].cov.c && BlockOf(g, mode).d == c[mode].cov.d;
  }

  /** Any mode of peak i is the peak of that mode that digit `mode` of i stands for. */
  lemma {:induction false} ProductMarginal(modes: seq<seq<SinglePeak>>, i: nat, mode: nat)
    requires i < Count(modes) && mode < |modes|
    ensures Digits(modes, i)[mode] < |modes[mode]|
    ensures var peak := modes[mode][Digits(modes, i)[mode]];
      MarginalOf(Assembled(Combination(modes, i)), mode) == (peak.x, peak.p, peak.cov)
  {
    hide Count, Digits, Assembled, MarginalOf;
    AssembledMarginal(Combination(modes, i), mode);
  }

  /** One more mode multiplies the coefficient by that of its peak. */
  lemma {:induction false} CoefficientsMultiply(c: seq<SinglePeak>, peak: SinglePeak)
    ensures Assembled([]).coeff == ONE && Assembled(c + [peak]).coeff == Mul(Assembled(c).coeff, peak.coeff)
  {
    hide Mul;
    assert (c + [peak])[..|c|] == c;
    var w := CoeffOf();
    assert w(peak) == peak.coeff;
    MoreWeight(w, c, peak);
  }

  lemma {:induction false} MoreWeight<P>(w: P -> Complex, c: seq<P>, peak: P)
    ensures Weight(w, c + [peak]) == Mul(Weight(w, c), w(peak))
  {
    hide Mul;
    assert (c + [peak])[..|c|] == c;
  }
}
