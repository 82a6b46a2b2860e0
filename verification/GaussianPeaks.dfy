/** The Gaussian peaks of the simulator: what each operation does to one, and what it keeps. */
module GaussianPeaks {
  import opened Elementary
  import opened Operations
  import opened Engine
  import opened Points
  import opened Sums
  import opened Conditioning
  import opened Congruence
  import opened PartialUpdate
  import opened PostSelection
  import opened Replacement
  import opened GateMatrices

  /** A peak of n modes: its variables are x of mode 0, ..., n - 1, then p of mode 0, ..., n - 1. */
  datatype Peak = Peak(n: nat, coeff: Complex, re: Vector, im: Vector, cov: Matrix)

  /** What a homodyne measurement found: the value, the density of every peak there, and the real part of their sum. */
  datatype Sample = Sample(value: real, densities: seq<Complex>, total: real)

  function Shifted(v: Vector, x: int, dx: real, p: int, dp: real): Vector {
    (i: int) => if i == x then v(i) + dx else if i == p then v(i) + dp else v(i)
  }

  function Displaced(mode: nat, dx: real, dp: real, g: Peak): Peak {
    g.(re := Shifted(g.re, mode, dx, mode + g.n, dp))
  }

  function Gated(m: Matrix, idx: seq<nat>, g: Peak): Peak {
    var s := Embed(m, idx);
    g.(re := Image(s, g.re, 2 * g.n), im := Image(s, g.im, 2 * g.n), cov := Transformed(s, g.cov, 2 * g.n))
  }

  function Renewed(f: Functions, squeezing: real, phi: real, mode: nat, g: Peak): Peak {
    g.(re := Others(g.re, mode, mode + g.n), im := Others(g.im, mode, mode + g.n),
       cov := Replaced(g.cov, mode, mode + g.n, SqueezedCov(f, squeezing, phi)))
  }

  function Observed(mode: nat, value: real, coeff: Complex, g: Peak): Peak {
    Peak(g.n, coeff, ConditionalMean(g.cov, g.re, mode, mode + g.n, value), ConditionalMean(g.cov, g.im, mode, mode + g.n, 0.0),
         Conditional(g.cov, mode, mode + g.n))
  }

  /** A gate, a displacement or a replacement; pow10 is the power of ten. */
  function Operate(f: Functions, pow10: real -> real, kind: Kind, modes: seq<nat>, params: seq<real>, g: Peak): (r: Peak)
    ensures r.n == g.n && r.coeff == g.coeff
  {
    if !Applicable(kind, modes, params, g.n) then g
    else if kind == Displacement then Displaced(modes[0], params[0], params[1], g)
    else if IsMatrixGate(kind) then Gated(GateMatrix(f, kind, params), Indices(kind, modes, g.n), g)
    else if kind == ReplaceBySqueezedState then Renewed(f, pow10(params[0] * 0.1), params[1], modes[0], g)
    else g
  }

  /** The new coefficient of peak m: its share of the density found. */
  function Share(s: Sample, m: nat): Complex {
    if m < |s.densities| && s.total != 0.0 then Complex(s.densities[m].re / s.total, s.densities[m].im / s.total) else Complex(0.0, 0.0)
  }

  function PostSelected(mode: nat, s: Sample, m: nat, g: Peak): Peak {
    if mode < g.n then Observed(mode, s.value, Share(s, m), g) else g
  }

  /** The simulator's work on Gaussian peaks, for any deterministic sampler. */
  function GaussianKernel<Rng>(
    f: Functions, pow10: real -> real, sampler: (nat, Option<real>, seq<Peak>, Rng) -> (Sample, Rng)): Kernel<Peak, Rng, Sample>
  {
    Kernel(f.halfPi,
           (kind: Kind, modes: seq<nat>, params: seq<real>, g: Peak) => Operate(f, pow10, kind, modes, params, g),
           sampler,
           (s: Sample) => s.value,
           (mode: nat, s: Sample, m: nat, g: Peak) => PostSelected(mode, s, m, g))
  }

  // ----- real and imaginary parts -----

  function Exchanged(g: Peak): Peak { g.(re := g.im, im := g.re) }

  /** Every gate and replacement treats the imaginary parts of the means as it treats the real ones, and so does
      a post-selection, in which the value found is real. */
  lemma {:induction false} TreatedAlike(
    f: Functions, pow10: real -> real, kind: Kind, modes: seq<nat>, params: seq<real>, mode: nat, coeff: Complex, g: Peak)
    ensures kind != Displacement ==>
              Operate(f, pow10, kind, modes, params, Exchanged(g)) == Exchanged(Operate(f, pow10, kind, modes, params, g))
    ensures Observed(mode, 0.0, coeff, Exchanged(g)) == Exchanged(Observed(mode, 0.0, coeff, g))
  {
    hide Embed, GateMatrix, Indices;
  }

  // ----- what a peak keeps -----

  ghost predicate Positive(g: Peak) {
    Symmetric(g.cov, 2 * g.n) && PositiveDefinite(g.cov, 2 * g.n)
  }

  /** The covariance of one mode. */
  function BlockOf(g: Peak, mode: nat): Mat2 {
    Mat2(g.cov(mode, mode), g.cov(mode, mode + g.n), g.cov(mode + g.n, mode), g.cov(mode + g.n, mode + g.n))
  }

  /** Mode m is uncorrelated with all other modes. */
  ghost predicate Separate(g: Peak, m: nat) {
    m < g.n ==> Uncorrelated(g.cov, 2 * g.n, m, m + g.n)
  }

  ghost predicate Sound(g: Peak, n: nat, clear: set<nat>) {
    g.n == n && Positive(g) && forall m | m in clear :: Separate(g, m)
  }

  // ----- gates -----

  lemma {:induction false} OffDiagonalZero(m: Matrix, idx: seq<nat>, cov: Matrix, a: int, j: int)
    requires forall d | 0 <= d < |idx| :: cov(j, idx[d]) == 0.0
    ensures OffDiagonal(m, idx, cov, a, j) == 0.0
  {
    SumZero(OperatedTerms(m, idx, a, RowOf(cov, j)), |idx|);
  }

  /** An entry between the mode (x, p) and another variable stays zero. */
  lemma {:induction false} StaysZero(m: Matrix, idx: seq<nat>, cov: Matrix, n: nat, x: nat, p: nat, i: nat, j: nat)
    requires Operates(idx, n) && Symmetric(cov, n) && Uncorrelated(cov, n, x, p) && i < n && j < n
    requires (x !in idx && p !in idx) || idx == [x, p]
    requires i == x || i == p
    requires j != x && j != p
    ensures Transformed(Embed(m, idx), cov, n)(i, j) == 0.0 && Transformed(Embed(m, idx), cov, n)(j, i) == 0.0
  {
    UpdatedEntry(m, idx, cov, n, i, j);
    UpdatedEntry(m, idx, cov, n, j, i);
    hide Transformed, Embed, OffDiagonal, Operated, Symmetric;
    if idx == [x, p] {
      OffDiagonalZero(m, idx, cov, Position(idx, i), j);
    } else {
      forall d | 0 <= d < |idx| ensures cov(i, idx[d]) == 0.0 {
        assert idx[d] in idx;
      }
      OffDiagonalZero(m, idx, cov, Position(idx, j), i);
    }
  }

  lemma {:induction false} StaysUncorrelated(m: Matrix, idx: seq<nat>, cov: Matrix, n: nat, x: nat, p: nat)
    requires Operates(idx, n) && Symmetric(cov, n) && Uncorrelated(cov, n, x, p) && x < n && p < n
    requires (x !in idx && p !in idx) || idx == [x, p]
    ensures Uncorrelated(Transformed(Embed(m, idx), cov, n), n, x, p)
  {
    var t := Transformed(Embed(m, idx), cov, n);
    forall j | 0 <= j < n && j != x && j != p ensures t(x, j) == 0.0 && t(p, j) == 0.0 && t(j, x) == 0.0 && t(j, p) == 0.0 {
      StaysZero(m, idx, cov, n, x, p, x, j);
      StaysZero(m, idx, cov, n, x, p, p, j);
    }
  }

  /** The modes known to be separate after an operation: a measured mode is, a two-mode gate may correlate its modes. */
  function After(clear: set<nat>, kind: Kind, modes: seq<nat>): set<nat> {
    if IsBinaryGate(kind) && |modes| == 2 then clear - {modes[0], modes[1]}
    else if IsMeasurement(kind) && |modes| >= 1 then clear + {modes[0]}
    else clear
  }

  lemma {:induction false} GatePositive(f: Functions, kind: Kind, modes: seq<nat>, params: seq<real>, g: Peak)
    requires f.Lawful() && IsMatrixGate(kind) && Constructible(f, kind, modes, params) && Applicable(kind, modes, params, g.n) && Positive(g)
    ensures Positive(Gated(GateMatrix(f, kind, params), Indices(kind, modes, g.n), g))
  {
    hide f.Lawful, Constructible, Symmetric, PositiveDefinite, TransposeInjective, Transformed, Embed, GateMatrix, Indices, Applicable;
    var s := Embed(GateMatrix(f, kind, params), Indices(kind, modes, g.n)) by { ApplicableMeans(kind, modes, params, g.n); }
    GateInjective(f, kind, modes, params, g.n);
    TransformedPositive(s, g.cov, 2 * g.n);
    TransformedSymmetric(s, g.cov, 2 * g.n);
  }

  lemma {:induction false} ApplicableMeans(kind: Kind, modes: seq<nat>, params: seq<real>, n: nat)
    requires Applicable(kind, modes, params, n)
    ensures |modes| == ModeCount(kind) && ArityOk(kind, |params|)
  {
  }

  lemma {:induction false} GateSeparate(m: Matrix, kind: Kind, modes: seq<nat>, params: seq<real>, g: Peak, mode: nat)
    requires IsMatrixGate(kind) && Applicable(kind, modes, params, g.n) && Positive(g) && Separate(g, mode)
    requires IsBinaryGate(kind) ==> mode !in modes
    ensures Separate(Gated(m, Indices(kind, modes, g.n), g), mode)
  {
    var idx := Indices(kind, modes, g.n);
    IndicesOperate(kind, modes, params, g.n);
    if mode < g.n {
      assert (mode !in idx && mode + g.n !in idx) || idx == [mode, mode + g.n];
      hide Symmetric, PositiveDefinite, Uncorrelated, Operates, Transformed, Embed, Indices, Applicable;
      StaysUncorrelated(m, idx, g.cov, 2 * g.n, mode, mode + g.n);
    }
  }

  lemma {:induction false} StillClear(clear: set<nat>, kind: Kind, modes: seq<nat>, params: seq<real>, n: nat, mode: nat)
    requires IsMatrixGate(kind) && Applicable(kind, modes, params, n) && mode in After(clear, kind, modes)
    ensures mode in clear && (IsBinaryGate(kind) ==> mode !in modes)
  {
  }

  lemma {:induction false} GatedSeparate(m: Matrix, kind: Kind, modes: seq<nat>, params: seq<real>, g: Peak, n: nat, clear: set<nat>)
    requires IsMatrixGate(kind) && Applicable(kind, modes, params, n) && Sound(g, n, clear)
    ensures forall mode | mode in After(clear, kind, modes) :: Separate(Gated(m, Indices(kind, modes, n), g), mode)
  {
    assert Indices.requires(kind, modes, n);
    hide Positive, Separate, Indices, Gated, Applicable, After;
    forall mode | mode in After(clear, kind, modes) ensures Separate(Gated(m, Indices(kind, modes, n), g), mode) {
      StillClear(clear, kind, modes, params, n, mode);
      GateSeparate(m, kind, modes, params, g, mode);
    }
  }

  lemma {:induction false} GateSound(f: Functions, kind: Kind, modes: seq<nat>, params: seq<real>, g: Peak, n: nat, clear: set<nat>)
    requires f.Lawful() && IsMatrixGate(kind) && Constructible(f, kind, modes, params) && Applicable(kind, modes, params, n) && Sound(g, n, clear)
    ensures Sound(Gated(GateMatrix(f, kind, params), Indices(kind, modes, n), g), n, After(clear, kind, modes))
  {
    ApplicableMeans(kind, modes, params, n);
    hide f.Lawful, Constructible, Positive, Separate, GateMatrix, Indices, Gated, After, Applicable;
    GatePositive(f, kind, modes, params, g);
    GatedSeparate(GateMatrix(f, kind, params), kind, modes, params, g, n, clear);
    GatedSize(GateMatrix(f, kind, params), Indices(kind, modes, n), g);
  }

  lemma {:induction false} GatedSize(m: Matrix, idx: seq<nat>, g: Peak)
    ensures Gated(m, idx, g).n == g.n
  {
  }

  // ----- replacement and post-selection -----

  lemma {:induction false} RenewedSound(f: Functions, squeezing: real, phi: real, mode: nat, g: Peak, n: nat, clear: set<nat>)
    requires f.Lawful() && squeezing > 0.0 && Sound(g, n, clear) && mode in clear && mode < n
    ensures Sound(Renewed(f, squeezing, phi, mode, g), n, clear)
  {
    SqueezedPositive(f, squeezing, phi);
    assert Separate(g, mode);
    var block := SqueezedCov(f, squeezing, phi);
    hide f.Lawful, SqueezedCov, Positive2, Symmetric, PositiveDefinite;
    assert Positive(Renewed(f, squeezing, phi, mode, g)) by {
      hide Uncorrelated, Replaced;
      ReplacedPositive(g.cov, 2 * n, mode, mode + n, block);
    }
    hide Positive;
    forall m | m in clear ensures Separate(Renewed(f, squeezing, phi, mode, g), m) {
      assert Separate(g, m);
    }
  }

  lemma {:induction false} ConditionalUncorrelated(cov: Matrix, n: nat, x: nat, p: nat, y: nat, q: nat)
    requires y < n && q < n && x < n && p < n
    requires (y == x && q == p) || (Uncorrelated(cov, n, y, q) && y != x && y != p && q != x && q != p)
    ensures Uncorrelated(Conditional(cov, x, p), n, y, q)
  {
    forall j | 0 <= j < n {
      NoFraction(cov(j, x), cov(x, x));
    }
    hide Fraction;
  }

  lemma {:induction false} ObservedSound(mode: nat, value: real, coeff: Complex, g: Peak, n: nat, clear: set<nat>)
    requires Sound(g, n, clear) && mode < n
    ensures Sound(Observed(mode, value, coeff, g), n, clear + {mode})
  {
    assert Positive(Observed(mode, value, coeff, g)) by {
      hide Symmetric, PositiveDefinite, Conditional;
      ConditionalPositive(g.cov, 2 * n, mode, mode + n);
    }
    hide Positive, Conditional, Uncorrelated;
    forall m | m in clear + {mode} ensures Separate(Observed(mode, value, coeff, g), m) {
      if m < n {
        if m != mode { assert Separate(g, m); }
        ConditionalUncorrelated(g.cov, 2 * n, mode, mode + n, m, m + n);
      }
    }
  }

  lemma {:induction false} DisplacedSound(mode: nat, dx: real, dp: real, g: Peak, n: nat, clear: set<nat>)
    requires Sound(g, n, clear)
    ensures Sound(Displaced(mode, dx, dp, g), n, clear)
  {
    var d := Displaced(mode, dx, dp, g);
    assert d.cov == g.cov;
    hide Symmetric, PositiveDefinite, Uncorrelated;
    forall m | m in clear ensures Separate(d, m) {
      assert Separate(g, m);
    }
  }

  /** A gate, displacement or replacement keeps a peak positive definite, if the mode a replacement
      discards is separate. */
  lemma {:induction false} OperateSound(
    f: Functions, pow10: real -> real, kind: Kind, modes: seq<nat>, params: seq<real>, g: Peak, n: nat, clear: set<nat>)
    requires f.Lawful() && (forall y :: pow10(y) > 0.0) && Sound(g, n, clear) && !IsMeasurement(kind)
    requires IsMatrixGate(kind) ==> Constructible(f, kind, modes, params)
    requires kind == ReplaceBySqueezedState && |modes| == 1 ==> modes[0] in clear
    ensures Sound(Operate(f, pow10, kind, modes, params, g), n, After(clear, kind, modes))
  {
    if !Applicable(kind, modes, params, n) {
      Fewer(g, n, clear, After(clear, kind, modes));
    } else if kind == Displacement {
      DisplacedSound(modes[0], params[0], params[1], g, n, clear);
    } else if IsMatrixGate(kind) {
      hide f.Lawful, Constructible, Positive, Separate, GateMatrix, Indices, Gated;
      GateSound(f, kind, modes, params, g, n, clear);
    } else {
      RenewedSound(f, pow10(params[0] * 0.1), params[1], modes[0], g, n, clear);
    }
  }

  lemma {:induction false} Fewer(g: Peak, n: nat, clear: set<nat>, fewer: set<nat>)
    requires Sound(g, n, clear) && fewer <= clear
    ensures Sound(g, n, fewer)
  {
    hide Positive, Separate;
  }
}
