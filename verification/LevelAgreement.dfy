/** The squeezing level of the graph's measurements, against the covariance of the machinery's resource modes. */
module LevelAgreement {
  import opened Elementary
  import opened Operations
  import opened Sums
  import opened Replacement
  import opened GaussianPeaks
  import opened Readout

  /** The four resource modes of a macronode: b1 and d1 are squeezed in x, a and c in p. */
  datatype Resources = Resources(b1: nat, d1: nat, a: nat, c: nat) {
    predicate Within(n: nat) {
      b1 < n && d1 < n && a < n && c < n && b1 != d1 && b1 != a && b1 != c && d1 != a && d1 != c && a != c
    }
  }

  /** The weights of x of b1 and d1 and of p of a and c, among the variables of n modes. */
  function Weights(r: Resources, n: nat, w: Vec4): Vector {
    (i: int) => if i == r.b1 then w.x0 else if i == r.d1 then w.x1 else if i == r.a + n then w.p0 else if i == r.c + n then w.p1 else 0.0
  }

  function Product(w: Vector, v: Vector): Vector { (i: int) => w(i) * v(i) }

  /** The four modes of g are uncorrelated with all others, with the blocks their replacements gave them. */
  ghost predicate AreFresh(f: Functions, pow10: real -> real, level: real, g: Peak, r: Resources) {
    && r.Within(g.n)
    && Separate(g, r.b1) && Separate(g, r.d1) && Separate(g, r.a) && Separate(g, r.c)
    && g.cov(r.b1, r.b1) == g.cov(r.d1, r.d1) == SqueezedCov(f, pow10(level * 0.1), 0.0).a
    && g.cov(r.a + g.n, r.a + g.n) == g.cov(r.c + g.n, r.c + g.n) == SqueezedCov(f, pow10(level * 0.1), f.halfPi).d
  }

  /** A sum over all variables of something that is zero except at the four. */
  lemma {:induction false} FourSpikes(r: Resources, n: nat, t: Vector)
    requires r.Within(n)
    requires forall i | 0 <= i < 2 * n && i != r.b1 && i != r.d1 && i != r.a + n && i != r.c + n :: t(i) == 0.0
    ensures Sum(t, 2 * n) == t(r.b1) + t(r.d1) + t(r.a + n) + t(r.c + n)
  {
    var b, d, a, c := Spike(r.b1, t(r.b1)), Spike(r.d1, t(r.d1)), Spike(r.a + n, t(r.a + n)), Spike(r.c + n, t(r.c + n));
    SumEq(t, Added(Added(b, d), Added(a, c)), 2 * n);
    SumAdded(Added(b, d), Added(a, c), 2 * n);
    SumAdded(b, d, 2 * n);
    SumAdded(a, c, 2 * n);
    SumOne(b, 2 * n, r.b1);
    SumOne(d, 2 * n, r.d1);
    SumOne(a, 2 * n, r.a + n);
    SumOne(c, 2 * n, r.c + n);
  }

  /** The weighted variables. */
  lemma {:induction false} WeightsApply(r: Resources, n: nat, w: Vec4, v: Vector)
    requires r.Within(n)
    ensures Sum(Product(Weights(r, n, w), v), 2 * n) == Dot4(w, Vec4(v(r.b1), v(r.d1), v(r.a + n), v(r.c + n)))
  {
    FourSpikes(r, n, Product(Weights(r, n, w), v));
  }

  /** The quadratic form at weights that only meet uncorrelated variables of one variance. */
  lemma {:induction false} UncorrelatedForm(cov: Matrix, w: Vector, n: nat, v: real)
    requires forall i, j | 0 <= i < n && 0 <= j < n && i != j && w(i) != 0.0 && w(j) != 0.0 :: cov(i, j) == 0.0
    requires forall i | 0 <= i < n && w(i) != 0.0 :: cov(i, i) == v
    ensures Form(cov, w, n) == v * Sum(Product(w, w), n)
  {
    hide Row;
    forall i: nat | i < n ensures FormTerms(cov, w, n)(i) == Scaled(v, Product(w, w))(i) {
      if w(i) != 0.0 {
        OneVariable(cov, w, n, v, i);
        Square(w(i), v);
      }
    }
    SumEq(FormTerms(cov, w, n), Scaled(v, Product(w, w)), n);
    SumScaled(v, Product(w, w), n);
  }

  lemma {:induction false} OneVariable(cov: Matrix, w: Vector, n: nat, v: real, i: nat)
    requires forall j | 0 <= j < n && i != j && w(j) != 0.0 :: cov(i, j) == 0.0
    requires i < n && cov(i, i) == v
    ensures Row(cov, w, n, i) == v * w(i)
  {
    SumOne(RowTerms(cov, w, i), n, i);
  }

  lemma {:induction false} Square(w: real, v: real)
    ensures w * (v * w) == v * (w * w)
  {
  }

  /** The four variables have one variance, and no two of them are correlated. */
  lemma {:induction false} FreshSparse(f: Functions, pow10: real -> real, level: real, g: Peak, r: Resources, w: Vec4, v: real)
    requires AreFresh(f, pow10, level, g, r)
    requires SqueezedCov(f, pow10(level * 0.1), 0.0).a == v && SqueezedCov(f, pow10(level * 0.1), f.halfPi).d == v
    ensures r.Within(g.n)
    ensures var weights := Weights(r, g.n, w);
      && (forall i, j | 0 <= i < 2 * g.n && 0 <= j < 2 * g.n && i != j && weights(i) != 0.0 && weights(j) != 0.0 :: g.cov(i, j) == 0.0)
      && (forall i | 0 <= i < 2 * g.n && weights(i) != 0.0 :: g.cov(i, i) == v)
  {
    var weights := Weights(r, g.n, w);
    forall i, j | 0 <= i < 2 * g.n && 0 <= j < 2 * g.n && i != j && weights(i) != 0.0 && weights(j) != 0.0 ensures g.cov(i, j) == 0.0 {
      PairUncorrelated(g, r, i, j);
    }
    hide SqueezedCov, Separate;
  }

  predicate Chosen(r: Resources, n: nat, i: int) { i == r.b1 || i == r.d1 || i == r.a + n || i == r.c + n }

  lemma {:induction false} PairUncorrelated(g: Peak, r: Resources, i: nat, j: nat)
    requires r.Within(g.n) && Separate(g, r.b1) && Separate(g, r.d1) && Separate(g, r.a) && Separate(g, r.c)
    requires Chosen(r, g.n, i) && Chosen(r, g.n, j) && i != j
    ensures g.cov(i, j) == 0.0
  {
  }

  lemma {:induction false} FreshForm(f: Functions, pow10: real -> real, level: real, g: Peak, r: Resources, w: Vec4)
    requires f.Lawful() && AreFresh(f, pow10, level, g, r)
    ensures Form(g.cov, Weights(r, g.n, w), 2 * g.n) == SqueezedVariance(pow10, level) * Dot4(w, w)
  {
    hide *;
    FreshVariances(f, pow10, level);
    FreshSparse(f, pow10, level, g, r, w, SqueezedVariance(pow10, level));
    UncorrelatedForm(g.cov, Weights(r, g.n, w), 2 * g.n, SqueezedVariance(pow10, level));
    WeightsSquared(r, g.n, w);
  }

  lemma {:induction false} WeightsSquared(r: Resources, n: nat, w: Vec4)
    requires r.Within(n)
    ensures Sum(Product(Weights(r, n, w), Weights(r, n, w)), 2 * n) == Dot4(w, w)
  {
    var v := Weights(r, n, w);
    WeightsApply(r, n, w, v);
    assert Vec4(v(r.b1), v(r.d1), v(r.a + n), v(r.c + n)) == w;
    hide Dot4, Sum;
  }

  /** The squeezed variances of the two kinds of resource modes. */
  lemma {:induction false} FreshVariances(f: Functions, pow10: real -> real, level: real)
    requires f.Lawful()
    ensures SqueezedCov(f, pow10(level * 0.1), 0.0).a == SqueezedVariance(pow10, level)
    ensures SqueezedCov(f, pow10(level * 0.1), f.halfPi).d == SqueezedVariance(pow10, level)
  {
    f.Zero();
    SqueezedEntries(f, pow10(level * 0.1), 0.0);
    SqueezedEntries(f, pow10(level * 0.1), f.halfPi);
    hide SqueezedCov, Quotient;
  }

  lemma {:induction false} AlignedForm(m: Mat2, inv: real, q: real, s: real, c: real)
    requires IsSqueezed(m, inv, q, s, -c) && s * s + c * c == 1.0
    ensures Form2(m, s, -c) == 0.5 * inv
  {
    hide Form2, IsSqueezed;
    RotatedForm(m, inv, q, s, -c, s, -c, s * s + -c * -c, s * -c - -c * s);
    assert s * s + -c * -c == 1.0 && s * -c - -c * s == 0.0;
  }

  /** The variance of the squeezed quadrature of a state squeezed at angle theta - pi/2. */
  lemma {:induction false} ReplacedVariance(f: Functions, pow10: real -> real, theta: real, level: real)
    requires f.Lawful()
    ensures Form2(SqueezedCov(f, pow10(level * 0.1), theta - f.halfPi), f.sin(theta), -f.cos(theta)) == SqueezedVariance(pow10, level)
  {
    hide *;
    var q := pow10(level * 0.1);
    f.QuarterTurnBack(theta);
    f.Circle(theta);
    SqueezedEntries(f, q, theta - f.halfPi);
    AlignedForm(SqueezedCov(f, q, theta - f.halfPi), Quotient(1.0, q), q, f.sin(theta), f.cos(theta));
    VarianceIs(pow10, level);
  }

  lemma {:induction false} VarianceIs(pow10: real -> real, level: real)
    ensures SqueezedVariance(pow10, level) == 0.5 * Quotient(1.0, pow10(level * 0.1))
  {
  }

  /** pow10 and log10 do what they should for this level. */
  ghost predicate PowersAt(pow10: real -> real, log10: real -> real, level: real) {
    && pow10(log10(2.0)) == 2.0 && pow10(level * 0.1) > 0.0
    && pow10(level * 0.1 - log10(2.0)) * pow10(log10(2.0)) == pow10(level * 0.1)
  }

  /** The weighted sum of the variables of g has the variance of the squeezed quadrature of the state the
      graph replaces a mode with. */
  ghost predicate SameVariance(f: Functions, theta: real, pow10: real -> real, mlevel: real, g: Peak, weights: Vector) {
    Form(g.cov, weights, 2 * g.n) == Form2(SqueezedCov(f, pow10(mlevel * 0.1), theta - f.halfPi), f.sin(theta), -f.cos(theta))
  }

  function FirstOutput(s: real, c: real): Vec4 { Vec4(s, s, -c, -c) }

  function SecondOutput(s: real, c: real): Vec4 { Vec4(-s, s, c, -c) }

  /** The two weighted sums are the squeezed quadratures of the outputs, as `Readout.Initialized` gives them. */
  ghost predicate AreOutputs(s: real, c: real, r: Resources, n: nat, v: Vector) {
    && Sum(Product(Weights(r, n, FirstOutput(s, c)), v), 2 * n) == s * (v(r.b1) + v(r.d1)) - c * (v(r.a + n) + v(r.c + n))
    && Sum(Product(Weights(r, n, SecondOutput(s, c)), v), 2 * n) == s * (v(r.d1) - v(r.b1)) - c * (v(r.c + n) - v(r.a + n))
  }

  lemma {:induction false} OutputWeights(s: real, c: real, r: Resources, n: nat, v: Vector)
    requires r.Within(n)
    ensures AreOutputs(s, c, r, n, v)
  {
    hide Sum, Product, Weights, Dot4;
    WeightsApply(r, n, FirstOutput(s, c), v);
    WeightsApply(r, n, SecondOutput(s, c), v);
    Distributed(s, c, v(r.b1), v(r.d1), v(r.a + n), v(r.c + n));
  }

  lemma {:induction false} OneOutput(
    f: Functions, theta: real, pow10: real -> real, log10: real -> real, level: real, g: Peak, r: Resources, w: Vec4)
    requires f.Lawful() && PowersAt(pow10, log10, level) && AreFresh(f, pow10, level, g, r) && Dot4(w, w) == 2.0
    ensures SameVariance(f, theta, pow10, MeasurementSqueezingLevel(log10, level), g, Weights(r, g.n, w))
  {
    hide f.Lawful, SqueezedCov, SqueezedVariance, Form, Form2, Weights, MeasurementSqueezingLevel, AreFresh, PowersAt, Dot4;
    PowersDouble(pow10, log10, level);
    ReplacedVariance(f, pow10, theta, MeasurementSqueezingLevel(log10, level));
    FreshForm(f, pow10, level, g, r, w);
  }

  /** The squeezed quadratures of the two outputs of a measurement macronode are made of four resource modes.
      Their variance, from the covariance of those modes, is the variance of the squeezed quadrature of the
      state the graph brings in, at the level its compiler computes. */
  lemma {:induction false} GraphLevelAgrees(
    f: Functions, theta: real, pow10: real -> real, log10: real -> real, level: real, g: Peak, r: Resources)
    requires f.Lawful() && PowersAt(pow10, log10, level) && AreFresh(f, pow10, level, g, r)
    ensures var s, c, mlevel := f.sin(theta), f.cos(theta), MeasurementSqueezingLevel(log10, level);
      && SameVariance(f, theta, pow10, mlevel, g, Weights(r, g.n, FirstOutput(s, c)))
      && SameVariance(f, theta, pow10, mlevel, g, Weights(r, g.n, SecondOutput(s, c)))
    ensures forall v: Vector :: AreOutputs(f.sin(theta), f.cos(theta), r, g.n, v)
  {
    hide *;
    var s, c := f.sin(theta), f.cos(theta);
    f.Circle(theta);
    TwiceOne(s, c);
    FreshWithin(f, pow10, level, g, r);
    OneOutput(f, theta, pow10, log10, level, g, r, FirstOutput(s, c));
    OneOutput(f, theta, pow10, log10, level, g, r, SecondOutput(s, c));
    forall v: Vector ensures AreOutputs(s, c, r, g.n, v) {
      OutputWeights(s, c, r, g.n, v);
    }
  }

  lemma {:induction false} TwiceOne(s: real, c: real)
    requires s * s + c * c == 1.0
    ensures Dot4(FirstOutput(s, c), FirstOutput(s, c)) == 2.0 && Dot4(SecondOutput(s, c), SecondOutput(s, c)) == 2.0
  {
  }

  lemma {:induction false} PowersDouble(pow10: real -> real, log10: real -> real, level: real)
    requires PowersAt(pow10, log10, level)
    ensures SqueezedVariance(pow10, MeasurementSqueezingLevel(log10, level)) == SqueezedVariance(pow10, level) * 2.0
  {
    Doubling(pow10, log10, level);
  }

  lemma {:induction false} FreshWithin(f: Functions, pow10: real -> real, level: real, g: Peak, r: Resources)
    requires AreFresh(f, pow10, level, g, r)
    ensures r.Within(g.n)
  {
  }

  lemma {:induction false} Distributed(s: real, c: real, b1: real, d1: real, a: real, c1: real)
    ensures Dot4(FirstOutput(s, c), Vec4(b1, d1, a, c1)) == s * (b1 + d1) - c * (a + c1)
    ensures Dot4(SecondOutput(s, c), Vec4(b1, d1, a, c1)) == s * (d1 - b1) - c * (c1 - a)
  {
  }
}
