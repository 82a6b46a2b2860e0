/** The weights of a product state, and what operations do to the total weight. */
module Weights {
  import opened Arithmetic
  import opened PartialUpdate
  import opened DirectProduct

  // ----- complex numbers -----

  const ZERO := Complex(0.0, 0.0)
  const ONE := Complex(1.0, 0.0)

  function Add(a: Complex, b: Complex): Complex { Complex(a.re + b.re, a.im + b.im) }

  function Mul(a: Complex, b: Complex): Complex { Complex(a.re * b.re - a.im * b.im, a.re * b.im + a.im * b.re) }

  lemma {:induction false} Associative(a: Complex, b: Complex, c: Complex)
    ensures Mul(a, Mul(b, c)) == Mul(Mul(a, b), c)
  {
    var p, q, r, s, t, u := a.re, a.im, b.re, b.im, c.re, c.im;
    ThreeFactors(p, q, r, s, t, u);
  }

  lemma {:induction false} ThreeFactors(p: real, q: real, r: real, s: real, t: real, u: real)
    ensures p * (r * t - s * u) - q * (r * u + s * t) == (p * r - q * s) * t - (p * s + q * r) * u
    ensures p * (r * u + s * t) + q * (r * t - s * u) == (p * r - q * s) * u + (p * s + q * r) * t
  {
  }

  lemma {:induction false} Distributive(a: Complex, b: Complex, c: Complex)
    ensures Mul(a, Add(b, c)) == Add(Mul(a, b), Mul(a, c)) && Mul(Add(b, c), a) == Add(Mul(b, a), Mul(c, a))
  {
    var p, q, r, s, t, u := a.re, a.im, b.re, b.im, c.re, c.im;
    assert p * (r + t) == p * r + p * t && q * (s + u) == q * s + q * u && p * (s + u) == p * s + p * u && q * (r + t) == q * r + q * t;
  }

  lemma {:induction false} Units(a: Complex)
    ensures Mul(ONE, a) == a && Mul(a, ONE) == a && Mul(ZERO, a) == ZERO && Mul(a, ZERO) == ZERO && Add(a, ZERO) == a && Add(ZERO, a) == a
  {
  }

  lemma {:induction false} AddAssociative(a: Complex, b: Complex, c: Complex)
    ensures Add(Add(a, b), c) == Add(a, Add(b, c))
  {
  }

  function Total(f: int -> Complex, n: nat): Complex {
    if n == 0 then ZERO else Add(Total(f, n - 1), f(n - 1))
  }

  lemma {:induction false} TotalEq(f: int -> Complex, g: int -> Complex, n: nat)
    requires forall i | 0 <= i < n :: f(i) == g(i)
    ensures Total(f, n) == Total(g, n)
  {
    if n > 0 {
      TotalEq(f, g, n - 1);
    }
  }

  function Multiple(c: Complex, f: int -> Complex): int -> Complex { (i: int) => Mul(c, f(i)) }

  lemma {:induction false} TotalMultiple(c: Complex, f: int -> Complex, n: nat)
    ensures Total(Multiple(c, f), n) == Mul(c, Total(f, n))
  {
    hide Mul, Add;
    if n == 0 {
      Units(c);
    } else {
      TotalMultiple(c, f, n - 1);
      Distributive(c, Total(f, n - 1), f(n - 1));
    }
  }

  function From(f: int -> Complex, start: nat): int -> Complex { (i: int) => f(start + i) }

  lemma {:induction false} TotalSplit(f: int -> Complex, m: nat, n: nat)
    ensures Total(f, m + n) == Add(Total(f, m), Total(From(f, m), n))
  {
    hide Add;
    if n == 0 {
      Units(Total(f, m));
    } else {
      TotalSplit(f, m, n - 1);
      AddAssociative(Total(f, m), Total(From(f, m), n - 1), f(m + n - 1));
    }
  }

  // ----- weights of a product state -----

  /** The product of the weights of the peaks of a combination, multiplied from the left. */
  function Weight<P>(w: P -> Complex, c: seq<P>): Complex {
    if c == [] then ONE else Mul(Weight(w, c[..|c| - 1]), w(c[|c| - 1]))
  }

  lemma {:induction false} WeightOfFirst<P>(w: P -> Complex, p: P, c: seq<P>)
    ensures Weight(w, [p] + c) == Mul(w(p), Weight(w, c))
  {
    hide Mul;
    Units(w(p));
    var all := [p] + c;
    if c == [] {
      assert all[..|all| - 1] == [];
    } else {
      assert all[..|all| - 1] == [p] + c[..|c| - 1];
      WeightOfFirst(w, p, c[..|c| - 1]);
      Associative(w(p), Weight(w, c[..|c| - 1]), w(c[|c| - 1]));
    }
  }

  /** The weight of combination i. */
  function WeightAt<P>(w: P -> Complex, modes: seq<seq<P>>): int -> Complex {
    (i: int) => if 0 <= i < Count(modes) then Weight(w, Combination(modes, i)) else ZERO
  }

  function PeakWeights<P>(w: P -> Complex, mode: seq<P>): int -> Complex {
    (i: int) => if 0 <= i < |mode| then w(mode[i]) else ZERO
  }

  /** The product of the total weights of the modes. */
  function ProductOfTotals<P>(w: P -> Complex, modes: seq<seq<P>>): Complex {
    if modes == [] then ONE else Mul(Total(PeakWeights(w, modes[0]), |modes[0]|), ProductOfTotals(w, modes[1..]))
  }

  lemma {:induction false} WeightInBlock<P>(w: P -> Complex, modes: seq<seq<P>>, a: nat, done: nat, b: nat)
    requires modes != [] && a < |modes[0]| && b < Count(modes[1..]) && done == a * Count(modes[1..])
    ensures From(WeightAt(w, modes), done)(b) == Multiple(w(modes[0][a]), WeightAt(w, modes[1..]))(b)
  {
    hide Combination, Count, Weight;
    CombinationAt(modes, a, b, done, done + b);
    WeightOfFirst(w, modes[0][a], Combination(modes[1..], b));
  }

  lemma {:induction false} LastTerm(f: int -> Complex, n: nat)
    ensures Total(f, 0) == ZERO && (n > 0 ==> Total(f, n) == Add(Total(f, n - 1), f(n - 1)))
  {
    hide Add;
  }

  /** The weights of one block: those of the remaining modes, times the weight of the block's first peak. */
  lemma {:induction false} BlockTotal<P>(w: P -> Complex, modes: seq<seq<P>>, a: nat, done: nat)
    requires modes != [] && a < |modes[0]| && done == a * Count(modes[1..])
    ensures Total(From(WeightAt(w, modes), done), Count(modes[1..])) == Mul(w(modes[0][a]), Total(WeightAt(w, modes[1..]), Count(modes[1..])))
  {
    hide *;
    var c, inner, rest := w(modes[0][a]), WeightAt(w, modes[1..]), Count(modes[1..]);
    forall b: nat | b < rest ensures From(WeightAt(w, modes), done)(b) == Multiple(c, inner)(b) {
      WeightInBlock(w, modes, a, done, b);
    }
    TotalEq(From(WeightAt(w, modes), done), Multiple(c, inner), rest);
    TotalMultiple(c, inner, rest);
  }

  /** The total weight of the combinations whose first peak is one of the first a. */
  lemma {:induction false} BlocksTotal<P>(w: P -> Complex, modes: seq<seq<P>>, a: nat, done: nat)
    requires modes != [] && a <= |modes[0]| && done == a * Count(modes[1..])
    ensures Total(WeightAt(w, modes), done) == Mul(Total(PeakWeights(w, modes[0]), a), Total(WeightAt(w, modes[1..]), Count(modes[1..])))
    decreases a
  {
    hide *;
    var rest, f := Count(modes[1..]), PeakWeights(w, modes[0]);
    var t := Total(WeightAt(w, modes[1..]), rest);
    LastTerm(f, a);
    if a == 0 {
      LastTerm(WeightAt(w, modes), 0);
      Units(t);
    } else {
      var before := (a - 1) * rest;
      OneMoreTime(a - 1, rest);
      BlocksTotal(w, modes, a - 1, before);
      TotalSplit(WeightAt(w, modes), before, rest);
      BlockTotal(w, modes, a - 1, before);
      PeakWeightAt(w, modes[0], a - 1);
      Distributive(t, Total(f, a - 1), f(a - 1));
    }
  }

  lemma {:induction false} PeakWeightAt<P>(w: P -> Complex, mode: seq<P>, i: nat)
    requires i < |mode|
    ensures PeakWeights(w, mode)(i) == w(mode[i])
  {
  }

  lemma {:induction false} EmptyWeight<P>(w: P -> Complex)
    ensures Count<P>([]) == 1 && WeightAt(w, [])(0) == ONE
  {
    assert Combination<P>([], 0) == [];
  }

  lemma {:induction false} NoModes<P>(w: P -> Complex)
    ensures Total(WeightAt(w, []), Count<P>([])) == ONE
  {
    hide *;
    EmptyWeight(w);
    LastTerm(WeightAt(w, []), 1);
    Units(ONE);
  }

  lemma {:induction false} FirstMode<P>(w: P -> Complex, modes: seq<seq<P>>)
    requires modes != []
    ensures Count(modes) == |modes[0]| * Count(modes[1..])
    ensures ProductOfTotals(w, modes) == Mul(Total(PeakWeights(w, modes[0]), |modes[0]|), ProductOfTotals(w, modes[1..]))
  {
    hide Total, PeakWeights, Mul;
  }

  /** The weights of all combinations sum to the product of the per-mode sums. */
  lemma {:induction false} TotalWeight<P>(w: P -> Complex, modes: seq<seq<P>>)
    ensures Total(WeightAt(w, modes), Count(modes)) == ProductOfTotals(w, modes)
  {
    if modes == [] {
      NoModes(w);
    } else {
      hide *;
      TotalWeight(w, modes[1..]);
      FirstMode(w, modes);
      BlocksTotal(w, modes, |modes[0]|, Count(modes));
    }
  }

  /** A state made of modes whose weights sum to one has weights that sum to one. */
  lemma {:induction false} UnitWeights<P>(w: P -> Complex, modes: seq<seq<P>>)
    requires forall k | 0 <= k < |modes| :: Total(PeakWeights(w, modes[k]), |modes[k]|) == ONE
    ensures Total(WeightAt(w, modes), Count(modes)) == ONE
  {
    TotalWeight(w, modes);
    UnitProduct(w, modes);
  }

  lemma {:induction false} UnitProduct<P>(w: P -> Complex, modes: seq<seq<P>>)
    requires forall k | 0 <= k < |modes| :: Total(PeakWeights(w, modes[k]), |modes[k]|) == ONE
    ensures ProductOfTotals(w, modes) == ONE
  {
    hide Total, PeakWeights;
    if modes != [] {
      UnitProduct(w, modes[1..]);
      Units(ONE);
    }
  }

  // ----- the density a measurement finds -----

  function Densities(coeffs: seq<Complex>, values: seq<Complex>): (d: seq<Complex>)
    requires |coeffs| == |values|
    ensures |d| == |coeffs| && forall m | 0 <= m < |d| :: d[m] == Mul(coeffs[m], values[m])
  {
    seq(|coeffs|, m requires 0 <= m < |coeffs| => Mul(coeffs[m], values[m]))
  }

  function SumOf(s: seq<Complex>): Complex { Total((i: int) => if 0 <= i < |s| then s[i] else ZERO, |s|) }

  lemma {:induction false} SumOfMore(s: seq<Complex>, z: Complex)
    ensures SumOf(s + [z]) == Add(SumOf(s), z)
  {
    var f := (i: int) => if 0 <= i < |s| then s[i] else ZERO;
    var g := (i: int) => if 0 <= i < |s| + 1 then (s + [z])[i] else ZERO;
    TotalEq(f, g, |s|);
    assert Total(g, |s| + 1) == Add(Total(g, |s|), g(|s|));
    assert SumOf(s + [z]) == Total(g, |s| + 1) by {
      var h := (i: int) => if 0 <= i < |s + [z]| then (s + [z])[i] else ZERO;
      TotalEq(g, h, |s| + 1);
    }
  }

  /** `CalcOriginalPdf`: the density of every peak at the value found, and the real part of their sum. */
  method CalcOriginalPdf(coeffs: seq<Complex>, values: seq<Complex>) returns (densities: seq<Complex>, total: real)
    requires |coeffs| == |values|
    ensures densities == Densities(coeffs, values) && total == SumOf(densities).re
  {
    densities := [];
    var sum := ZERO;
    hide Mul, SumOf;
    assert SumOf([]) == ZERO by { SumOfNothing(); }
    for m := 0 to |coeffs|
      invariant |densities| == m && sum == SumOf(densities)
      invariant forall l | 0 <= l < m :: densities[l] == Mul(coeffs[l], values[l])
    {
      var z := Mul(coeffs[m], values[m]);
      SumOfMore(densities, z);
      densities := densities + [z];
      sum := Add(sum, z);
    }
    total := sum.re;
  }

  lemma {:induction false} SumOfNothing()
    ensures SumOf([]) == ZERO
  {
  }

  /** Peaks that all have the density z at the value found: together they have z times their total weight. */
  lemma {:induction false} CommonDensity(coeffs: seq<Complex>, values: seq<Complex>, z: Complex)
    requires |coeffs| == |values| && forall m | 0 <= m < |values| :: values[m] == z
    ensures SumOf(Densities(coeffs, values)) == Mul(z, SumOf(coeffs))
  {
    var n, d := |coeffs|, Densities(coeffs, values);
    var f := (i: int) => if 0 <= i < |coeffs| then coeffs[i] else ZERO;
    var g := (i: int) => if 0 <= i < |d| then d[i] else ZERO;
    forall i | 0 <= i < n ensures g(i) == Multiple(z, f)(i) {
      Commutes(coeffs[i], z);
    }
    hide Mul;
    TotalEq(g, Multiple(z, f), n);
    TotalMultiple(z, f, n);
  }

  lemma {:induction false} Commutes(a: Complex, b: Complex)
    ensures Mul(a, b) == Mul(b, a)
  {
  }
}
