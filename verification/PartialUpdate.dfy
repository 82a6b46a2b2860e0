/** A gate's update of one peak, in place: only the operated rows and columns are computed. */
module PartialUpdate {
  import opened Sums
  import opened Conditioning
  import opened Congruence

  datatype Complex = Complex(re: real, im: real)

  // ----- a small matrix embedded in the identity -----

  ghost predicate NoDuplicates(idx: seq<nat>) {
    forall a, b | 0 <= a < b < |idx| :: idx[a] != idx[b]
  }

  /** The position of i in idx, or |idx|. */
  function Position(idx: seq<nat>, i: int): (p: nat)
    ensures p <= |idx|
    ensures p < |idx| ==> idx[p] == i
    ensures p < |idx| <==> i in idx
  {
    if idx == [] then 0 else if idx[0] == i then 0 else 1 + Position(idx[1..], i)
  }

  lemma {:induction false} PositionAt(idx: seq<nat>, a: nat)
    requires NoDuplicates(idx) && a < |idx|
    ensures Position(idx, idx[a]) == a
  {
  }

  /** The matrix m on the variables idx, the identity elsewhere. */
  function Embed(m: Matrix, idx: seq<nat>): Matrix {
    (i: int, k: int) =>
      if Position(idx, i) < |idx| && Position(idx, k) < |idx| then m(Position(idx, i), Position(idx, k))
      else if i == k then 1.0 else 0.0
  }

  /** The terms of row a of m times the variables idx of f. */
  function OperatedTerms(m: Matrix, idx: seq<nat>, a: int, f: Vector): Vector {
    (c: int) => if 0 <= c < |idx| then m(a, c) * f(idx[c]) else 0.0
  }

  /** The terms of an embedded row whose variables are among the first b operated ones. */
  function PrefixTerms(m: Matrix, idx: seq<nat>, a: int, f: Vector, b: nat): Vector {
    (k: int) => if Position(idx, k) < b && Position(idx, k) < |idx| then m(a, Position(idx, k)) * f(k) else 0.0
  }

  lemma {:induction false} PrefixStep(m: Matrix, idx: seq<nat>, a: int, f: Vector, b: nat, k: int)
    requires NoDuplicates(idx) && 0 < b <= |idx|
    ensures PrefixTerms(m, idx, a, f, b)(k) == Added(PrefixTerms(m, idx, a, f, b - 1), Spike(idx[b - 1], m(a, b - 1) * f(idx[b - 1])))(k)
  {
    PositionAt(idx, b - 1);
  }

  lemma {:induction false} PrefixSum(m: Matrix, idx: seq<nat>, a: int, f: Vector, n: nat, b: nat)
    requires NoDuplicates(idx) && b <= |idx| && forall c | 0 <= c < |idx| :: idx[c] < n
    ensures Sum(PrefixTerms(m, idx, a, f, b), n) == Sum(OperatedTerms(m, idx, a, f), b)
  {
    hide PrefixTerms, Spike, Added;
    if b == 0 {
      NoPrefix(m, idx, a, f, n);
    } else {
      PrefixSum(m, idx, a, f, n, b - 1);
      var front, last := PrefixTerms(m, idx, a, f, b - 1), Spike(idx[b - 1], m(a, b - 1) * f(idx[b - 1]));
      forall k | 0 <= k < n ensures PrefixTerms(m, idx, a, f, b)(k) == Added(front, last)(k) {
        PrefixStep(m, idx, a, f, b, k);
      }
      SumEq(PrefixTerms(m, idx, a, f, b), Added(front, last), n);
      SumAdded(front, last, n);
      SpikeSum(n, idx[b - 1], m(a, b - 1) * f(idx[b - 1]));
    }
  }

  lemma {:induction false} NoPrefix(m: Matrix, idx: seq<nat>, a: int, f: Vector, n: nat)
    ensures Sum(PrefixTerms(m, idx, a, f, 0), n) == 0.0
  {
    forall k | 0 <= k < n ensures PrefixTerms(m, idx, a, f, 0)(k) == 0.0 {
      assert Position(idx, k) >= 0;
    }
    SumZero(PrefixTerms(m, idx, a, f, 0), n);
  }

  lemma {:induction false} EmbeddedTerm(m: Matrix, idx: seq<nat>, f: Vector, a: nat, k: int)
    requires NoDuplicates(idx) && a < |idx|
    ensures RowTerms(Embed(m, idx), f, idx[a])(k) == PrefixTerms(m, idx, a, f, |idx|)(k)
  {
    PositionAt(idx, a);
    if Position(idx, k) == |idx| {
      assert k != idx[a];
    }
  }

  /** An operated row of the embedded matrix only sees the operated variables. */
  lemma {:induction false} EmbeddedRow(m: Matrix, idx: seq<nat>, f: Vector, n: nat, a: nat)
    requires NoDuplicates(idx) && a < |idx| && forall c | 0 <= c < |idx| :: idx[c] < n
    ensures Row(Embed(m, idx), f, n, idx[a]) == Sum(OperatedTerms(m, idx, a, f), |idx|)
  {
    hide RowTerms, PrefixTerms, Embed, Position, OperatedTerms, Sum;
    PrefixSum(m, idx, a, f, n, |idx|);
    forall k | 0 <= k < n ensures RowTerms(Embed(m, idx), f, idx[a])(k) == PrefixTerms(m, idx, a, f, |idx|)(k) {
      EmbeddedTerm(m, idx, f, a, k);
    }
    SumEq(RowTerms(Embed(m, idx), f, idx[a]), PrefixTerms(m, idx, a, f, |idx|), n);
  }

  /** The other rows change nothing. */
  lemma {:induction false} IdentityRow(m: Matrix, idx: seq<nat>, f: Vector, n: nat, i: nat)
    requires i < n && i !in idx
    ensures Row(Embed(m, idx), f, n, i) == f(i)
  {
    forall k | 0 <= k < n ensures RowTerms(Embed(m, idx), f, i)(k) == if k == i then f(i) else 0.0 {
      assert Position(idx, i) == |idx|;
    }
    SumOne(RowTerms(Embed(m, idx), f, i), n, i);
  }

  // ----- the entries of S * cov * S^T -----

  /** S^T from the right: the same rows, seen from the other side. */
  lemma {:induction false} FromTheRight(s: Matrix, cov: Matrix, n: nat, k: int, j: int)
    ensures Product(cov, Transpose(s), n)(k, j) == Row(s, RowOf(cov, k), n, j)
  {
    var f, g := RowTerms(cov, ColumnOf(Transpose(s), j), k), RowTerms(s, RowOf(cov, k), j);
    forall l | 0 <= l < n ensures f(l) == g(l) {
      Commute(cov(k, l), s(j, l));
    }
    SumEq(f, g, n);
  }

  ghost predicate Operates(idx: seq<nat>, n: nat) {
    NoDuplicates(idx) && forall c | 0 <= c < |idx| :: idx[c] < n
  }

  /** Row a of m, applied from the left to the operated rows of column j. */
  function OffDiagonal(m: Matrix, idx: seq<nat>, cov: Matrix, a: int, j: int): real {
    Sum(OperatedTerms(m, idx, a, RowOf(cov, j)), |idx|)
  }

  lemma {:induction false} UntouchedEntry(m: Matrix, idx: seq<nat>, cov: Matrix, n: nat, i: nat, j: nat)
    requires Operates(idx, n) && i < n && j < n && i !in idx && j !in idx
    ensures Transformed(Embed(m, idx), cov, n)(i, j) == cov(i, j)
  {
    var s := Embed(m, idx);
    var inner := Product(cov, Transpose(s), n);
    IdentityRow(m, idx, ColumnOf(inner, j), n, i);
    FromTheRight(s, cov, n, i, j);
    IdentityRow(m, idx, RowOf(cov, i), n, j);
  }

  lemma {:induction false} ColumnEntry(m: Matrix, idx: seq<nat>, cov: Matrix, n: nat, i: nat, c: nat)
    requires Operates(idx, n) && i < n && c < |idx| && i !in idx
    ensures Transformed(Embed(m, idx), cov, n)(i, idx[c]) == OffDiagonal(m, idx, cov, c, i)
  {
    var s := Embed(m, idx);
    var inner := Product(cov, Transpose(s), n);
    IdentityRow(m, idx, ColumnOf(inner, idx[c]), n, i);
    FromTheRight(s, cov, n, i, idx[c]);
    EmbeddedRow(m, idx, RowOf(cov, i), n, c);
  }

  lemma {:induction false} RowEntry(m: Matrix, idx: seq<nat>, cov: Matrix, n: nat, a: nat, j: nat)
    requires Operates(idx, n) && Symmetric(cov, n) && j < n && a < |idx| && j !in idx
    ensures Transformed(Embed(m, idx), cov, n)(idx[a], j) == OffDiagonal(m, idx, cov, a, j)
  {
    TransformedSymmetric(Embed(m, idx), cov, n);
    ColumnEntry(m, idx, cov, n, j, a);
  }

  /** Row a of m through the operated block, at operated column d. */
  function HalfOperated(m: Matrix, idx: seq<nat>, cov: Matrix, a: int): Vector {
    (d: int) => if 0 <= d < |idx| then Sum(OperatedTerms(m, idx, a, ColumnOf(cov, idx[d])), |idx|) else 0.0
  }

  /** Entry (a, c) of m * block * m^T. */
  function Operated(m: Matrix, idx: seq<nat>, cov: Matrix, a: int, c: int): real {
    Sum(Times(HalfOperated(m, idx, cov, a), RowOf(m, c)), |idx|)
  }

  /** The double sum of an entry of the operated block. */
  function BlockTerms(m: Matrix, idx: seq<nat>, cov: Matrix, a: int, c: int): Matrix {
    (b: int, d: int) => if 0 <= b < |idx| && 0 <= d < |idx| then m(a, b) * (m(c, d) * cov(idx[b], idx[d])) else 0.0
  }

  lemma {:induction false} BlockEntry(m: Matrix, idx: seq<nat>, cov: Matrix, n: nat, a: nat, c: nat)
    requires Operates(idx, n) && a < |idx| && c < |idx|
    ensures Transformed(Embed(m, idx), cov, n)(idx[a], idx[c]) == Operated(m, idx, cov, a, c)
  {
    var r, s := |idx|, Embed(m, idx);
    var inner, t := Product(cov, Transpose(s), n), BlockTerms(m, idx, cov, a, c);
    EmbeddedRow(m, idx, ColumnOf(inner, idx[c]), n, a);
    hide Row, Sum, Embed, Product, Position;
    forall b: nat | b < r ensures OperatedTerms(m, idx, a, ColumnOf(inner, idx[c]))(b) == RowSums(t, r)(b) {
      FromTheRight(s, cov, n, idx[b], idx[c]);
      EmbeddedRow(m, idx, RowOf(cov, idx[b]), n, c);
      BlockRow(m, idx, cov, a, c, b);
    }
    SumEq(OperatedTerms(m, idx, a, ColumnOf(inner, idx[c])), RowSums(t, r), r);
    SumSwap(t, r, r);
    forall d: nat | d < r ensures ColumnSums(t, r)(d) == Times(HalfOperated(m, idx, cov, a), RowOf(m, c))(d) {
      BlockColumn(m, idx, cov, a, c, d);
    }
    SumEq(ColumnSums(t, r), Times(HalfOperated(m, idx, cov, a), RowOf(m, c)), r);
    assert Transformed(s, cov, n)(idx[a], idx[c]) == Row(s, ColumnOf(inner, idx[c]), n, idx[a]) by { EntryIs(s, cov, n, idx[a], idx[c]); }
  }

  lemma {:induction false} EntryIs(s: Matrix, cov: Matrix, n: nat, i: int, j: int)
    ensures Transformed(s, cov, n)(i, j) == Row(s, ColumnOf(Product(cov, Transpose(s), n), j), n, i)
  {
  }

  lemma {:induction false} BlockRow(m: Matrix, idx: seq<nat>, cov: Matrix, a: nat, c: nat, b: nat)
    requires b < |idx|
    ensures RowSums(BlockTerms(m, idx, cov, a, c), |idx|)(b) == m(a, b) * Sum(OperatedTerms(m, idx, c, RowOf(cov, idx[b])), |idx|)
  {
    var f := OperatedTerms(m, idx, c, RowOf(cov, idx[b]));
    SumEq(RowOf(BlockTerms(m, idx, cov, a, c), b), Scaled(m(a, b), f), |idx|);
    SumScaled(m(a, b), f, |idx|);
  }

  lemma {:induction false} BlockColumn(m: Matrix, idx: seq<nat>, cov: Matrix, a: nat, c: nat, d: nat)
    requires d < |idx|
    ensures ColumnSums(BlockTerms(m, idx, cov, a, c), |idx|)(d) == Times(HalfOperated(m, idx, cov, a), RowOf(m, c))(d)
  {
    var f := OperatedTerms(m, idx, a, ColumnOf(cov, idx[d]));
    var g, h := ColumnOf(BlockTerms(m, idx, cov, a, c), d), Scaled(m(c, d), f);
    forall b | 0 <= b < |idx| ensures g(b) == h(b) {
      Interchange(m(a, b), m(c, d), cov(idx[b], idx[d]));
    }
    SumEq(g, h, |idx|);
    SumScaled(m(c, d), f, |idx|);
    Commute(m(c, d), Sum(f, |idx|));
  }

  lemma {:induction false} Interchange(x: real, y: real, z: real)
    ensures x * (y * z) == y * (x * z)
  {
  }

  // ----- the update in place -----

  ghost function Entries(a: array2<real>): (s: seq<seq<real>>)
    reads a
    ensures |s| == a.Length0 && forall i | 0 <= i < a.Length0 :: |s[i]| == a.Length1 && forall j | 0 <= j < a.Length1 :: s[i][j] == a[i, j]
  {
    seq(a.Length0, i requires 0 <= i < a.Length0 reads a => seq(a.Length1, j requires 0 <= j < a.Length1 reads a => a[i, j]))
  }

  function AsMatrix(s: seq<seq<real>>): Matrix {
    (i: int, j: int) => if 0 <= i < |s| && 0 <= j < |s[i]| then s[i][j] else 0.0
  }

  function RealPart(s: seq<Complex>): Vector { (i: int) => if 0 <= i < |s| then s[i].re else 0.0 }

  function ImaginaryPart(s: seq<Complex>): Vector { (i: int) => if 0 <= i < |s| then s[i].im else 0.0 }

  /** Row a of m times the operated variables of row (or column) j of sigma. */
  method Multiply(m: Matrix, idx: seq<nat>, sigma: array2<real>, a: nat, j: nat, byColumn: bool) returns (s: real)
    requires sigma.Length0 == sigma.Length1 && j < sigma.Length0 && forall c | 0 <= c < |idx| :: idx[c] < sigma.Length0
    ensures s == Sum(OperatedTerms(m, idx, a, if byColumn then ColumnOf(AsMatrix(Entries(sigma)), j) else RowOf(AsMatrix(Entries(sigma)), j)), |idx|)
  {
    s := 0.0;
    ghost var f := OperatedTerms(m, idx, a, if byColumn then ColumnOf(AsMatrix(Entries(sigma)), j) else RowOf(AsMatrix(Entries(sigma)), j));
    for c := 0 to |idx|
      invariant s == Sum(f, c)
    {
      var entry := if byColumn then sigma[idx[c], j] else sigma[j, idx[c]];
      assert f(c) == m(a, c) * entry;
      s := s + m(a, c) * entry;
    }
  }

  /** m * sigma(all, idx)^T */
  method MultiplyRows(m: Matrix, idx: seq<nat>, sigma: array2<real>) returns (off: array2<real>)
    requires sigma.Length0 == sigma.Length1 && forall c | 0 <= c < |idx| :: idx[c] < sigma.Length0
    ensures fresh(off) && off.Length0 == |idx| && off.Length1 == sigma.Length0
    ensures forall a, j | 0 <= a < |idx| && 0 <= j < sigma.Length0 :: off[a, j] == OffDiagonal(m, idx, AsMatrix(Entries(sigma)), a, j)
  {
    var n := sigma.Length0;
    off := new real[|idx|, n];
    ghost var cov := AsMatrix(Entries(sigma));
    hide Entries, AsMatrix, OperatedTerms, Sum;
    for a := 0 to |idx|
      invariant forall b, j | 0 <= b < a && 0 <= j < n :: off[b, j] == OffDiagonal(m, idx, cov, b, j)
    {
      for j := 0 to n
        invariant forall b, l | 0 <= b < a && 0 <= l < n :: off[b, l] == OffDiagonal(m, idx, cov, b, l)
        invariant forall l | 0 <= l < j :: off[a, l] == OffDiagonal(m, idx, cov, a, l)
      {
        off[a, j] := Multiply(m, idx, sigma, a, j, false);
      }
    }
  }

  /** Row a of the block. */
  method FillRow(m: Matrix, half: seq<real>, a: nat, operated: array2<real>, ghost f: Vector)
    requires a < operated.Length0 && operated.Length1 == |half| && forall d | 0 <= d < |half| :: half[d] == f(d)
    modifies operated
    ensures forall c | 0 <= c < |half| :: operated[a, c] == Sum(Times(f, RowOf(m, c)), |half|)
    ensures forall b, c | 0 <= b < operated.Length0 && b != a && 0 <= c < |half| :: operated[b, c] == old(operated[b, c])
  {
    hide Sum, Times, RowOf;
    for c := 0 to |half|
      invariant forall l | 0 <= l < c :: operated[a, l] == Sum(Times(f, RowOf(m, l)), |half|)
      invariant forall b, l | 0 <= b < operated.Length0 && b != a && 0 <= l < |half| :: operated[b, l] == old(operated[b, l])
    {
      operated[a, c] := Dot(half, m, c, f);
    }
  }

  /** m * sigma(idx, idx) * m^T */
  method MultiplyBlock(m: Matrix, idx: seq<nat>, sigma: array2<real>) returns (operated: array2<real>)
    requires sigma.Length0 == sigma.Length1 && forall c | 0 <= c < |idx| :: idx[c] < sigma.Length0
    ensures fresh(operated) && operated.Length0 == |idx| && operated.Length1 == |idx|
    ensures forall a, c | 0 <= a < |idx| && 0 <= c < |idx| :: operated[a, c] == Operated(m, idx, AsMatrix(Entries(sigma)), a, c)
  {
    var r := |idx|;
    ghost var cov := AsMatrix(Entries(sigma));
    operated := new real[r, r];
    hide Entries, AsMatrix, OperatedTerms, HalfOperated, Sum, Times, RowOf;
    for a := 0 to r
      invariant forall b, c | 0 <= b < a && 0 <= c < r :: operated[b, c] == Operated(m, idx, cov, b, c)
    {
      var half := HalfRow(m, idx, sigma, a);
      FillRow(m, half, a, operated, HalfOperated(m, idx, cov, a));
    }
  }

  /** Row a of m * sigma(idx, idx). */
  method HalfRow(m: Matrix, idx: seq<nat>, sigma: array2<real>, a: nat) returns (half: seq<real>)
    requires sigma.Length0 == sigma.Length1 && forall c | 0 <= c < |idx| :: idx[c] < sigma.Length0
    ensures |half| == |idx| && forall d | 0 <= d < |idx| :: half[d] == HalfOperated(m, idx, AsMatrix(Entries(sigma)), a)(d)
  {
    half := [];
    for d := 0 to |idx|
      invariant |half| == d && forall e | 0 <= e < d :: half[e] == HalfOperated(m, idx, AsMatrix(Entries(sigma)), a)(e)
    {
      var s := Multiply(m, idx, sigma, a, idx[d], true);
      half := half + [s];
    }
  }

  method Dot(half: seq<real>, m: Matrix, c: nat, ghost f: Vector) returns (s: real)
    requires forall d | 0 <= d < |half| :: half[d] == f(d)
    ensures s == Sum(Times(f, RowOf(m, c)), |half|)
  {
    s := 0.0;
    for d := 0 to |half|
      invariant s == Sum(Times(f, RowOf(m, c)), d)
    {
      s := s + half[d] * m(c, d);
    }
  }

  /** Row a of m times mu(idx). */
  method MeanEntry(m: Matrix, idx: seq<nat>, mu: array<Complex>, a: nat, ghost re: Vector, ghost im: Vector) returns (z: Complex)
    requires forall c | 0 <= c < |idx| :: idx[c] < mu.Length && mu[idx[c]] == Complex(re(idx[c]), im(idx[c]))
    ensures z == Complex(Sum(OperatedTerms(m, idx, a, re), |idx|), Sum(OperatedTerms(m, idx, a, im), |idx|))
  {
    var x, y := 0.0, 0.0;
    for c := 0 to |idx|
      invariant x == Sum(OperatedTerms(m, idx, a, re), c) && y == Sum(OperatedTerms(m, idx, a, im), c)
    {
      var w := mu[idx[c]];
      x := x + m(a, c) * w.re;
      y := y + m(a, c) * w.im;
    }
    z := Complex(x, y);
  }

  /** m * mu(idx) */
  method MultiplyMean(m: Matrix, idx: seq<nat>, mu: array<Complex>) returns (mean: array<Complex>)
    requires forall c | 0 <= c < |idx| :: idx[c] < mu.Length
    ensures fresh(mean) && mean.Length == |idx|
    ensures forall a | 0 <= a < |idx| ::
              mean[a] == Complex(Sum(OperatedTerms(m, idx, a, RealPart(mu[..])), |idx|), Sum(OperatedTerms(m, idx, a, ImaginaryPart(mu[..])), |idx|))
  {
    ghost var re, im := RealPart(mu[..]), ImaginaryPart(mu[..]);
    mean := new Complex[|idx|](_ => Complex(0.0, 0.0));
    assert forall c | 0 <= c < |idx| :: mu[idx[c]] == Complex(re(idx[c]), im(idx[c]));
    hide OperatedTerms, Sum, RealPart, ImaginaryPart;
    for a := 0 to |idx|
      invariant forall b | 0 <= b < a ::
                  mean[b] == Complex(Sum(OperatedTerms(m, idx, b, re), |idx|), Sum(OperatedTerms(m, idx, b, im), |idx|))
    {
      mean[a] := MeanEntry(m, idx, mu, a, re, im);
    }
  }

  /** mu(idx) = mean */
  method WriteMean(idx: seq<nat>, mean: array<Complex>, mu: array<Complex>)
    requires Operates(idx, mu.Length) && mean.Length == |idx| && mean != mu
    modifies mu
    ensures forall i | 0 <= i < mu.Length :: mu[i] == if i in idx then mean[Position(idx, i)] else old(mu[i])
  {
    forall a | 0 <= a < |idx| {
      mu[idx[a]] := mean[a];
    }
    forall a | 0 <= a < |idx| ensures Position(idx, idx[a]) == a {
      PositionAt(idx, a);
    }
  }

  /** sigma(idx, all) = off */
  method WriteRows(idx: seq<nat>, off: array2<real>, sigma: array2<real>)
    requires Operates(idx, sigma.Length0) && sigma.Length0 == sigma.Length1 && off != sigma
    requires off.Length0 == |idx| && off.Length1 == sigma.Length0
    modifies sigma
    ensures forall i, j | 0 <= i < sigma.Length0 && 0 <= j < sigma.Length0 ::
              sigma[i, j] == if i in idx then off[Position(idx, i), j] else old(sigma[i, j])
  {
    forall a, j | 0 <= a < |idx| && 0 <= j < sigma.Length0 {
      sigma[idx[a], j] := off[a, j];
    }
    forall a | 0 <= a < |idx| ensures Position(idx, idx[a]) == a {
      PositionAt(idx, a);
    }
  }

  /** sigma(all, idx) = off^T */
  method WriteColumns(idx: seq<nat>, off: array2<real>, sigma: array2<real>)
    requires Operates(idx, sigma.Length0) && sigma.Length0 == sigma.Length1 && off != sigma
    requires off.Length0 == |idx| && off.Length1 == sigma.Length0
    modifies sigma
    ensures forall i, j | 0 <= i < sigma.Length0 && 0 <= j < sigma.Length0 ::
              sigma[i, j] == if j in idx then off[Position(idx, j), i] else old(sigma[i, j])
  {
    forall a, i | 0 <= a < |idx| && 0 <= i < sigma.Length0 {
      sigma[i, idx[a]] := off[a, i];
    }
    forall a | 0 <= a < |idx| ensures Position(idx, idx[a]) == a {
      PositionAt(idx, a);
    }
  }

  /** sigma(idx, idx) = operated */
  method WriteBlock(idx: seq<nat>, operated: array2<real>, sigma: array2<real>)
    requires Operates(idx, sigma.Length0) && sigma.Length0 == sigma.Length1 && operated != sigma
    requires operated.Length0 == |idx| && operated.Length1 == |idx|
    modifies sigma
    ensures forall i, j | 0 <= i < sigma.Length0 && 0 <= j < sigma.Length0 ::
              sigma[i, j] == if i in idx && j in idx then operated[Position(idx, i), Position(idx, j)] else old(sigma[i, j])
  {
    forall a, c | 0 <= a < |idx| && 0 <= c < |idx| {
      sigma[idx[a], idx[c]] := operated[a, c];
    }
    forall a | 0 <= a < |idx| ensures Position(idx, idx[a]) == a {
      PositionAt(idx, a);
    }
  }

  /** Entry (i, j) after the update. */
  lemma {:induction false} UpdatedEntry(m: Matrix, idx: seq<nat>, cov: Matrix, n: nat, i: nat, j: nat)
    requires Operates(idx, n) && Symmetric(cov, n) && i < n && j < n
    ensures Transformed(Embed(m, idx), cov, n)(i, j) ==
              if i in idx && j in idx then Operated(m, idx, cov, Position(idx, i), Position(idx, j))
              else if j in idx then OffDiagonal(m, idx, cov, Position(idx, j), i)
              else if i in idx then OffDiagonal(m, idx, cov, Position(idx, i), j)
              else cov(i, j)
  {
    hide Transformed, Embed, OffDiagonal, Operated, Position;
    if i in idx && j in idx {
      BlockEntry(m, idx, cov, n, Position(idx, i), Position(idx, j));
    } else if i in idx {
      RowEntry(m, idx, cov, n, Position(idx, i), j);
    } else if j in idx {
      ColumnEntry(m, idx, cov, n, i, Position(idx, j));
    } else {
      UntouchedEntry(m, idx, cov, n, i, j);
    }
  }

  lemma {:induction false} UpdatedMean(m: Matrix, idx: seq<nat>, f: Vector, n: nat, i: nat)
    requires Operates(idx, n) && i < n
    ensures Row(Embed(m, idx), f, n, i) == if i in idx then Sum(OperatedTerms(m, idx, Position(idx, i), f), |idx|) else f(i)
  {
    hide Row, Embed, OperatedTerms, Position;
    if i in idx {
      EmbeddedRow(m, idx, f, n, Position(idx, i));
    } else {
      IdentityRow(m, idx, f, n, i);
    }
  }

  /** `UnitaryOperation::UpdatePeak`: the operated rows, then the columns, then the block.  The result is
      S * sigma * S^T and S * mu, with S the matrix embedded in the identity. */
  method UpdatePeak(m: Matrix, idx: seq<nat>, mu: array<Complex>, sigma: array2<real>)
    requires sigma.Length0 == sigma.Length1 == mu.Length && Operates(idx, mu.Length)
    requires Symmetric(AsMatrix(Entries(sigma)), mu.Length)
    modifies mu, sigma
    ensures forall i, j | 0 <= i < mu.Length && 0 <= j < mu.Length ::
              sigma[i, j] == Transformed(Embed(m, idx), old(AsMatrix(Entries(sigma))), mu.Length)(i, j)
    ensures forall i | 0 <= i < mu.Length ::
              mu[i] == Complex(Row(Embed(m, idx), old(RealPart(mu[..])), mu.Length, i), Row(Embed(m, idx), old(ImaginaryPart(mu[..])), mu.Length, i))
  {
    var n := mu.Length;
    ghost var cov, re, im := AsMatrix(Entries(sigma)), RealPart(mu[..]), ImaginaryPart(mu[..]);
    assert forall i, j | 0 <= i < n && 0 <= j < n :: sigma[i, j] == cov(i, j);
    assert forall i | 0 <= i < n :: mu[i] == Complex(re(i), im(i));
    hide Transformed, Embed, OffDiagonal, Operated, Row, OperatedTerms, Position, Symmetric, AsMatrix, Entries, RealPart, ImaginaryPart, Operates;
    var off := MultiplyRows(m, idx, sigma) by { InRange(idx, n); }
    var operated := MultiplyBlock(m, idx, sigma) by { InRange(idx, n); }
    var mean := MultiplyMean(m, idx, mu) by { InRange(idx, n); }
    WriteMean(idx, mean, mu);
    WriteRows(idx, off, sigma);
    WriteColumns(idx, off, sigma);
    WriteBlock(idx, operated, sigma);
    forall i, j | 0 <= i < n && 0 <= j < n ensures sigma[i, j] == Transformed(Embed(m, idx), cov, n)(i, j) {
      UpdatedEntry(m, idx, cov, n, i, j);
    }
    forall i | 0 <= i < n ensures mu[i] == Complex(Row(Embed(m, idx), re, n, i), Row(Embed(m, idx), im, n, i)) {
      UpdatedMean(m, idx, re, n, i);
      UpdatedMean(m, idx, im, n, i);
    }
  }

  lemma {:induction false} InRange(idx: seq<nat>, n: nat)
    requires Operates(idx, n)
    ensures forall c | 0 <= c < |idx| :: idx[c] < n
  {
  }
}
