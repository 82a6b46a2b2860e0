/** What the constructors of the gates accept. */
module AcceptedGates {
  import opened Elementary
  import opened Operations
  import opened Symplectic
  import opened GateAngles
  import opened PairAngles

  lemma {:induction false} NoTangent(f: Functions, a: real)
    requires f.Lawful() && f.EquivModPi(a, 0.0)
    ensures f.tan(a) == 0.0
  {
    f.Circle(a);
    assert a - 0.0 == a && f.Tangent(a);
    hide f.Lawful;
  }

  lemma {:induction false} RefusedDet(f: Functions, kind: Kind, a: real)
    requires kind in {Squeezing, Squeezing45} && f.tan(a) == 0.0
    ensures Det(UnaryMatrix(f, kind, [a])) == 0.0
  {
  }

  /** A constructor of a single-mode gate accepts exactly the parameters whose matrix has determinant one. */
  lemma {:induction false} UnaryExactly(f: Functions, kind: Kind, mode: nat, p: seq<real>)
    requires f.Lawful() && IsUnaryGate(kind) && ArityOk(kind, |p|)
    ensures Constructible(f, kind, [mode], p) <==> Det(UnaryMatrix(f, kind, p)) == 1.0
  {
    hide f.Lawful, f.EquivModPi, Det, UnaryMatrix;
    if Constructible(f, kind, [mode], p) {
      UnaryDet(f, kind, [mode], p);
    } else {
      assert p == [p[0]];
      NoTangent(f, p[0]);
      RefusedDet(f, kind, p[0]);
    }
  }

  // ----- Manual -----

  /** The zero matrix on the difference or on the sum of two modes does not keep the symplectic form. */
  lemma {:induction false} ZeroOnDifference(w: Mat2)
    ensures !Preserves4(OnDifferenceAndSum(Mat2(0.0, 0.0, 0.0, 0.0), w))
  {
    var m, u, v := OnDifferenceAndSum(Mat2(0.0, 0.0, 0.0, 0.0), w), Vec4(1.0, -1.0, 0.0, 0.0), Vec4(0.0, 0.0, 1.0, -1.0);
    assert Apply4(m, u) == Vec4(0.0, 0.0, 0.0, 0.0);
    assert Omega(Vec4(0.0, 0.0, 0.0, 0.0), Apply4(m, v)) == 0.0 && Omega(u, v) != 0.0;
  }

  lemma {:induction false} ZeroOnSum(v: Mat2)
    ensures !Preserves4(OnDifferenceAndSum(v, Mat2(0.0, 0.0, 0.0, 0.0)))
  {
    var m, u, w := OnDifferenceAndSum(v, Mat2(0.0, 0.0, 0.0, 0.0)), Vec4(1.0, 1.0, 0.0, 0.0), Vec4(0.0, 0.0, 1.0, 1.0);
    assert Apply4(m, u) == Vec4(0.0, 0.0, 0.0, 0.0);
    assert Omega(Vec4(0.0, 0.0, 0.0, 0.0), Apply4(m, w)) == 0.0 && Omega(u, w) != 0.0;
  }

  lemma {:induction false} NoV(f: Functions, a: real, b: real)
    requires f.EquivModPi(a, b)
    ensures V(f, b, a) == Mat2(0.0, 0.0, 0.0, 0.0)
  {
    NoDivisor(f.cos(b), f.sin(b), f.cos(a), f.sin(a));
    hide VMatrix;
  }

  /** The constructor of a two-mode gate other than BeamSplitter accepts exactly the parameters whose matrix is
      symplectic. */
  lemma {:induction false} BinaryExactly(f: Functions, kind: Kind, a: nat, b: nat, p: seq<real>)
    requires f.Lawful() && IsBinaryGate(kind) && kind != BeamSplitter && ArityOk(kind, |p|) && a != b
    ensures Constructible(f, kind, [a, b], p) <==> Symplectic4(BinaryMatrix(f, kind, p))
  {
    hide f.Lawful, f.EquivModPi, Symplectic4, BinaryMatrix;
    if Constructible(f, kind, [a, b], p) {
      BinarySymplectic(f, kind, [a, b], p);
    } else {
      ManualRefused(f, p[0], p[1], p[2], p[3]);
      assert BinaryMatrix(f, Manual, p) == ManualMatrix(f, p[0], p[1], p[2], p[3]) by { ManualIs(f, p); }
    }
  }

  lemma {:induction false} ManualIs(f: Functions, p: seq<real>)
    requires |p| == 4
    ensures BinaryMatrix(f, Manual, p) == ManualMatrix(f, p[0], p[1], p[2], p[3])
  {
    hide ManualMatrix;
  }

  lemma {:induction false} ManualRefused(f: Functions, a: real, b: real, c: real, d: real)
    requires f.EquivModPi(a, b) || f.EquivModPi(c, d)
    ensures !Symplectic4(ManualMatrix(f, a, b, c, d))
  {
    hide f.EquivModPi, ManualMatrix, V, OnDifferenceAndSum, Preserves4;
    ManualOnBoth(f, a, b, c, d);
    if f.EquivModPi(a, b) {
      NoV(f, a, b);
      ZeroOnDifference(V(f, d, c));
    } else {
      NoV(f, c, d);
      ZeroOnSum(V(f, b, a));
    }
  }

  /** The matrix of BeamSplitter is symplectic anyway; its constructor accepts the reflection amplitudes that
      leave a transmission amplitude. */
  lemma {:induction false} BeamSplitterExactly(f: Functions, a: nat, b: nat, r: real, theta: real)
    requires f.Lawful() && a != b
    ensures Constructible(f, BeamSplitter, [a, b], [r, theta]) <==> r >= 0.0 && exists t: real :: t >= 0.0 && Amplitudes(r, t)
  {
    hide f.Lawful;
    if Constructible(f, BeamSplitter, [a, b], [r, theta]) {
      var t := BeamSplitterAmplitudes(f, r, theta);
      assert Amplitudes(r, t);
    }
    if r >= 0.0 && exists t: real :: t >= 0.0 && Amplitudes(r, t) {
      var t: real :| t >= 0.0 && Amplitudes(r, t);
      NoMoreThanOne(r, t);
    }
  }

  predicate Amplitudes(r: real, t: real) { t * t + r * r == 1.0 }

  lemma {:induction false} NoMoreThanOne(r: real, t: real)
    requires r >= 0.0 && Amplitudes(r, t)
    ensures r <= 1.0
  {
    assert t * t >= 0.0;
    SquareGrows(r);
  }

  lemma {:induction false} SquareGrows(r: real)
    ensures r > 1.0 ==> r * r > 1.0
  {
    if r > 1.0 {
      assert (r - 1.0) * (r + 1.0) > 0.0;
    }
  }
}
