/** The real-valued functions the simulator takes from the C++ standard library.

They are passed around as a record, so every theorem holds for any functions that satisfy the
laws below; the real sine, cosine, exponential, ... do.  All arithmetic is exact. */
module Elementary {

  datatype Option<+T> = None | Some(value: T)

  datatype Functions = Functions(
    sin: real -> real,
    cos: real -> real,
    tan: real -> real,
    exp: real -> real,
    atan: real -> real,
    acos: real -> real,
    halfPi: real,     // pi / 2
    invSqrt2: real)   // 1 / sqrt(2)
  {
    ghost predicate OnCircle(a: real) {
      sin(a) * sin(a) + cos(a) * cos(a) == 1.0
    }

    ghost predicate Difference(a: real, b: real) {
      && sin(a - b) == sin(a) * cos(b) - cos(a) * sin(b)
      && cos(a - b) == cos(a) * cos(b) + sin(a) * sin(b)
    }

    /** `tan` has poles, where the exact value does not exist; the value chosen there is only
        required to be nonzero, as every floating-point value returned there is. */
    ghost predicate Tangent(a: real) {
      && tan(a) * cos(a) == (if cos(a) == 0.0 then 0.0 else sin(a))
      && (sin(a) != 0.0 ==> tan(a) != 0.0)
    }

    ghost predicate Exponential(a: real) {
      exp(a) > 0.0 && exp(a) * exp(-a) == 1.0 && (exp(a) == 1.0 ==> a == 0.0)
    }

    ghost predicate ArcTangent(y: real) {
      cos(atan(y)) > 0.0 && sin(atan(y)) == y * cos(atan(y))
    }

    ghost predicate ArcCosine(y: real) {
      -1.0 <= y <= 1.0 ==> cos(acos(y)) == y && sin(acos(y)) >= 0.0
    }

    ghost predicate Lawful() {
      && (forall a :: OnCircle(a))
      && (forall a, b :: Difference(a, b))
      && (forall a :: Tangent(a))
      && (forall a :: Exponential(a))
      && (forall y :: ArcTangent(y))
      && (forall y :: ArcCosine(y))
      && sin(halfPi) == 1.0
      && cos(halfPi) == 0.0
      && 2.0 * invSqrt2 * invSqrt2 == 1.0
      && invSqrt2 > 0.0 && cos(halfPi / 2.0) == invSqrt2
    }

    /** `IsEquivModPi` without its tolerance: the two angles differ by a multiple of pi. */
    predicate EquivModPi(a: real, b: real) {
      sin(a - b) == 0.0
    }

    lemma {:induction false} Circle(a: real)
      requires Lawful()
      ensures sin(a) * sin(a) + cos(a) * cos(a) == 1.0
    {
      assert OnCircle(a);
    }

    lemma {:induction false} Zero()
      requires Lawful()
      ensures sin(0.0) == 0.0 && cos(0.0) == 1.0
    {
      assert Difference(halfPi, halfPi);
    }

    lemma {:induction false} Negation(a: real)
      requires Lawful()
      ensures sin(-a) == -sin(a) && cos(-a) == cos(a)
    {
      Zero();
      assert Difference(0.0, a) && 0.0 - a == -a;
    }

    lemma {:induction false} Addition(a: real, b: real)
      requires Lawful()
      ensures sin(a + b) == sin(a) * cos(b) + cos(a) * sin(b)
      ensures cos(a + b) == cos(a) * cos(b) - sin(a) * sin(b)
    {
      Negation(b);
      assert Difference(a, -b) && a - -b == a + b;
    }

    /** The homodyne measurement rotates by theta - pi/2. */
    lemma {:induction false} QuarterTurnBack(a: real)
      requires Lawful()
      ensures sin(a - halfPi) == -cos(a) && cos(a - halfPi) == sin(a)
    {
      assert Difference(a, halfPi);
    }
  }
}
