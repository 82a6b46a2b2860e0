/** Products and remainders of natural numbers. */
module Arithmetic {

  lemma {:induction false} AtLeast(z: nat, m: nat)
    requires z >= 1
    ensures z * m >= m
  {
  }

  lemma {:induction false} OneMoreTime(t: nat, p: nat)
    ensures (t + 1) * p == t * p + p
  {
  }

  /** Different multiples of n are at least n apart. */
  lemma {:induction false} Times(n: nat, a: int, b: int)
    requires a > b
    ensures n * a >= n * b + n
    decreases a - b
  {
    if a > b + 1 {
      Times(n, a - 1, b);
    }
    assert n * a == n * (a - 1) + n;
  }

  /** A number has one quotient and one remainder. */
  lemma {:induction false} OneRemainder(n: nat, q: int, r: nat, p: int, s: nat)
    requires r < n && s < n && n * q + r == n * p + s
    ensures q == p && r == s
  {
    if q > p {
      Times(n, q, p);
    } else if p > q {
      Times(n, p, q);
    }
  }

  lemma {:induction false} Remainder(n: nat, m: nat, q: int, r: nat)
    requires n >= 1 && r < n && m == n * q + r
    ensures m % n == r
  {
    OneRemainder(n, q, r, m / n, m % n);
  }

  lemma {:induction false} StepsTimes(n: nat, t: nat, k: nat)
    requires n >= 1
    ensures k < n * t <==> k / n < t
  {
    var q, r := k / n, k % n;
    assert k == n * q + r;
    if q < t {
      Times(n, t, q);
    } else if q > t {
      Times(n, q, t);
    }
  }
}
