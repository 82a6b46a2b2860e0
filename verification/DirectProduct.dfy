/** The direct product of per-mode peaks: every combination of peaks once, in mixed-radix order. */
module DirectProduct {
  import opened Arithmetic

  // ----- mixed-radix numbers -----

  /** The number of combinations. */
  function Count<P>(modes: seq<seq<P>>): nat {
    if modes == [] then 1 else |modes[0]| * Count(modes[1..])
  }

  lemma {:induction false} ProductBound(a: nat, q: nat, r: nat)
    requires a < q
    ensures a * r + r <= q * r
  {
    assert q * r == a * r + (q - a) * r;
    assert (q - a) * r >= r by { AtLeast(q - a, r); }
  }

  lemma {:induction false} QuotientBound(i: nat, q: nat, r: nat)
    requires i < q * r
    ensures r > 0 && i / r < q && i % r < r && i == (i / r) * r + i % r
  {
    if r == 0 {
      assert false;
    }
    assert i == (i / r) * r + i % r;
    if i / r >= q {
      NotBelow(q, i / r, r);
    }
  }

  lemma {:induction false} NotBelow(q: nat, a: nat, r: nat)
    requires q <= a
    ensures q * r <= a * r
  {
    assert a * r == q * r + (a - q) * r;
  }

  lemma {:induction false} Unique(a: nat, b: nat, r: nat)
    requires b < r
    ensures (a * r + b) / r == a && (a * r + b) % r == b
  {
    var i := a * r + b;
    var q, m := i / r, i % r;
    assert i == q * r + m && m < r;
    if q < a {
      ProductBound(q, a, r);
    } else if q > a {
      ProductBound(a, q, r);
    }
  }

  /** The digits of i, the last mode running fastest. */
  function Digits<P>(modes: seq<seq<P>>, i: nat): (d: seq<nat>)
    requires i < Count(modes)
    ensures |d| == |modes| && forall k | 0 <= k < |d| :: d[k] < |modes[k]|
  {
    if modes == [] then []
    else
      var rest := Count(modes[1..]);
      QuotientBound(i, |modes[0]|, rest);
      [i / rest] + Digits(modes[1..], i % rest)
  }

  /** One peak per mode. */
  ghost predicate IsChoice<P>(modes: seq<seq<P>>, d: seq<nat>) {
    |d| == |modes| && forall k | 0 <= k < |d| :: d[k] < |modes[k]|
  }

  /** The number with the given digits. */
  function Index<P>(modes: seq<seq<P>>, d: seq<nat>): (i: nat)
    requires IsChoice(modes, d)
    ensures i < Count(modes)
  {
    if modes == [] then 0
    else
      var rest := Count(modes[1..]);
      assert IsChoice(modes[1..], d[1..]);
      ProductBound(d[0], |modes[0]|, rest);
      d[0] * rest + Index(modes[1..], d[1..])
  }

  /** Every choice of one peak per mode has its number. */
  lemma {:induction false} DigitsOfIndex<P>(modes: seq<seq<P>>, d: seq<nat>)
    requires IsChoice(modes, d)
    ensures Digits(modes, Index(modes, d)) == d
  {
    if modes != [] {
      assert IsChoice(modes[1..], d[1..]);
      DigitsOfIndex(modes[1..], d[1..]);
      Unique(d[0], Index(modes[1..], d[1..]), Count(modes[1..]));
      assert d == [d[0]] + d[1..];
    }
  }

  /** No two numbers have the same digits. */
  lemma {:induction false} IndexOfDigits<P>(modes: seq<seq<P>>, i: nat)
    requires i < Count(modes)
    ensures IsChoice(modes, Digits(modes, i)) && Index(modes, Digits(modes, i)) == i
  {
    if modes != [] {
      var rest := Count(modes[1..]);
      QuotientBound(i, |modes[0]|, rest);
      IndexOfDigits(modes[1..], i % rest);
      assert Digits(modes, i)[1..] == Digits(modes[1..], i % rest);
    }
  }

  /** The peaks a choice of digits selects. */
  function Chosen<P>(modes: seq<seq<P>>, d: seq<nat>): (c: seq<P>)
    requires IsChoice(modes, d)
    ensures |c| == |modes| && forall k | 0 <= k < |c| :: c[k] == modes[k][d[k]]
  {
    seq(|modes|, k requires 0 <= k < |modes| => modes[k][d[k]])
  }

  function Combination<P>(modes: seq<seq<P>>, i: nat): seq<P>
    requires i < Count(modes)
  {
    Chosen(modes, Digits(modes, i))
  }

  lemma {:induction false} CombinationSplit<P>(modes: seq<seq<P>>, a: nat, b: nat)
    requires modes != [] && a < |modes[0]| && b < Count(modes[1..])
    ensures a * Count(modes[1..]) + b < Count(modes)
    ensures Combination(modes, a * Count(modes[1..]) + b) == [modes[0][a]] + Combination(modes[1..], b)
  {
    var rest := Count(modes[1..]);
    ProductBound(a, |modes[0]|, rest);
    Unique(a, b, rest);
    assert Digits(modes, a * rest + b) == [a] + Digits(modes[1..], b);
  }

  // ----- the enumeration -----

  /** Relative to `before`, `count` slots from `first` on hold the combinations of `modes`, each after the peaks in `front`. */
  ghost predicate Filled<P>(modes: seq<seq<P>>, slots: seq<seq<P>>, before: seq<seq<P>>, front: seq<P>, first: nat, count: nat) {
    && |slots| == |before| && first + count <= |slots| && count <= Count(modes)
    && forall i | 0 <= i < |slots| ::
         slots[i] == if first <= i < first + count then front + Combination(modes, i - first) else before[i]
  }

  lemma {:induction false} NothingFilled<P>(modes: seq<seq<P>>, slots: seq<seq<P>>, front: seq<P>, first: nat)
    requires first <= |slots|
    ensures Filled(modes, slots, slots, front, first, 0)
  {
    hide Count, Combination;
  }

  lemma {:induction false} OneFilled<P>(slots: seq<seq<P>>, before: seq<seq<P>>, front: seq<P>, first: nat)
    requires first < |before| && slots == before[first := front]
    ensures Filled([], slots, before, front, first, 1)
  {
    assert Combination<P>([], 0) == [];
  }

  lemma {:induction false} FilledAt<P>(modes: seq<seq<P>>, slots: seq<seq<P>>, before: seq<seq<P>>, front: seq<P>, first: nat, count: nat, i: nat)
    requires Filled(modes, slots, before, front, first, count) && i < |slots|
    ensures |slots| == |before| && first + count <= |slots| && count <= Count(modes)
    ensures slots[i] == if first <= i < first + count then front + Combination(modes, i - first) else before[i]
  {
    hide Combination, Count;
  }

  lemma {:induction false} CombinationAt<P>(modes: seq<seq<P>>, a: nat, b: nat, done: nat, j: nat)
    requires modes != [] && a < |modes[0]| && b < Count(modes[1..]) && done == a * Count(modes[1..]) && j == done + b
    ensures j < Count(modes) && Combination(modes, j) == [modes[0][a]] + Combination(modes[1..], b)
  {
    hide Combination, Count;
    CombinationSplit(modes, a, b);
  }

  lemma {:induction false} FilledEntry<P>(
    modes: seq<seq<P>>, before: seq<seq<P>>, now: seq<seq<P>>, slots: seq<seq<P>>, front: seq<P>, first: nat, a: nat, rest: nat, done: nat, i: nat)
    requires modes != [] && a < |modes[0]| && rest == Count(modes[1..]) && done == a * rest && done + rest <= Count(modes)
    requires Filled(modes, now, before, front, first, done) && Filled(modes[1..], slots, now, front + [modes[0][a]], first + done, rest)
    requires i < |slots|
    ensures slots[i] == if first <= i < first + (done + rest) then front + Combination(modes, i - first) else before[i]
  {
    hide *;
    FilledAt(modes[1..], slots, now, front + [modes[0][a]], first + done, rest, i);
    FilledAt(modes, now, before, front, first, done, i);
    if first + done <= i < first + done + rest {
      var b := i - (first + done);
      CombinationAt(modes, a, b, done, i - first);
      assert (front + [modes[0][a]]) + Combination(modes[1..], b) == front + ([modes[0][a]] + Combination(modes[1..], b));
    }
  }

  /** One more peak of the first mode. */
  lemma {:induction false} FilledMore<P>(
    modes: seq<seq<P>>, before: seq<seq<P>>, now: seq<seq<P>>, slots: seq<seq<P>>, front: seq<P>, first: nat, a: nat, rest: nat, done: nat)
    requires modes != [] && a < |modes[0]| && rest == Count(modes[1..]) && done == a * rest && done + rest <= Count(modes)
    requires Filled(modes, now, before, front, first, done) && Filled(modes[1..], slots, now, front + [modes[0][a]], first + done, rest)
    ensures Filled(modes, slots, before, front, first, done + rest)
  {
    forall i: nat | i < |slots|
      ensures slots[i] == if first <= i < first + (done + rest) then front + Combination(modes, i - first) else before[i]
    {
      hide Combination, Count;
      FilledEntry(modes, before, now, slots, front, first, a, rest, done, i);
    }
    hide Combination, Count;
  }

  /** What the recursion of the `State` constructor works on. */
  class Enumeration<P> {
    const modes: seq<seq<P>>
    const combinations: array<seq<P>>
    var current: seq<P>
    var iPeak: nat

    constructor (modes: seq<seq<P>>, combinations: array<seq<P>>)
      ensures this.modes == modes && this.combinations == combinations && current == [] && iPeak == 0
    {
      this.modes, this.combinations, current, iPeak := modes, combinations, [], 0;
    }

    /** One peak of the mode at this depth: pushed, combined with the remaining modes, popped. */
    method VisitPeak(depth: nat, a: nat, ghost before: seq<seq<P>>, ghost first: nat, ghost done: nat)
      requires depth < |modes| && a < |modes[depth]| && first + Count(modes[depth..]) <= combinations.Length
      requires done == a * Count(modes[depth + 1..]) && done + Count(modes[depth + 1..]) <= Count(modes[depth..])
      requires iPeak == first + done && Filled(modes[depth..], combinations[..], before, current, first, done)
      modifies `current, `iPeak, combinations
      ensures current == old(current) && iPeak == first + done + Count(modes[depth + 1..])
      ensures Filled(modes[depth..], combinations[..], before, current, first, done + Count(modes[depth + 1..]))
      decreases |modes| - depth, 0
    {
      hide *;
      ghost var now, front := combinations[..], current;
      assert modes[depth..][1..] == modes[depth + 1..] && modes[depth..][0] == modes[depth];
      current := current + [modes[depth][a]];
      Visit(depth + 1);
      FilledMore(modes[depth..], before, now, combinations[..], front, first, a, Count(modes[depth + 1..]), done);
      current := current[..|current| - 1];
      assert current == front;
    }

    /** Pushes the peaks of one mode after the other, and pops them again. */
    method Visit(depth: nat)
      requires depth <= |modes| && iPeak + Count(modes[depth..]) <= combinations.Length
      modifies `current, `iPeak, combinations
      ensures current == old(current) && iPeak == old(iPeak) + Count(modes[depth..])
      ensures Filled(modes[depth..], combinations[..], old(combinations[..]), current, old(iPeak), Count(modes[depth..]))
      decreases |modes| - depth, 1
    {
      ghost var before, front, first := combinations[..], current, iPeak;
      if depth == |modes| {
        combinations[iPeak] := current;
        iPeak := iPeak + 1;
        assert modes[depth..] == [] && combinations[..] == before[first := front];
        OneFilled(combinations[..], before, front, first);
        return;
      }
      ghost var here, rest := modes[depth..], Count(modes[depth + 1..]);
      ghost var done := 0;
      assert here[1..] == modes[depth + 1..] && here[0] == modes[depth];
      assert Count(here) == |modes[depth]| * rest;
      hide Count, Combination, Filled;
      NothingFilled(here, before, front, first);
      for a := 0 to |modes[depth]|
        invariant current == front && iPeak == first + done && done == a * rest && done <= Count(here)
        invariant Filled(here, combinations[..], before, front, first, done)
      {
        ProductBound(a, |modes[depth]|, rest);
        VisitPeak(depth, a, before, first, done);
        done := done + rest;
        OneMoreTime(a, rest);
      }
    }
  }

  /** All combinations, in the order of their numbers. */
  method AllCombinations<P>(modes: seq<seq<P>>) returns (combinations: array<seq<P>>)
    ensures fresh(combinations) && combinations.Length == Count(modes)
    ensures forall i | 0 <= i < combinations.Length :: combinations[i] == Combination(modes, i)
  {
    var nPeaks := 1;
    for k := 0 to |modes|
      invariant nPeaks * Count(modes[k..]) == Count(modes)
    {
      assert modes[k..][1..] == modes[k + 1..];
      Regroup(nPeaks, |modes[k]|, Count(modes[k + 1..]));
      nPeaks := nPeaks * |modes[k]|;
    }
    assert modes[0..] == modes && modes[|modes|..] == [];
    combinations := new seq<P>[nPeaks](_ => []);
    var e := new Enumeration(modes, combinations);
    e.Visit(0);
  }

  lemma {:induction false} Regroup(x: int, y: int, z: int)
    ensures x * (y * z) == (x * y) * z
  {
  }
}
