/** Where the micronodes of a machinery run live: n + 5 mode indices, rotated from macronode to macronode. */
module ModeAllocator {
  import opened Arithmetic

  const CYCLE3: seq<nat> := [0, 4, 2]

  /** Entry j of the cycle (1 5 6 ... n+4 3). */
  function CycleN2(n: nat, j: nat): nat
    requires j < n + 2
  {
    if j == 0 then 1 else if j == n + 1 then 3 else 4 + j
  }

  /** The mode index of micronode i with respect to macronode k. */
  function ModeIdx(n: nat, k: nat, i: nat): nat {
    if i == 0 then CYCLE3[k % 3]
    else if i == 1 then CycleN2(n, k % (n + 2))
    else if i == 2 then CYCLE3[(2 + k) % 3]
    else if i == 3 then CycleN2(n, (k + n + 1) % (n + 2))
    else if i == 4 then CYCLE3[(1 + k) % 3]
    else CycleN2(n, (k + i - 4) % (n + 2))
  }

  /** `StateObjModeIdx`: the cycle is tabulated once. */
  class StateObjModeIdx {
    const n: nat
    const cycle: array<nat>

    ghost predicate Valid()
      reads this, cycle
    {
      cycle.Length == n + 2 && forall j | 0 <= j < n + 2 :: cycle[j] == CycleN2(n, j)
    }

    constructor (nLocalMacronodes: nat)
      requires nLocalMacronodes >= 1
      ensures Valid() && n == nLocalMacronodes && fresh(cycle)
    {
      n := nLocalMacronodes;
      var tmp := new nat[nLocalMacronodes + 2];
      tmp[0] := 1;
      tmp[nLocalMacronodes + 1] := 3;
      for j := 1 to nLocalMacronodes + 1
        invariant tmp[0] == 1 && tmp[nLocalMacronodes + 1] == 3
        invariant forall l | 1 <= l < j :: tmp[l] == 4 + l
      {
        tmp[j] := 4 + j;
      }
      cycle := tmp;
    }

    method Call(k: nat, i: nat) returns (m: nat)
      requires Valid()
      ensures m == ModeIdx(n, k, i)
    {
      match i {
        case 0 => m := CYCLE3[k % 3];
        case 1 => m := cycle[k % (n + 2)];
        case 2 => m := CYCLE3[(2 + k) % 3];
        case 3 => m := cycle[(k + n + 1) % (n + 2)];
        case 4 => m := CYCLE3[(1 + k) % 3];
        case _ => m := cycle[(k + i - 4) % (n + 2)];
      }
    }
  }

  /** From one macronode to the next the micronodes are renamed, whatever the macronode. */
  function Renaming(n: nat, i: nat): nat {
    if i == 0 then 4
    else if i == 1 then 5
    else if i == 2 then 0
    else if i == 3 then 1
    else if i == 4 then 2
    else if i == n + 4 then 3
    else i + 1
  }

  lemma {:induction false} WrapAround(k: nat, m: nat)
    requires m > 0
    ensures (k + m) % m == k % m
  {
    var q, r := k / m, k % m;
    assert k + m == (q + 1) * m + r;
    ModUnique(k + m, m, q + 1, r);
  }

  lemma {:induction false} ModUnique(a: nat, m: nat, q: nat, r: nat)
    requires m > 0 && a == q * m + r && r < m
    ensures a % m == r
  {
    var q', r' := a / m, a % m;
    assert a == q' * m + r' && r' < m;
    if q > q' {
      AtLeast(q - q', m);
    } else if q < q' {
      AtLeast(q' - q, m);
    }
  }

  lemma {:induction false} RenamingStep(n: nat, k: nat, i: nat)
    requires n >= 1 && i < n + 5
    ensures ModeIdx(n, k + 1, i) == ModeIdx(n, k, Renaming(n, i))
  {
    if i == 3 {
      assert k + 1 + n + 1 == k + (n + 2);
      WrapAround(k, n + 2);
    }
  }

  lemma {:induction false} Initially(n: nat, i: nat)
    requires n >= 1 && i < n + 5
    ensures ModeIdx(n, 0, i) == i
  {
    if i == 3 {
      assert (0 + n + 1) % (n + 2) == n + 1;
    } else if i >= 5 {
      assert (0 + i - 4) % (n + 2) == i - 4;
    }
  }

  /** For every macronode the micronodes 0 .. n+4 have different mode indices, all below n + 5 ... */
  lemma {:induction false} Injective(n: nat, k: nat, i: nat, j: nat)
    requires n >= 1 && i < n + 5 && j < n + 5 && i != j
    ensures ModeIdx(n, k, i) < n + 5
    ensures ModeIdx(n, k, i) != ModeIdx(n, k, j)
    decreases k
  {
    if k == 0 {
      Initially(n, i);
      Initially(n, j);
    } else {
      RenamingStep(n, k - 1, i);
      RenamingStep(n, k - 1, j);
      Injective(n, k - 1, Renaming(n, i), Renaming(n, j));
    }
  }

  /** ... and every mode index is in use: i -> ModeIdx(n, k, i) is a permutation of 0 .. n+4. */
  lemma {:induction false} Surjective(n: nat, k: nat, m: nat) returns (i: nat)
    requires n >= 1 && m < n + 5
    ensures i < n + 5 && ModeIdx(n, k, i) == m
    decreases k
  {
    if k == 0 {
      i := m;
      Initially(n, m);
    } else {
      var j := Surjective(n, k - 1, m);
      i := if j == 4 then 0 else if j == 5 then 1 else if j == 0 then 2 else if j == 1 then 3
           else if j == 2 then 4 else if j == 3 then n + 4 else j - 1;
      RenamingStep(n, k - 1, i);
    }
  }

  /** The micronode index whose mode holds D of macronode k + d, seen from macronode k. */
  function DelaySlot(d: nat): nat {
    if d == 0 then 1 else 4 + d
  }

  /** The mode emitted by macronode k for macronode k + d, 1 <= d <= n, is the one macronode k + d reads. */
  lemma {:induction false} DelayLine(n: nat, k: nat, d: nat)
    requires n >= 1 && d <= n
    ensures ModeIdx(n, k + d, 1) == ModeIdx(n, k, DelaySlot(d))
  {
  }

  /** The micronodes macronode k works on. */
  predicate Active(n: nat, i: nat) {
    i < 5 || i == n + 4
  }

  /** While the mode emitted by macronode k waits in the delay line, no macronode works on it. */
  lemma {:induction false} DelayLineUntouched(n: nat, k: nat, d: nat, i: nat)
    requires n >= 1 && 1 <= d < n && Active(n, i)
    ensures ModeIdx(n, k + d, i) != ModeIdx(n, k, n + 4)
  {
    var j := DelaySlot(n - d);
    DelayLine(n, k, n);
    DelayLine(n, k + d, n - d);
    assert k + d + (n - d) == k + n;
    Injective(n, k + d, i, j);
  }
}
