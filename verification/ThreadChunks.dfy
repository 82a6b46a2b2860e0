/** Dividing consecutive items among threads. */
module ThreadChunks {
  import opened Arithmetic

  /** Ranges that follow each other from 0 to n, none of them empty. */
  predicate AreChunks(bounds: seq<(nat, nat)>, n: nat) {
    && bounds != [] && bounds[0].0 == 0 && bounds[|bounds| - 1].1 == n
    && (forall t | 0 < t < |bounds| :: bounds[t].0 == bounds[t - 1].1)
    && (forall t | 0 <= t < |bounds| :: bounds[t].0 < bounds[t].1)
  }

  /** No range is longer than a range before it, or by more than one item than any other. */
  predicate Balanced(bounds: seq<(nat, nat)>) {
    forall t, u | 0 <= t < u < |bounds| :: Size(bounds[t]) - 1 <= Size(bounds[u]) <= Size(bounds[t])
  }

  function Size(range: (nat, nat)): int { range.1 as int - range.0 as int }

  /** The first n % t of t threads take n / t + 1 items each, the others n / t.  Without items there is no
      thread to divide by. */
  method Chunks(n: nat, maxThreads: nat) returns (bounds: seq<(nat, nat)>, ok: bool)
    requires maxThreads >= 1
    ensures ok == (n > 0)
    ensures ok ==> AreChunks(bounds, n) && |bounds| == (if n < maxThreads then n else maxThreads) && Balanced(bounds)
  {
    bounds := [];
    var threads := if n < maxThreads then n else maxThreads;
    if threads == 0 {
      return bounds, false;
    }
    var perThread, additional, start := n / threads, n % threads, 0;
    Division(n, threads);
    ghost var full := 0;                  // t * perThread
    for t := 0 to threads
      invariant |bounds| == t
      invariant full == t * perThread && start == full + (if t < additional then t else additional)
      invariant t > 0 ==> bounds[0].0 == 0 && bounds[t - 1].1 == start
      invariant forall l | 0 < l < t :: bounds[l].0 == bounds[l - 1].1
      invariant forall l | 0 <= l < t :: bounds[l].0 < bounds[l].1
      invariant forall l | 0 <= l < t :: Size(bounds[l]) == perThread + (if l < additional then 1 else 0)
    {
      var end := start + perThread + (if t < additional then 1 else 0);
      bounds := bounds + [(start, end)];
      start := end;
      OneMoreTime(t, perThread);
      full := full + perThread;
    }
    ok := true;
  }

  lemma {:induction false} Division(n: nat, t: nat)
    requires 1 <= t <= n
    ensures n == t * (n / t) + n % t && n / t >= 1 && n % t < t
  {
  }

  /** Consecutive nonempty chunks from 0 to n contain every item exactly once. */
  lemma {:induction false} ChunksPartition(bounds: seq<(nat, nat)>, n: nat, item: nat)
    requires AreChunks(bounds, n) && item < n
    ensures exists t :: 0 <= t < |bounds| && bounds[t].0 <= item < bounds[t].1
    ensures forall t, u | 0 <= t < |bounds| && 0 <= u < |bounds|
              && bounds[t].0 <= item < bounds[t].1 && bounds[u].0 <= item < bounds[u].1 :: t == u
  {
    forall t, u | 0 <= t < u < |bounds| ensures bounds[t].1 <= bounds[u].0 {
      ChunksOrdered(bounds, n, t, u);
    }
    var t := |bounds| - 1;
    while item < bounds[t].0
      invariant 0 <= t < |bounds| && item < bounds[t].1
      decreases t
    {
      t := t - 1;
    }
  }

  lemma {:induction false} ChunksOrdered(bounds: seq<(nat, nat)>, n: nat, t: nat, u: nat)
    requires AreChunks(bounds, n) && t < u < |bounds|
    ensures bounds[t].1 <= bounds[u].0
    decreases u
  {
    if t < u - 1 {
      ChunksOrdered(bounds, n, t, u - 1);
    }
  }
}
