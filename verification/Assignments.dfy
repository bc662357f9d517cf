/** Assignments of shards to groups: counting, balance, and how many shards change owner. */
module Assignments {
  import opened Collections

  /** An assignment: the owner of each shard. */
  type Owners = seq<int>

  /** How many shards a group has. */
  function Count(a: Owners, g: int): (n: nat)
    ensures n <= |a|
  {
    if a == [] then 0 else Count(a[..|a| - 1], g) + (if a[|a| - 1] == g then 1 else 0)
  }

  /** How many shards a group has in both. */
  function Same(a: Owners, b: Owners, g: int): nat
    requires |a| == |b|
  {
    if a == [] then 0 else Same(a[..|a| - 1], b[..|b| - 1], g) + (if a[|a| - 1] == b[|b| - 1] == g then 1 else 0)
  }

  /** How many shards keep their owner. */
  function Unchanged(a: Owners, b: Owners): (n: nat)
    requires |a| == |b|
    ensures n <= |a|
  {
    if a == [] then 0 else Unchanged(a[..|a| - 1], b[..|b| - 1]) + (if a[|a| - 1] == b[|b| - 1] then 1 else 0)
  }

  /** How many shards change owner. */
  function Changes(a: Owners, b: Owners): nat
    requires |a| == |b|
  {
    |a| - Unchanged(a, b)
  }

  ghost predicate OwnedBy(a: Owners, gs: seq<int>) {
    forall s | 0 <= s < |a| :: a[s] in gs
  }

  /** Every shard has an owner among `gs`, and their loads differ by one at most. */
  ghost predicate Balanced(a: Owners, gs: seq<int>) {
    OwnedBy(a, gs) && forall g, h | g in gs && h in gs :: Count(a, g) <= Count(a, h) + 1
  }

  // ---- Sums over groups ----

  ghost function SumCount(gs: seq<int>, a: Owners): nat {
    if gs == [] then 0 else SumCount(gs[1..], a) + Count(a, gs[0])
  }

  ghost function SumSame(gs: seq<int>, a: Owners, b: Owners): nat
    requires |a| == |b|
  {
    if gs == [] then 0 else SumSame(gs[1..], a, b) + Same(a, b, gs[0])
  }

  lemma {:induction false} SumCountStep(gs: seq<int>, a: Owners)
    requires Distinct(gs) && a != []
    ensures SumCount(gs, a) == SumCount(gs, a[..|a| - 1]) + (if a[|a| - 1] in gs then 1 else 0)
  {
    if gs != [] {
      SumCountStep(gs[1..], a);
      assert gs == [gs[0]] + gs[1..];
    }
  }

  lemma {:induction false} SumCountNone(gs: seq<int>)
    ensures SumCount(gs, []) == 0
  {
    if gs != [] {
      SumCountNone(gs[1..]);
    }
  }

  /** All shards are counted. */
  lemma {:induction false} SumCountAll(gs: seq<int>, a: Owners)
    requires Distinct(gs) && OwnedBy(a, gs)
    ensures SumCount(gs, a) == |a|
  {
    if a == [] {
      SumCountNone(gs);
    } else {
      SumCountAll(gs, a[..|a| - 1]);
      SumCountStep(gs, a);
    }
  }

  lemma {:induction false} SumSameStep(gs: seq<int>, a: Owners, b: Owners)
    requires Distinct(gs) && |a| == |b| > 0
    ensures SumSame(gs, a, b) ==
            SumSame(gs, a[..|a| - 1], b[..|b| - 1]) + (if a[|a| - 1] == b[|b| - 1] && b[|b| - 1] in gs then 1 else 0)
  {
    if gs != [] {
      SumSameStep(gs[1..], a, b);
      assert gs == [gs[0]] + gs[1..];
    }
  }

  lemma {:induction false} SumSameNone(gs: seq<int>)
    ensures SumSame(gs, [], []) == 0
  {
    if gs != [] {
      SumSameNone(gs[1..]);
    }
  }

  /** The shards that keep their owner, group by group. */
  lemma {:induction false} SumSameAll(gs: seq<int>, a: Owners, b: Owners)
    requires Distinct(gs) && OwnedBy(b, gs) && |a| == |b|
    ensures SumSame(gs, a, b) == Unchanged(a, b)
  {
    if a == [] {
      SumSameNone(gs);
    } else {
      SumSameAll(gs, a[..|a| - 1], b[..|b| - 1]);
      SumSameStep(gs, a, b);
    }
  }

  lemma {:induction false} SameAtMost(a: Owners, b: Owners, g: int)
    requires |a| == |b|
    ensures Same(a, b, g) <= Count(a, g) && Same(a, b, g) <= Count(b, g)
  {
    if a != [] {
      SameAtMost(a[..|a| - 1], b[..|b| - 1], g);
    }
  }

  ghost predicate NoGain(a: Owners, b: Owners, g: int)
    requires |a| == |b|
  {
    forall s | 0 <= s < |a| && b[s] == g :: a[s] == g
  }

  ghost predicate NoLoss(a: Owners, b: Owners, g: int)
    requires |a| == |b|
  {
    forall s | 0 <= s < |a| && a[s] == g :: b[s] == g
  }

  lemma {:induction false} SameNoGain(a: Owners, b: Owners, g: int)
    requires |a| == |b| && NoGain(a, b, g)
    ensures Same(a, b, g) == Count(b, g)
  {
    if a != [] {
      SameNoGain(a[..|a| - 1], b[..|b| - 1], g);
    }
  }

  lemma {:induction false} SameNoLoss(a: Owners, b: Owners, g: int)
    requires |a| == |b| && NoLoss(a, b, g)
    ensures Same(a, b, g) == Count(a, g)
  {
    if a != [] {
      SameNoLoss(a[..|a| - 1], b[..|b| - 1], g);
    }
  }

  /** `n` times `k`, by addition. */
  ghost function Times(n: nat, k: int): int {
    if n == 0 then 0 else Times(n - 1, k) + k
  }

  lemma {:induction false} TimesIs(n: nat, k: int)
    ensures Times(n, k) == n * k
  {
    if n > 0 {
      TimesIs(n - 1, k);
      assert n * k == (n - 1) * k + k;
    }
  }

  lemma {:induction false} SumAtMost(gs: seq<int>, a: Owners, k: int)
    requires forall g | g in gs :: Count(a, g) <= k
    ensures SumCount(gs, a) <= Times(|gs|, k)
    ensures (exists g :: g in gs && Count(a, g) < k) ==> SumCount(gs, a) < Times(|gs|, k)
  {
    hide Count;
    if gs != [] {
      assert forall g | g in gs[1..] :: g in gs;
      SumAtMost(gs[1..], a, k);
      assert gs == [gs[0]] + gs[1..];
    }
  }

  lemma {:induction false} SumAtLeast(gs: seq<int>, a: Owners, k: int)
    requires forall g | g in gs :: Count(a, g) >= k
    ensures SumCount(gs, a) >= Times(|gs|, k)
    ensures (exists g :: g in gs && Count(a, g) > k) ==> SumCount(gs, a) > Times(|gs|, k)
  {
    hide Count;
    if gs != [] {
      assert forall g | g in gs[1..] :: g in gs;
      SumAtLeast(gs[1..], a, k);
      assert gs == [gs[0]] + gs[1..];
    }
  }

  /** In a balanced assignment every load is the average, rounded down or up. */
  lemma BalancedCounts(gs: seq<int>, a: Owners, g: int)
    requires Distinct(gs) && Balanced(a, gs) && g in gs
    ensures |a| / |gs| <= Count(a, g) <= |a| / |gs| + 1
  {
    hide Count, SumCount, Times;
    var n, q := |gs|, |a| / |gs|;
    SumCountAll(gs, a);
    Average(|a|, n);
    if Count(a, g) < q {
      SumAtMost(gs, a, q);
    }
    if Count(a, g) > q + 1 {
      SumAtLeast(gs, a, q + 1);
    }
  }

  lemma Average(t: nat, n: nat)
    requires n > 0
    ensures Times(n, t / n) <= t < Times(n, t / n + 1)
  {
    TimesIs(n, t / n);
    TimesIs(n, t / n + 1);
    assert t == n * (t / n) + t % n;
    assert n * (t / n + 1) == n * (t / n) + n;
  }

  // ---- The fewest changes ----

  /** Group by group: a group that has lost shards has no fewer than one that has gained. */
  ghost predicate Levelled(a: Owners, f: Owners, gs: seq<int>)
    requires |a| == |f|
  {
    && (forall g | g in gs :: NoGain(a, f, g) || NoLoss(a, f, g))
    && (forall g, h | g in gs && h in gs && Count(f, h) > Count(a, h) && Count(f, g) < Count(a, g) ::
        Count(f, h) <= Count(f, g))
  }

  lemma SameIsMin(a: Owners, f: Owners, gs: seq<int>, g: int)
    requires |a| == |f| && Levelled(a, f, gs) && g in gs
    ensures Same(a, f, g) == if Count(a, g) <= Count(f, g) then Count(a, g) else Count(f, g)
  {
    SameAtMost(a, f, g);
    if NoGain(a, f, g) {
      SameNoGain(a, f, g);
    } else {
      SameNoLoss(a, f, g);
    }
  }

  lemma {:induction false} PointwiseMore(gs: seq<int>, a: Owners, f: Owners, b: Owners)
    requires |a| == |f| == |b| && forall g | g in gs :: Same(a, f, g) >= Same(a, b, g)
    ensures SumSame(gs, a, f) >= SumSame(gs, a, b)
  {
    if gs != [] {
      assert forall g | g in gs[1..] :: g in gs;
      PointwiseMore(gs[1..], a, f, b);
    }
  }

  lemma {:induction false} PointwiseShift(gs: seq<int>, a: Owners, f: Owners, b: Owners)
    requires |a| == |f| == |b| && forall g | g in gs :: Same(a, f, g) - Same(a, b, g) >= Count(f, g) - Count(b, g)
    ensures SumSame(gs, a, f) - SumSame(gs, a, b) >= SumCount(gs, f) - SumCount(gs, b)
  {
    if gs != [] {
      assert forall g | g in gs[1..] :: g in gs;
      PointwiseShift(gs[1..], a, f, b);
    }
  }

  ghost predicate FullReceiver(a: Owners, f: Owners, gs: seq<int>, q: nat) {
    exists h :: h in gs && Count(a, h) <= q && Count(f, h) == q + 1
  }

  lemma OptimalAt(a: Owners, f: Owners, b: Owners, gs: seq<int>, g: int, q: nat)
    requires |a| == |f| == |b| && Levelled(a, f, gs) && g in gs
    requires q <= Count(f, g) <= q + 1 && q <= Count(b, g) <= q + 1
    ensures FullReceiver(a, f, gs, q) ==> Same(a, f, g) >= Same(a, b, g)
    ensures !FullReceiver(a, f, gs, q) ==> Same(a, f, g) - Same(a, b, g) >= Count(f, g) - Count(b, g)
  {
    SameIsMin(a, f, gs, g);
    SameAtMost(a, b, g);
    if FullReceiver(a, f, gs, q) {
      var h :| h in gs && Count(a, h) <= q && Count(f, h) == q + 1;
      assert Count(f, h) > Count(a, h);
    }
  }

  /** A levelled balanced assignment keeps as many shards in place as any balanced assignment can. */
  lemma Optimal(a: Owners, f: Owners, b: Owners, gs: seq<int>)
    requires |a| == |f| == |b| && Distinct(gs) && gs != [] && Balanced(f, gs) && Balanced(b, gs) && Levelled(a, f, gs)
    ensures Changes(a, f) <= Changes(a, b)
  {
    hide Count, Same, Unchanged, SumSame, SumCount, Levelled, FullReceiver;
    var q := |a| / |gs|;
    forall g | g in gs ensures q <= Count(f, g) <= q + 1 && q <= Count(b, g) <= q + 1 {
      BalancedCounts(gs, f, g);
      BalancedCounts(gs, b, g);
    }
    forall g | g in gs
      ensures FullReceiver(a, f, gs, q) ==> Same(a, f, g) >= Same(a, b, g)
      ensures !FullReceiver(a, f, gs, q) ==> Same(a, f, g) - Same(a, b, g) >= Count(f, g) - Count(b, g)
    {
      OptimalAt(a, f, b, gs, g, q);
    }
    SumSameAll(gs, a, f);
    SumSameAll(gs, a, b);
    SumCountAll(gs, f);
    SumCountAll(gs, b);
    if FullReceiver(a, f, gs, q) {
      PointwiseMore(gs, a, f, b);
    } else {
      PointwiseShift(gs, a, f, b);
    }
  }

  /** An assignment that keeps every owner that another one keeps changes no more owners. */
  lemma {:induction false} KeepsMore(a: Owners, f: Owners, b: Owners)
    requires |a| == |f| == |b| && forall s | 0 <= s < |a| && b[s] == a[s] :: f[s] == a[s]
    ensures Changes(a, f) <= Changes(a, b)
  {
    if a != [] {
      var n := |a| - 1;
      KeepsMore(a[..n], f[..n], b[..n]);
    }
  }
}
