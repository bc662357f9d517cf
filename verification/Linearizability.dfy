/** What the linearizability checker decides, and the invariant of its search. */
module Linearizability {
  import opened Collections

  /** The sequential specification: `step` says whether an operation may return as it did. */
  datatype Model<!S, !I, !O> = Model(init: S, step: (S, I, O) -> (bool, S), equal: (S, S) -> bool)

  /** What the checker needs of `equal`: an equivalence that `step` respects. */
  ghost predicate ModelOk<S(!new), I(!new), O(!new)>(m: Model<S, I, O>) {
    && (forall a :: m.equal(a, a))
    && (forall a, b | m.equal(a, b) :: m.equal(b, a))
    && (forall a, b, c | m.equal(a, b) && m.equal(b, c) :: m.equal(a, c))
    && (forall a, b, i, o | m.equal(a, b) && m.step(a, i, o).0 ::
          m.step(b, i, o).0 && m.equal(m.step(a, i, o).1, m.step(b, i, o).1))
  }

  /** A history of operations 0, 1, ...: what each was called with and returned, and the positions of
      its call and its return in the sequence of all calls and returns. */
  datatype History<I, O> = History(inputs: seq<I>, outputs: seq<O>, calls: seq<nat>, rets: seq<nat>)

  ghost predicate PositionsOk<I, O>(h: History<I, O>)
    requires |h.rets| == |h.calls|
  {
    && (forall c | 0 <= c < |h.calls| :: h.calls[c] < h.rets[c] < 2 * |h.inputs|)
    && (forall c, d | 0 <= c < |h.calls| && 0 <= d < |h.calls| ::
          h.calls[c] != h.rets[d] && (c != d ==> h.calls[c] != h.calls[d] && h.rets[c] != h.rets[d]))
  }

  ghost predicate HistoryOk<I, O>(h: History<I, O>) {
    |h.outputs| == |h.calls| == |h.rets| == |h.inputs| && PositionsOk(h)
  }

  /** Operation `a` returned before operation `b` was called. */
  predicate Precedes<I, O>(h: History<I, O>, a: nat, b: nat)
    requires a < |h.rets| && b < |h.calls|
  {
    h.rets[a] < h.calls[b]
  }

  function Apply<S, I, O>(m: Model<S, I, O>, h: History<I, O>, q: S, c: nat): (bool, S)
    requires c < |h.inputs| == |h.outputs|
  {
    m.step(q, h.inputs[c], h.outputs[c])
  }

  function Ids(p: seq<nat>): set<nat> {
    set c | c in p
  }

  ghost predicate InRange(p: seq<nat>, n: nat) {
    forall i | 0 <= i < |p| :: p[i] < n
  }

  /** The state after the operations of `p`, one after the other. */
  ghost function StateAfter<S, I, O>(m: Model<S, I, O>, h: History<I, O>, p: seq<nat>): S
    requires HistoryOk(h) && InRange(p, |h.inputs|)
  {
    if p == [] then m.init
    else Apply(m, h, StateAfter(m, h, p[..|p| - 1]), p[|p| - 1]).1
  }

  /** `c` may come next after the operations `done`: everything that precedes it is done. */
  ghost predicate Ready<I, O>(h: History<I, O>, done: set<nat>, c: nat)
    requires HistoryOk(h)
  {
    c < |h.inputs| && c !in done && forall d: nat | d < |h.inputs| && Precedes(h, d, c) :: d in done
  }

  /** A legal partial order: each operation was ready and accepted when its turn came. */
  ghost predicate Legal<S, I, O>(m: Model<S, I, O>, h: History<I, O>, p: seq<nat>)
    requires HistoryOk(h)
  {
    && InRange(p, |h.inputs|)
    && (p != [] ==>
          var r, c := p[..|p| - 1], p[|p| - 1];
          Legal(m, h, r) && Ready(h, Ids(r), c) && Apply(m, h, StateAfter(m, h, r), c).0)
  }

  /** Linearizable: all operations, each once, in an order that respects real time and that the
      sequential specification accepts. */
  ghost predicate IsLinearization<S, I, O>(m: Model<S, I, O>, h: History<I, O>, p: seq<nat>)
    requires HistoryOk(h)
  {
    && |p| == |h.inputs| && InRange(p, |h.inputs|)
    && (forall i, j | 0 <= i < j < |p| :: p[i] != p[j] && !Precedes(h, p[j], p[i]))
    && (forall i | 0 <= i < |p| :: Apply(m, h, StateAfter(m, h, p[..i]), p[i]).0)
  }

  ghost predicate Linearizable<S(!new), I, O>(m: Model<S, I, O>, h: History<I, O>)
    requires HistoryOk(h)
  {
    exists p :: IsLinearization(m, h, p)
  }

  // ---- Orders ----

  lemma IdsSnoc(p: seq<nat>, c: nat)
    ensures Ids(p + [c]) == Ids(p) + {c}
  {
  }

  lemma {:induction false} LegalDistinct<S, I, O>(m: Model<S, I, O>, h: History<I, O>, p: seq<nat>)
    requires HistoryOk(h) && Legal(m, h, p)
    ensures |Ids(p)| == |p| <= |h.inputs| && InRange(p, |h.inputs|)
    ensures Distinct(p)
  {
    if p != [] {
      var r, c := p[..|p| - 1], p[|p| - 1];
      LegalDistinct(m, h, r);
      assert p == r + [c];
      IdsSnoc(r, c);
    }
    InRangeSize(Ids(p), |h.inputs|);
  }

  lemma {:induction false} InRangeSize(s: set<nat>, n: nat)
    requires forall c | c in s :: c < n
    ensures |s| <= n
    ensures |s| == n ==> forall c: nat | c < n :: c in s
  {
    if n > 0 {
      InRangeSize(s - {n - 1}, n - 1);
    } else {
      assert s == {};
    }
  }

  lemma {:induction false} LegalPrefix<S, I, O>(m: Model<S, I, O>, h: History<I, O>, p: seq<nat>, i: nat)
    requires HistoryOk(h) && Legal(m, h, p) && i <= |p|
    ensures Legal(m, h, p[..i])
  {
    if i < |p| {
      LegalPrefix(m, h, p[..|p| - 1], i);
      assert p[..|p| - 1][..i] == p[..i];
    } else {
      assert p[..i] == p;
    }
  }

  lemma LegalSnoc<S, I, O>(m: Model<S, I, O>, h: History<I, O>, p: seq<nat>, c: nat)
    requires HistoryOk(h) && Legal(m, h, p) && Ready(h, Ids(p), c) && Apply(m, h, StateAfter(m, h, p), c).0
    ensures Legal(m, h, p + [c]) && Ids(p + [c]) == Ids(p) + {c}
    ensures StateAfter(m, h, p + [c]) == Apply(m, h, StateAfter(m, h, p), c).1
  {
    assert (p + [c])[..|p|] == p;
  }

  lemma LegalAt<S, I, O>(m: Model<S, I, O>, h: History<I, O>, p: seq<nat>, i: nat)
    requires HistoryOk(h) && Legal(m, h, p) && i < |p|
    ensures InRange(p, |h.inputs|) && Legal(m, h, p[..i]) && Ready(h, Ids(p[..i]), p[i])
    ensures Apply(m, h, StateAfter(m, h, p[..i]), p[i]).0
  {
    hide PositionsOk, Ready, StateAfter;
    LegalPrefix(m, h, p, i + 1);
    assert p[..i + 1][..i] == p[..i];
  }

  lemma LegalRespectsTime<S, I, O>(m: Model<S, I, O>, h: History<I, O>, p: seq<nat>, i: nat, j: nat)
    requires HistoryOk(h) && Legal(m, h, p) && i < j < |p|
    ensures InRange(p, |h.inputs|) && p[i] != p[j] && !Precedes(h, p[j], p[i])
  {
    hide StateAfter;
    LegalDistinct(m, h, p);
    LegalAt(m, h, p, i);
    assert p[j] !in p[..i];
  }

  /** A complete legal order is a linearization, and conversely. */
  lemma LegalIsLinearization<S, I, O>(m: Model<S, I, O>, h: History<I, O>, p: seq<nat>)
    requires HistoryOk(h) && |p| == |h.inputs|
    ensures Legal(m, h, p) <==> IsLinearization(m, h, p)
  {
    hide StateAfter, Legal, Precedes, Ready;
    if Legal(m, h, p) {
      LegalDistinct(m, h, p);
      forall i | 0 <= i < |p| ensures Apply(m, h, StateAfter(m, h, p[..i]), p[i]).0 {
        LegalAt(m, h, p, i);
      }
      forall i, j | 0 <= i < j < |p| ensures !Precedes(h, p[j], p[i]) {
        LegalRespectsTime(m, h, p, i, j);
      }
    }
    if IsLinearization(m, h, p) {
      LinearizationLegal(m, h, p, |p|);
      assert p[..|p|] == p;
    }
  }

  lemma {:induction false} LinearizationLegal<S, I, O>(m: Model<S, I, O>, h: History<I, O>, p: seq<nat>, i: nat)
    requires HistoryOk(h) && IsLinearization(m, h, p) && i <= |p|
    ensures Legal(m, h, p[..i])
  {
    hide StateAfter, PositionsOk, Ready, Precedes;
    if i > 0 {
      LinearizationLegal(m, h, p, i - 1);
      assert p[..i] == p[..i - 1] + [p[i - 1]];
      LinearizationReady(m, h, p, i - 1);
      LegalSnoc(m, h, p[..i - 1], p[i - 1]);
    }
  }

  lemma LinearizationReady<S, I, O>(m: Model<S, I, O>, h: History<I, O>, p: seq<nat>, i: nat)
    requires HistoryOk(h) && IsLinearization(m, h, p) && i < |p|
    ensures Ready(h, Ids(p[..i]), p[i])
  {
    hide StateAfter, PositionsOk, Precedes;
    var c := p[i];
    NotSelf(h, c);
    forall d: nat | d < |h.inputs| && Precedes(h, d, c) ensures d in Ids(p[..i]) {
      AllThere(p, |h.inputs|, d);
      var j :| 0 <= j < |p| && p[j] == d;
      assert j < i;
    }
    assert c !in p[..i];
  }

  lemma NotSelf<I, O>(h: History<I, O>, c: nat)
    requires HistoryOk(h) && c < |h.inputs|
    ensures !Precedes(h, c, c)
  {
  }

  lemma {:induction false} DistinctSize(p: seq<nat>)
    requires Distinct(p)
    ensures |Ids(p)| == |p|
  {
    if p != [] {
      var r, c := p[..|p| - 1], p[|p| - 1];
      DistinctSize(r);
      assert p == r + [c];
      IdsSnoc(r, c);
    }
  }

  lemma AllThere(p: seq<nat>, n: nat, d: nat)
    requires |p| == n && InRange(p, n) && Distinct(p) && d < n
    ensures d in p
  {
    DistinctSize(p);
    InRangeSize(Ids(p), n);
    assert d in Ids(p);
  }
}
