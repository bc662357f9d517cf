/** The checker's search over (linearized set, state) pairs, without its data structures. */
module Search {
  import opened Linearizability

  type Config<S> = (set<nat>, S)

  /** A pair up to `equal` has been seen. */
  ghost predicate Covered<S(!new), I(!new), O(!new)>(m: Model<S, I, O>, cache: set<Config<S>>, ids: set<nat>, q: S) {
    exists x | x in cache :: x.0 == ids && m.equal(q, x.1)
  }

  /** Every move from (ids, q) with a call before position `pos` leads to a seen pair. */
  ghost predicate Scanned<S(!new), I(!new), O(!new)>(m: Model<S, I, O>, h: History<I, O>, cache: set<Config<S>>,
                                         ids: set<nat>, q: S, pos: int)
    requires HistoryOk(h)
  {
    forall c: nat | c < |h.inputs| && h.calls[c] < pos && Ready(h, ids, c) && Apply(m, h, q, c).0 ::
      Covered(m, cache, ids + {c}, Apply(m, h, q, c).1)
  }

  ghost predicate Done<S(!new), I(!new), O(!new)>(m: Model<S, I, O>, h: History<I, O>, cache: set<Config<S>>,
      x: Config<S>)
    requires HistoryOk(h)
  {
    Scanned(m, h, cache, x.0, x.1, 2 * |h.inputs|)
  }

  /** The pair after the first `i` operations of the stack. */
  ghost function At<S, I, O>(m: Model<S, I, O>, h: History<I, O>, p: seq<nat>, i: nat): Config<S>
    requires HistoryOk(h) && InRange(p, |h.inputs|) && i <= |p|
  {
    (Ids(p[..i]), StateAfter(m, h, p[..i]))
  }

  ghost predicate OnStack<S(!new), I(!new), O(!new)>(m: Model<S, I, O>, h: History<I, O>, p: seq<nat>, x: Config<S>)
    requires HistoryOk(h) && InRange(p, |h.inputs|)
  {
    exists i | 0 < i <= |p| :: x == At(m, h, p, i)
  }

  ghost predicate Reached<S(!new), I(!new), O(!new)>(m: Model<S, I, O>, h: History<I, O>, x: Config<S>)
    requires HistoryOk(h)
  {
    exists r :: Legal(m, h, r) && x == (Ids(r), StateAfter(m, h, r))
  }

  /** No operation outside `ids` returned before position `pos`. */
  ghost predicate NoReturnBefore<I, O>(h: History<I, O>, ids: set<nat>, pos: int)
    requires HistoryOk(h)
  {
    forall d: nat | d < |h.inputs| && d !in ids :: h.rets[d] >= pos
  }

  /** All pairs on the stack are in the cache. */
  ghost predicate StackSeen<S(!new), I(!new), O(!new)>(m: Model<S, I, O>, h: History<I, O>, cache: set<Config<S>>,
      p: seq<nat>)
    requires HistoryOk(h) && InRange(p, |h.inputs|)
  {
    forall i | 0 < i <= |p| :: At(m, h, p, i) in cache
  }

  /** Below the top, the scan has reached the operation taken. */
  ghost predicate StackScanned<S(!new), I(!new), O(!new)>(m: Model<S, I, O>, h: History<I, O>, cache: set<Config<S>>,
      p: seq<nat>)
    requires HistoryOk(h) && InRange(p, |h.inputs|)
  {
    forall i | 0 <= i < |p| :: Scanned(m, h, cache, At(m, h, p, i).0, At(m, h, p, i).1, h.calls[p[i]] + 1)
  }

  ghost predicate StackOk<S(!new), I(!new), O(!new)>(m: Model<S, I, O>, h: History<I, O>, cache: set<Config<S>>,
      p: seq<nat>)
    requires HistoryOk(h)
  {
    Legal(m, h, p) && StackSeen(m, h, cache, p) && StackScanned(m, h, cache, p)
  }

  ghost predicate CacheOk<S(!new), I(!new), O(!new)>(m: Model<S, I, O>, h: History<I, O>, cache: set<Config<S>>,
      p: seq<nat>)
    requires HistoryOk(h) && InRange(p, |h.inputs|)
  {
    && (forall x | x in cache :: Reached(m, h, x) && (OnStack(m, h, p, x) || Done(m, h, cache, x)))
    && (forall x | x in cache && |x.0| == |h.inputs| :: |p| == |h.inputs|)
  }

  /** The stack `p` is a legal order; all pairs on it have been seen and scanned up to the operation above
      them; the top pair has been scanned up to `pos`; every other seen pair is exhausted. */
  ghost predicate SearchInv<S(!new), I(!new), O(!new)>(m: Model<S, I, O>, h: History<I, O>, cache: set<Config<S>>,
      p: seq<nat>, pos: int)
    requires HistoryOk(h)
  {
    && StackOk(m, h, cache, p)
    && CacheOk(m, h, cache, p)
    && Scanned(m, h, cache, Ids(p), StateAfter(m, h, p), pos)
    && NoReturnBefore(h, Ids(p), pos)
  }

  // ---- Steps ----

  lemma SearchStart<S(!new), I(!new), O(!new)>(m: Model<S, I, O>, h: History<I, O>)
    requires HistoryOk(h)
    ensures SearchInv(m, h, {}, [], 0)
  {
  }

  lemma ScannedMore<S(!new), I(!new), O(!new)>(m: Model<S, I, O>, h: History<I, O>, cache: set<Config<S>>,
      cache': set<Config<S>>, ids: set<nat>, q: S, pos: int)
    requires HistoryOk(h) && Scanned(m, h, cache, ids, q, pos) && cache <= cache'
    ensures Scanned(m, h, cache', ids, q, pos)
  {
    hide PositionsOk, Ready;
    forall c: nat | c < |h.inputs| && h.calls[c] < pos && Ready(h, ids, c) && Apply(m, h, q, c).0
      ensures Covered(m, cache', ids + {c}, Apply(m, h, q, c).1)
    {
      assert Covered(m, cache, ids + {c}, Apply(m, h, q, c).1);
    }
  }

  /** The entry at `pos` is a call: it is ready. */
  lemma CallIsReady<S(!new), I(!new), O(!new)>(m: Model<S, I, O>, h: History<I, O>, cache: set<Config<S>>, p: seq<nat>,
      c: nat)
    requires HistoryOk(h) && c < |h.inputs| && c !in Ids(p) && SearchInv(m, h, cache, p, h.calls[c])
    ensures Ready(h, Ids(p), c)
  {
  }

  /** Going past the call at `pos`, whose move is refused or leads to a seen pair. */
  lemma SearchSkip<S(!new), I(!new), O(!new)>(m: Model<S, I, O>, h: History<I, O>, cache: set<Config<S>>, p: seq<nat>,
      c: nat)
    requires HistoryOk(h) && c < |h.inputs| && SearchInv(m, h, cache, p, h.calls[c])
    requires var q := StateAfter(m, h, p);
             Apply(m, h, q, c).0 ==> Covered(m, cache, Ids(p) + {c}, Apply(m, h, q, c).1)
    ensures SearchInv(m, h, cache, p, h.calls[c] + 1)
  {
    hide StackOk, CacheOk, Covered, StateAfter;
  }

  /** Going on to the next entry that is still in the list. */
  lemma SearchAdvance<S(!new), I(!new), O(!new)>(m: Model<S, I, O>, h: History<I, O>, cache: set<Config<S>>,
      p: seq<nat>, pos: int, pos': int)
    requires HistoryOk(h) && SearchInv(m, h, cache, p, pos)
    requires forall d: nat | d < |h.inputs| && d !in Ids(p) :: !(pos <= h.calls[d] < pos') && !(pos <= h.rets[d] < pos')
    ensures SearchInv(m, h, cache, p, pos')
  {
    hide StackOk, CacheOk, Covered, StateAfter;
  }

  lemma StackPrefix<S, I, O>(m: Model<S, I, O>, h: History<I, O>, p: seq<nat>, c: nat, i: nat)
    requires HistoryOk(h) && InRange(p + [c], |h.inputs|) && i <= |p|
    ensures InRange(p, |h.inputs|) && At(m, h, p + [c], i) == At(m, h, p, i)
  {
    assert (p + [c])[..i] == p[..i];
    assert forall k | 0 <= k < |p| :: p[k] == (p + [c])[k];
  }

  lemma PushSeen<S(!new), I(!new), O(!new)>(m: Model<S, I, O>, h: History<I, O>, cache: set<Config<S>>, p: seq<nat>,
      c: nat, x: Config<S>)
    requires HistoryOk(h) && InRange(p, |h.inputs|) && StackSeen(m, h, cache, p) && InRange(p + [c], |h.inputs|)
    requires x == At(m, h, p + [c], |p| + 1)
    ensures StackSeen(m, h, cache + {x}, p + [c])
  {
    hide PositionsOk, StateAfter, Ids;
    forall i | 0 < i <= |p| + 1 ensures At(m, h, p + [c], i) in cache + {x} {
      if i <= |p| {
        StackPrefix(m, h, p, c, i);
      }
    }
  }

  lemma PushScans<S(!new), I(!new), O(!new)>(m: Model<S, I, O>, h: History<I, O>, cache: set<Config<S>>, p: seq<nat>,
      c: nat, x: Config<S>)
    requires HistoryOk(h) && ModelOk(m) && InRange(p, |h.inputs|) && StackScanned(m, h, cache, p)
    requires InRange(p + [c], |h.inputs|) && c < |h.inputs|
    requires Scanned(m, h, cache, Ids(p), StateAfter(m, h, p), h.calls[c])
    requires x == (Ids(p) + {c}, Apply(m, h, StateAfter(m, h, p), c).1)
    ensures StackScanned(m, h, cache + {x}, p + [c])
  {
    hide PositionsOk, Scanned, StateAfter, Ids;
    var p', cache' := p + [c], cache + {x};
    forall i | 0 <= i < |p'| ensures Scanned(m, h, cache', At(m, h, p', i).0, At(m, h, p', i).1, h.calls[p'[i]] + 1) {
      StackPrefix(m, h, p, c, i);
      if i < |p| {
        ScannedMore(m, h, cache, cache', At(m, h, p, i).0, At(m, h, p, i).1, h.calls[p[i]] + 1);
      } else {
        assert p[..|p|] == p;
        PushedScanned(m, h, cache, p, c, x);
      }
    }
  }

  lemma PushStack<S(!new), I(!new), O(!new)>(m: Model<S, I, O>, h: History<I, O>, cache: set<Config<S>>, p: seq<nat>,
      c: nat, x: Config<S>)
    requires HistoryOk(h) && ModelOk(m) && c < |h.inputs| && c !in Ids(p) && SearchInv(m, h, cache, p, h.calls[c])
    requires Apply(m, h, StateAfter(m, h, p), c).0
    requires x == (Ids(p) + {c}, Apply(m, h, StateAfter(m, h, p), c).1)
    ensures StackOk(m, h, cache + {x}, p + [c]) && x == At(m, h, p + [c], |p| + 1)
  {
    hide CacheOk, PositionsOk, Scanned, StateAfter, Ready, NoReturnBefore, StackSeen, StackScanned;
    CallIsReady(m, h, cache, p, c);
    LegalSnoc(m, h, p, c);
    assert (p + [c])[..|p| + 1] == p + [c];
    PushSeen(m, h, cache, p, c, x);
    PushScans(m, h, cache, p, c, x);
  }

  lemma PushedScanned<S(!new), I(!new), O(!new)>(m: Model<S, I, O>, h: History<I, O>, cache: set<Config<S>>,
      p: seq<nat>, c: nat, x: Config<S>)
    requires HistoryOk(h) && ModelOk(m) && c < |h.inputs| && InRange(p, |h.inputs|)
    requires Scanned(m, h, cache, Ids(p), StateAfter(m, h, p), h.calls[c])
    requires x == (Ids(p) + {c}, Apply(m, h, StateAfter(m, h, p), c).1)
    ensures Scanned(m, h, cache + {x}, Ids(p), StateAfter(m, h, p), h.calls[c] + 1)
  {
    hide StateAfter, Ready;
    ScannedMore(m, h, cache, cache + {x}, Ids(p), StateAfter(m, h, p), h.calls[c]);
    assert Covered(m, cache + {x}, x.0, x.1);
  }

  /** Taking the call at `pos`: it goes on the stack and its pair into the cache. */
  lemma SearchPush<S(!new), I(!new), O(!new)>(m: Model<S, I, O>, h: History<I, O>, cache: set<Config<S>>, p: seq<nat>,
      c: nat, x: Config<S>)
    requires HistoryOk(h) && ModelOk(m) && c < |h.inputs| && c !in Ids(p) && SearchInv(m, h, cache, p, h.calls[c])
    requires Apply(m, h, StateAfter(m, h, p), c).0
    requires x == (Ids(p) + {c}, Apply(m, h, StateAfter(m, h, p), c).1)
    requires !Covered(m, cache, x.0, x.1)
    ensures SearchInv(m, h, cache + {x}, p + [c], 0) && x !in cache
  {
    hide PositionsOk, Ready, StateAfter, Scanned, NoReturnBefore;
    var p', cache' := p + [c], cache + {x};
    PushStack(m, h, cache, p, c, x);
    PushCache(m, h, cache, p, c, x);
    StartOfScan(m, h, cache', p');
  }

  lemma StartOfScan<S(!new), I(!new), O(!new)>(m: Model<S, I, O>, h: History<I, O>, cache: set<Config<S>>, p: seq<nat>)
    requires HistoryOk(h) && InRange(p, |h.inputs|)
    ensures Scanned(m, h, cache, Ids(p), StateAfter(m, h, p), 0) && NoReturnBefore(h, Ids(p), 0)
  {
  }

  lemma PushCache<S(!new), I(!new), O(!new)>(m: Model<S, I, O>, h: History<I, O>, cache: set<Config<S>>, p: seq<nat>,
      c: nat, x: Config<S>)
    requires HistoryOk(h) && Legal(m, h, p) && CacheOk(m, h, cache, p) && c !in Ids(p) && c < |h.inputs|
    requires Legal(m, h, p + [c]) && x == At(m, h, p + [c], |p| + 1)
    ensures CacheOk(m, h, cache + {x}, p + [c])
  {
    hide PositionsOk, Ready, StateAfter, Scanned;
    var p', cache' := p + [c], cache + {x};
    LegalDistinct(m, h, p);
    LegalDistinct(m, h, p');
    assert p'[..|p| + 1] == p';
    forall y | y in cache' ensures Reached(m, h, y) && (OnStack(m, h, p', y) || Done(m, h, cache', y)) {
      if y in cache {
        if OnStack(m, h, p, y) {
          var i :| 0 < i <= |p| && y == At(m, h, p, i);
          StackPrefix(m, h, p, c, i);
        } else {
          ScannedMore(m, h, cache, cache', y.0, y.1, 2 * |h.inputs|);
        }
      }
    }
    NotFull(m, h, p, c);
  }

  /** With an operation left to take, the stack is not complete. */
  lemma NotFull<S(!new), I(!new), O(!new)>(m: Model<S, I, O>, h: History<I, O>, p: seq<nat>, c: nat)
    requires HistoryOk(h) && Legal(m, h, p) && c !in Ids(p) && c < |h.inputs|
    ensures |p| < |h.inputs|
  {
    LegalDistinct(m, h, p);
    InRangeSize(Ids(p), |h.inputs|);
  }

  /** A return at `pos` that is not linearized ends the scan: nothing after it is ready. */
  lemma TopIsDone<S(!new), I(!new), O(!new)>(m: Model<S, I, O>, h: History<I, O>, cache: set<Config<S>>, ids: set<nat>,
      q: S, d: nat)
    requires HistoryOk(h) && d < |h.inputs| && d !in ids && Scanned(m, h, cache, ids, q, h.rets[d])
    ensures Done(m, h, cache, (ids, q))
  {
    hide Covered;
    forall c: nat | c < |h.inputs| && Ready(h, ids, c) && Apply(m, h, q, c).0
      ensures Covered(m, cache, ids + {c}, Apply(m, h, q, c).1)
    {
      assert !Precedes(h, d, c);
    }
  }

  lemma PopStack<S(!new), I(!new), O(!new)>(m: Model<S, I, O>, h: History<I, O>, cache: set<Config<S>>, r: seq<nat>,
      c: nat)
    requires HistoryOk(h) && StackOk(m, h, cache, r + [c])
    ensures StackOk(m, h, cache, r) && c < |h.inputs|
    ensures Scanned(m, h, cache, Ids(r), StateAfter(m, h, r), h.calls[c] + 1)
    ensures NoReturnBefore(h, Ids(r), h.calls[c] + 1)
  {
    hide PositionsOk, Scanned, StateAfter, Ids, Legal, Ready, NoReturnBefore;
    var p, k := r + [c], |r|;
    LegalAt(m, h, p, k);
    assert p[..k] == r && p[k] == c;
    ReadyNoReturn(h, Ids(r), c);
    forall i | 0 <= i <= k ensures At(m, h, r, i) == At(m, h, p, i) {
      StackPrefix(m, h, r, c, i);
    }
    assert forall i | 0 <= i < k :: r[i] == p[i];
    assert At(m, h, p, k) == (Ids(r), StateAfter(m, h, r));
  }

  lemma PopCache<S(!new), I(!new), O(!new)>(m: Model<S, I, O>, h: History<I, O>, cache: set<Config<S>>, r: seq<nat>,
      c: nat)
    requires HistoryOk(h) && InRange(r + [c], |h.inputs|) && InRange(r, |h.inputs|)
    requires CacheOk(m, h, cache, r + [c]) && |r| + 1 < |h.inputs|
    requires Done(m, h, cache, (Ids(r + [c]), StateAfter(m, h, r + [c])))
    ensures CacheOk(m, h, cache, r)
  {
    hide PositionsOk, Scanned, StateAfter, Ids, Legal;
    var p := r + [c];
    assert p[..|p|] == p;
    forall y | y in cache ensures OnStack(m, h, r, y) || Done(m, h, cache, y) {
      if OnStack(m, h, p, y) {
        var i :| 0 < i <= |p| && y == At(m, h, p, i);
        if i <= |r| {
          StackPrefix(m, h, r, c, i);
        }
      }
    }
  }

  /** Backtracking from a return at `pos`: the top pair is exhausted, and the scan below resumes just
      after the operation taken back. */
  lemma SearchPop<S(!new), I(!new), O(!new)>(m: Model<S, I, O>, h: History<I, O>, cache: set<Config<S>>, r: seq<nat>,
      c: nat, d: nat)
    requires HistoryOk(h) && d < |h.inputs| && d !in Ids(r + [c]) && SearchInv(m, h, cache, r + [c], h.rets[d])
    ensures c < |h.inputs| && SearchInv(m, h, cache, r, h.calls[c] + 1)
  {
    hide PositionsOk, Ready, StateAfter, Scanned, NoReturnBefore, Ids, CacheOk;
    var p := r + [c];
    TopIsDone(m, h, cache, Ids(p), StateAfter(m, h, p), d);
    PopStack(m, h, cache, r, c);
    NotFull(m, h, p, d);
    PopCache(m, h, cache, r, c);
  }

  lemma ReadyNoReturn<I(!new), O(!new)>(h: History<I, O>, ids: set<nat>, c: nat)
    requires HistoryOk(h) && Ready(h, ids, c)
    ensures NoReturnBefore(h, ids, h.calls[c] + 1)
  {
  }

  // ---- Verdicts ----

  /** Every legal order leads to a seen pair once all seen pairs and the start are exhausted. */
  lemma {:induction false} Exhausted<S(!new), I(!new), O(!new)>(m: Model<S, I, O>, h: History<I, O>,
      cache: set<Config<S>>, p: seq<nat>)
    requires HistoryOk(h) && ModelOk(m) && Legal(m, h, p) && p != []
    requires Done(m, h, cache, ({}, m.init)) && forall x | x in cache :: Done(m, h, cache, x)
    ensures Covered(m, cache, Ids(p), StateAfter(m, h, p))
  {
    hide PositionsOk, Ready, Done;
    var k := |p| - 1;
    var r, c := p[..k], p[k];
    assert p == r + [c];
    IdsSnoc(r, c);
    var x: Config<S> := ({}, m.init);
    if r != [] {
      Exhausted(m, h, cache, r);
      x :| x in cache && x.0 == Ids(r) && m.equal(StateAfter(m, h, r), x.1);
    } else {
      assert Ids(r) == {};
    }
    CoveredFrom(m, h, cache, x, StateAfter(m, h, r), c);
  }

  lemma CoveredFrom<S(!new), I(!new), O(!new)>(m: Model<S, I, O>, h: History<I, O>, cache: set<Config<S>>, x: Config<S>,
      q: S, c: nat)
    requires HistoryOk(h) && ModelOk(m) && Done(m, h, cache, x) && m.equal(q, x.1)
    requires Ready(h, x.0, c) && Apply(m, h, q, c).0
    ensures Covered(m, cache, x.0 + {c}, Apply(m, h, q, c).1)
  {
    assert h.calls[c] < 2 * |h.inputs|;
    assert Covered(m, cache, x.0 + {c}, Apply(m, h, x.1, c).1);
    var y :| y in cache && y.0 == x.0 + {c} && m.equal(Apply(m, h, x.1, c).1, y.1);
    assert m.equal(Apply(m, h, q, c).1, y.1);
  }

  /** Backtracking past the start: no linearization exists. */
  lemma NoneExists<S(!new), I(!new), O(!new)>(m: Model<S, I, O>, h: History<I, O>, cache: set<Config<S>>, d: nat)
    requires HistoryOk(h) && ModelOk(m) && d < |h.inputs| && SearchInv(m, h, cache, [], h.rets[d])
    ensures Done(m, h, cache, ({}, m.init)) && (forall x | x in cache :: Done(m, h, cache, x))
    ensures !Linearizable(m, h)
  {
    hide PositionsOk, Ready, Scanned;
    assert Ids([]) == {};
    TopIsDone(m, h, cache, {}, m.init, d);
    if p :| IsLinearization(m, h, p) {
      LegalIsLinearization(m, h, p);
      Exhausted(m, h, cache, p);
      LegalDistinct(m, h, p);
      assert false;
    }
  }

  /** A complete stack is a linearization. */
  lemma OneFound<S(!new), I(!new), O(!new)>(m: Model<S, I, O>, h: History<I, O>, cache: set<Config<S>>, p: seq<nat>,
      pos: int)
    requires HistoryOk(h) && SearchInv(m, h, cache, p, pos) && |p| == |h.inputs|
    ensures IsLinearization(m, h, p) && Linearizable(m, h)
  {
    hide PositionsOk, Ready, StateAfter, Scanned;
    LegalIsLinearization(m, h, p);
  }

  // ---- The search is finite ----

  /** All sequences of `k` operations out of `n`. */
  ghost function Sequences(n: nat, k: nat): set<seq<nat>> {
    if k == 0 then {[]}
    else set r, c | r in Sequences(n, k - 1) && c in Numbers(n) :: r + [c]
  }

  ghost function Numbers(n: nat): (r: set<nat>)
    ensures forall c :: c in r <==> 0 <= c < n
  {
    if n == 0 then {} else Numbers(n - 1) + {n - 1}
  }

  ghost function UpTo(n: nat, k: nat): set<seq<nat>> {
    if k == 0 then Sequences(n, 0) else UpTo(n, k - 1) + Sequences(n, k)
  }

  lemma {:induction false} InSequences(p: seq<nat>, n: nat)
    requires InRange(p, n)
    ensures p in Sequences(n, |p|)
  {
    if p != [] {
      var r, c := p[..|p| - 1], p[|p| - 1];
      InSequences(r, n);
      assert p == r + [c];
    }
  }

  lemma {:induction false} InUpTo(p: seq<nat>, n: nat, k: nat)
    requires InRange(p, n) && |p| <= k
    ensures p in UpTo(n, k)
  {
    InSequences(p, n);
    if |p| < k {
      InUpTo(p, n, k - 1);
    }
  }

  /** All pairs a legal order can reach. */
  ghost function AllConfigs<S(!new), I(!new), O(!new)>(m: Model<S, I, O>, h: History<I, O>): set<Config<S>>
    requires HistoryOk(h)
  {
    set r | r in UpTo(|h.inputs|, |h.inputs|) && InRange(r, |h.inputs|) :: (Ids(r), StateAfter(m, h, r))
  }

  lemma CacheBounded<S(!new), I(!new), O(!new)>(m: Model<S, I, O>, h: History<I, O>, cache: set<Config<S>>, p: seq<nat>,
      pos: int)
    requires HistoryOk(h) && SearchInv(m, h, cache, p, pos)
    ensures cache <= AllConfigs(m, h)
  {
    hide PositionsOk, Ready, StateAfter, Scanned, UpTo;
    forall x | x in cache ensures x in AllConfigs(m, h) {
      var r :| Legal(m, h, r) && x == (Ids(r), StateAfter(m, h, r));
      LegalDistinct(m, h, r);
      InUpTo(r, |h.inputs|, |h.inputs|);
    }
  }
}
