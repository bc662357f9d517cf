/** The checker: a backtracking search over a doubly linked history, with a cache of seen pairs. */
module Checker {
  import opened Linearizability
  import opened LinkedEntries
  import opened EntryLists
  import opened Search
  import opened Bitsets

  datatype Option<T> = None | Some(value: T)

  // ---- The cache ----

  /** A cached pair; the bitset is a copy that is never changed, so it is kept as its words. */
  datatype CacheEntry<S> = CacheEntry(linearized: seq<bv64>, state: S)

  datatype Key = Key(hash: bv64)

  type Cache<S> = map<Key, seq<CacheEntry<S>>>

  function Bucket<S>(cache: Cache<S>, key: Key): seq<CacheEntry<S>> {
    if key in cache then cache[key] else []
  }

  function KeyOf<S>(e: CacheEntry<S>): Key {
    Key(HashOf(e.linearized))
  }

  ghost function PairOf<S>(e: CacheEntry<S>): Config<S> {
    (Members(e.linearized), e.state)
  }

  /** Every entry is in the bucket of its hash and is a seen pair. */
  ghost predicate EntriesSeen<S(!new)>(cache: Cache<S>, seen: set<Config<S>>, width: nat) {
    forall key, e: CacheEntry<S> | e in Bucket(cache, key) ::
      KeyOf(e) == key && |e.linearized| == width && PairOf(e) in seen
  }

  ghost predicate Stored<S(!new)>(cache: Cache<S>, x: Config<S>) {
    exists key, e: CacheEntry<S> :: e in Bucket(cache, key) && PairOf(e) == x
  }

  /** The cache holds exactly the pairs in `seen`. */
  ghost predicate CacheIs<S(!new)>(cache: Cache<S>, seen: set<Config<S>>, width: nat) {
    EntriesSeen(cache, seen, width) && forall x | x in seen :: Stored(cache, x)
  }

  /** Looking a pair up finds it exactly when an equal pair has been seen: a bucket misses none. */
  method CacheContains<S(!new), I(!new), O(!new)>(m: Model<S, I, O>, cache: Cache<S>, linearized: Bitset, state: S,
      ghost seen: set<Config<S>>)
    returns (found: bool)
    requires CacheIs(cache, seen, linearized.words.Length)
    ensures found <==> Covered(m, seen, linearized.Elements(), state)
  {
    hide HashOf, Members;
    ghost var entry := CacheEntry(linearized.words[..], state);
    var hash := linearized.Hash();
    var bucket := Bucket(cache, Key(hash));
    var k := 0;
    while k < |bucket|
      invariant 0 <= k <= |bucket|
      invariant forall j | 0 <= j < k :: !(entry.linearized == bucket[j].linearized
                                           && m.equal(entry.state, bucket[j].state))
    {
      var elem := bucket[k];
      var other := new Bitset.Of(elem.linearized);
      var same := linearized.Equals(other);
      if same && m.equal(state, elem.state) {
        assert PairOf(elem) in seen;
        return true;
      }
      k := k + 1;
    }
    if Covered(m, seen, Members(entry.linearized), entry.state) {
      NotMissed(m, cache, entry, seen);
      assert false;
    }
    return false;
  }

  lemma NotMissed<S(!new), I(!new), O(!new)>(m: Model<S, I, O>, cache: Cache<S>, entry: CacheEntry<S>,
      seen: set<Config<S>>)
    requires CacheIs(cache, seen, |entry.linearized|) && Covered(m, seen, Members(entry.linearized), entry.state)
    ensures exists e ::
              e in Bucket(cache, KeyOf(entry)) && e.linearized == entry.linearized && m.equal(entry.state, e.state)
  {
    hide HashOf, Members;
    var x :| x in seen && x.0 == Members(entry.linearized) && m.equal(entry.state, x.1);
    assert Stored(cache, x);
    var key, e: CacheEntry<S> :| e in Bucket(cache, key) && PairOf(e) == x;
    MembersInjective(e.linearized, entry.linearized);
  }

  function Added<S>(cache: Cache<S>, entry: CacheEntry<S>): Cache<S> {
    cache[KeyOf(entry) := Bucket(cache, KeyOf(entry)) + [entry]]
  }

  lemma AddedBucket<S>(cache: Cache<S>, entry: CacheEntry<S>, key: Key, e: CacheEntry<S>)
    ensures e in Bucket(Added(cache, entry), key) <==> e in Bucket(cache, key) || (key == KeyOf(entry) && e == entry)
  {
  }

  lemma CacheAdd<S(!new)>(cache: Cache<S>, seen: set<Config<S>>, entry: CacheEntry<S>)
    requires CacheIs(cache, seen, |entry.linearized|)
    ensures CacheIs(Added(cache, entry), seen + {PairOf(entry)}, |entry.linearized|)
  {
    hide HashOf, Members, Bucket, Added;
    var cache' := Added(cache, entry);
    forall key, e: CacheEntry<S> ensures e in Bucket(cache', key) <==>
      e in Bucket(cache, key) || (key == KeyOf(entry) && e == entry)
    {
      AddedBucket(cache, entry, key, e);
    }
    forall x | x in seen ensures Stored(cache', x) {
      assert Stored(cache, x);
    }
    assert entry in Bucket(cache', KeyOf(entry));
  }

  // ---- The longest orders found ----

  type Orders = seq<Option<seq<nat>>>

  /** The order `p` replaces every shorter order recorded for one of its operations. */
  function Recorded(longest: Orders, p: seq<nat>): Orders {
    seq(|longest|, c requires 0 <= c < |longest| => Better(longest[c], c, p))
  }

  function Better(old_: Option<seq<nat>>, c: nat, p: seq<nat>): Option<seq<nat>> {
    if c in p && (old_.None? || |p| > |old_.value|) then Some(p) else old_
  }

  /** What is recorded for an operation is a legal order with that operation. */
  ghost predicate LongestOk<S(!new), I(!new), O(!new)>(m: Model<S, I, O>, h: History<I, O>, longest: Orders)
    requires HistoryOk(h)
  {
    forall c: nat | c < |longest| && longest[c].Some? :: Legal(m, h, longest[c].value) && c in longest[c].value
  }

  /** For every operation of the pair, an order at least as long is recorded. */
  ghost predicate Noted<S>(longest: Orders, x: Config<S>) {
    forall c | c in x.0 :: c < |longest| && longest[c].Some? && |longest[c].value| >= |x.0|
  }

  /** All pairs that were backtracked from are noted. */
  ghost predicate AllNoted<S(!new), I(!new), O(!new)>(m: Model<S, I, O>, h: History<I, O>, longest: Orders,
      seen: set<Config<S>>, p: seq<nat>)
    requires HistoryOk(h) && InRange(p, |h.inputs|)
  {
    forall x | x in seen && !OnStack(m, h, p, x) :: Noted(longest, x)
  }

  /** The longest legal orders: nothing legal with an operation is longer than what is recorded for it. */
  ghost predicate Longest<S(!new), I(!new), O(!new)>(m: Model<S, I, O>, h: History<I, O>, longest: Orders)
    requires HistoryOk(h)
  {
    forall p, c: nat | Legal(m, h, p) && c in p :: c < |longest| && longest[c].Some? && |longest[c].value| >= |p|
  }

  lemma NotedMore<S>(longest: Orders, p: seq<nat>, x: Config<S>)
    requires Noted(longest, x)
    ensures Noted(Recorded(longest, p), x)
  {
  }

  lemma NotedNow<S>(longest: Orders, p: seq<nat>, x: Config<S>)
    requires InRange(p, |longest|) && x.0 == Ids(p) && |x.0| == |p|
    ensures Noted(Recorded(longest, p), x)
  {
  }

  lemma PushNoted<S(!new), I(!new), O(!new)>(m: Model<S, I, O>, h: History<I, O>, longest: Orders, seen: set<Config<S>>,
      p: seq<nat>, c: nat)
    requires HistoryOk(h) && InRange(p, |h.inputs|) && AllNoted(m, h, longest, seen, p) && InRange(p + [c], |h.inputs|)
    ensures AllNoted(m, h, longest, seen + {At(m, h, p + [c], |p| + 1)}, p + [c])
  {
    hide PositionsOk, StateAfter, Ids, Noted, At;
    forall y | OnStack(m, h, p, y) ensures OnStack(m, h, p + [c], y) {
      var i :| 0 < i <= |p| && y == At(m, h, p, i);
      StackPrefix(m, h, p, c, i);
    }
    assert OnStack(m, h, p + [c], At(m, h, p + [c], |p| + 1));
  }

  lemma PopNoted<S(!new), I(!new), O(!new)>(m: Model<S, I, O>, h: History<I, O>, longest: Orders, seen: set<Config<S>>,
      r: seq<nat>, c: nat)
    requires HistoryOk(h) && |longest| == |h.inputs| && Legal(m, h, r + [c]) && InRange(r, |h.inputs|)
    requires AllNoted(m, h, longest, seen, r + [c])
    ensures AllNoted(m, h, Recorded(longest, r + [c]), seen, r)
  {
    hide PositionsOk, StateAfter, Noted, Ready, Recorded;
    var p := r + [c];
    LegalDistinct(m, h, p);
    forall y | y in seen && !OnStack(m, h, r, y) ensures Noted(Recorded(longest, p), y) {
      if OnStack(m, h, p, y) {
        var i :| 0 < i <= |p| && y == At(m, h, p, i);
        if i <= |r| {
          StackPrefix(m, h, r, c, i);
          assert false;
        }
        assert p[..i] == p;
        NotedNow(longest, p, y);
      } else {
        NotedMore(longest, p, y);
      }
    }
  }

  lemma NowLongest<S(!new), I(!new), O(!new)>(m: Model<S, I, O>, h: History<I, O>, longest: Orders,
      seen: set<Config<S>>)
    requires HistoryOk(h) && ModelOk(m) && AllNoted(m, h, longest, seen, [])
    requires Done(m, h, seen, ({}, m.init)) && forall x | x in seen :: Done(m, h, seen, x)
    ensures Longest(m, h, longest)
  {
    hide PositionsOk, StateAfter, Ready, ModelOk, Done;
    forall p, c: nat | Legal(m, h, p) && c in p ensures c < |longest| && longest[c].Some? && |longest[c].value| >= |p| {
      Exhausted(m, h, seen, p);
      var x :| x in seen && x.0 == Ids(p) && m.equal(StateAfter(m, h, p), x.1);
      LegalDistinct(m, h, p);
      assert Noted(longest, x) && c in x.0;
    }
  }

  lemma RecordedOk<S(!new), I(!new), O(!new)>(m: Model<S, I, O>, h: History<I, O>, longest: Orders, p: seq<nat>)
    requires HistoryOk(h) && Legal(m, h, p) && LongestOk(m, h, longest)
    ensures LongestOk(m, h, Recorded(longest, p))
  {
    hide PositionsOk, Legal;
  }

  lemma FullIsLongest<S(!new), I(!new), O(!new)>(m: Model<S, I, O>, h: History<I, O>, longest: Orders, p: seq<nat>)
    requires HistoryOk(h) && IsLinearization(m, h, p) && |longest| == |h.inputs|
    requires forall c | 0 <= c < |longest| :: longest[c] == Some(p)
    ensures Longest(m, h, longest) && LongestOk(m, h, longest)
  {
    hide PositionsOk, Legal;
    LegalIsLinearization(m, h, p);
    forall q, c: nat | Legal(m, h, q) && c in q ensures c < |longest| && |p| >= |q| {
      LegalDistinct(m, h, q);
    }
    forall c: nat | c < |longest| ensures c in p {
      AllThere(p, |h.inputs|, c);
    }
  }

  // ---- The stack of calls ----

  datatype CallsEntry<S, I, O> = CallsEntry(entry: Node<I, O>, state: S)

  /** The stack holds the nodes of the operations of `p`, each with the state before it. */
  ghost predicate CallsOk<S, I, O>(calls: seq<CallsEntry<S, I, O>>, m: Model<S, I, O>, h: History<I, O>,
      all: seq<Node<I, O>>, p: seq<nat>)
    requires HistoryOk(h) && InRange(p, |h.inputs|) && |all| == 2 * |h.inputs| + 1
  {
    && |calls| == |p|
    && forall i | 0 <= i < |p| ::
         calls[i].entry == all[CallAt(h, p[i])] && calls[i].entry.id == p[i]
           && calls[i].state == StateAfter(m, h, p[..i])
  }

  lemma PushCalls<S, I, O>(calls: seq<CallsEntry<S, I, O>>, m: Model<S, I, O>, h: History<I, O>, all: seq<Node<I, O>>,
      p: seq<nat>, c: nat, entry: Node<I, O>)
    requires HistoryOk(h) && InRange(p, |h.inputs|) && |all| == 2 * |h.inputs| + 1 && CallsOk(calls, m, h, all, p)
    requires c < |h.inputs| && entry == all[CallAt(h, c)] && entry.id == c
    ensures InRange(p + [c], |h.inputs|)
    ensures CallsOk(calls + [CallsEntry(entry, StateAfter(m, h, p))], m, h, all, p + [c])
  {
    hide StateAfter;
    var p' := p + [c];
    assert p'[..|p|] == p;
    forall i | 0 <= i < |p| ensures p'[..i] == p[..i] {
    }
  }

  lemma PopCalls<S, I, O>(calls: seq<CallsEntry<S, I, O>>, m: Model<S, I, O>, h: History<I, O>, all: seq<Node<I, O>>,
      r: seq<nat>, c: nat)
    requires HistoryOk(h) && InRange(r + [c], |h.inputs|) && |all| == 2 * |h.inputs| + 1
             && CallsOk(calls, m, h, all, r + [c])
    ensures InRange(r, |h.inputs|) && c < |h.inputs| && CallsOk(calls[..|r|], m, h, all, r)
    ensures calls[|r|].entry == all[CallAt(h, c)] && calls[|r|].entry.id == c && calls[|r|].state == StateAfter(m, h, r)
  {
    hide StateAfter;
    var p := r + [c];
    assert p[|r|] == c && p[..|r|] == r;
    assert forall i | 0 <= i < |r| :: p[i] == r[i];
    forall i | 0 <= i < |r| ensures p[..i] == r[..i] {
    }
  }

  /** The ids on the stack. */
  method OrderOf<S, I, O>(calls: seq<CallsEntry<S, I, O>>, ghost p: seq<nat>) returns (order: seq<nat>)
    requires |calls| == |p| && forall i | 0 <= i < |p| :: calls[i].entry.id == p[i]
    ensures order == p
  {
    order := [];
    var i := 0;
    while i < |calls|
      invariant 0 <= i <= |calls| && order == p[..i]
    {
      order := order + [calls[i].entry.id];
      i := i + 1;
    }
  }

  /** Record the stack for each of its operations that has no order, or a shorter one. */
  method RecordLongest<S, I, O>(calls: seq<CallsEntry<S, I, O>>, before: Orders, ghost p: seq<nat>)
    returns (longest: Orders)
    requires |calls| == |p| && (forall i | 0 <= i < |p| :: calls[i].entry.id == p[i]) && InRange(p, |before|)
    ensures longest == Recorded(before, p)
  {
    longest := before;
    var order: Option<seq<nat>> := None;
    var i := 0;
    while i < |calls|
      invariant 0 <= i <= |calls| && |longest| == |before| && (order.Some? ==> order.value == p)
      invariant forall c: nat | c < |longest| :: longest[c] == if c in p[..i] then Better(before[c], c, p)
                else before[c]
    {
      var id := calls[i].entry.id;
      assert p[..i + 1] == p[..i] + [p[i]];
      if longest[id].None? || |calls| > |longest[id].value| {
        if order.None? {
          var made := OrderOf(calls, p);
          order := Some(made);
        }
        longest := longest[id := order];
      }
      i := i + 1;
    }
    assert p[..i] == p;
  }

  // ---- The search ----

  /** The search state: stack, model state, seen pairs and the position of the scan. */
  ghost predicate StateOk<S(!new), I(!new), O(!new)>(m: Model<S, I, O>, h: History<I, O>, all: seq<Node<I, O>>,
      calls: seq<CallsEntry<S, I, O>>, state: S, seen: set<Config<S>>, p: seq<nat>, pos: int)
  {
    && HistoryOk(h) && |all| == 2 * |h.inputs| + 1 && InRange(p, |h.inputs|)
    && SearchInv(m, h, seen, p, pos) && CallsOk(calls, m, h, all, p) && state == StateAfter(m, h, p)
  }

  ghost predicate RecordsOk<S(!new), I(!new), O(!new)>(m: Model<S, I, O>, h: History<I, O>, longest: Orders,
      seen: set<Config<S>>, p: seq<nat>, computePartial: bool)
    requires HistoryOk(h) && InRange(p, |h.inputs|)
  {
    |longest| == |h.inputs| && LongestOk(m, h, longest) && (computePartial ==> AllNoted(m, h, longest, seen, p))
  }

  /** The next index in the list from `e` on. */
  ghost function NextIn<I, O>(entries: seq<Entry<I, O>>, p: seq<nat>, e: nat): nat
    requires e <= |entries| + 1
  {
    Up(Alive(entries, Ids(p)), e, |entries| + 1)
  }

  lemma Advance<S(!new), I(!new), O(!new)>(m: Model<S, I, O>, h: History<I, O>, entries: seq<Entry<I, O>>,
      seen: set<Config<S>>, p: seq<nat>, e: nat)
    requires Represents(entries, h) && HistoryOk(h) && 0 < e <= |entries| + 1 && SearchInv(m, h, seen, p, e - 1)
    ensures SearchInv(m, h, seen, p, NextIn(entries, p, e) - 1)
  {
    hide PositionsOk, SearchInv, Represents;
    Gap(entries, h, Ids(p), e, NextIn(entries, p, e));
    SearchAdvance(m, h, seen, p, e - 1, NextIn(entries, p, e) - 1);
  }

  /** The call at `pos` is refused, or leads to a seen pair. */
  lemma SkipCall<S(!new), I(!new), O(!new)>(m: Model<S, I, O>, h: History<I, O>, entries: seq<Entry<I, O>>,
      all: seq<Node<I, O>>, calls: seq<CallsEntry<S, I, O>>, state: S, seen: set<Config<S>>, p: seq<nat>, c: nat)
    requires Represents(entries, h) && HistoryOk(h) && c < |h.inputs|
             && StateOk(m, h, all, calls, state, seen, p, h.calls[c])
    requires h.calls[c] + 2 <= |entries| + 1
    requires Apply(m, h, state, c).0 ==> Covered(m, seen, Ids(p) + {c}, Apply(m, h, state, c).1)
    ensures StateOk(m, h, all, calls, state, seen, p, NextIn(entries, p, h.calls[c] + 2) - 1)
  {
    hide PositionsOk, SearchInv, Represents, CallsOk, StateAfter, Covered;
    SearchSkip(m, h, seen, p, c);
    Advance(m, h, entries, seen, p, h.calls[c] + 2);
  }

  /** The call at `pos` is taken. */
  lemma TakeCall<S(!new), I(!new), O(!new)>(m: Model<S, I, O>, h: History<I, O>, entries: seq<Entry<I, O>>,
      all: seq<Node<I, O>>, calls: seq<CallsEntry<S, I, O>>, state: S, seen: set<Config<S>>, p: seq<nat>, c: nat,
      entry: Node<I, O>, longest: Orders, computePartial: bool)
    requires Represents(entries, h) && HistoryOk(h) && ModelOk(m) && c < |h.inputs| && c !in Ids(p)
    requires StateOk(m, h, all, calls, state, seen, p, h.calls[c]) && RecordsOk(m, h, longest, seen, p, computePartial)
    requires entry == all[CallAt(h, c)] && entry.id == c && Apply(m, h, state, c).0
    requires !Covered(m, seen, Ids(p) + {c}, Apply(m, h, state, c).1)
    ensures var x := (Ids(p) + {c}, Apply(m, h, state, c).1);
            && x !in seen && InRange(p + [c], |h.inputs|)
            && StateOk(m, h, all, calls + [CallsEntry(entry, state)], x.1, seen + {x}, p + [c],
                       NextIn(entries, p + [c], 1) - 1)
            && RecordsOk(m, h, longest, seen + {x}, p + [c], computePartial)
  {
    hide PositionsOk, SearchInv, Represents, CallsOk, StateAfter, Covered, Ready, ModelOk, AllNoted, LongestOk;
    var x := (Ids(p) + {c}, Apply(m, h, state, c).1);
    SearchPush(m, h, seen, p, c, x);
    TakenPair(m, h, seen, p, c, x);
    Advance(m, h, entries, seen + {x}, p + [c], 1);
    PushCalls(calls, m, h, all, p, c, entry);
    if computePartial {
      PushNoted(m, h, longest, seen, p, c);
    }
  }

  lemma TakenPair<S(!new), I(!new), O(!new)>(m: Model<S, I, O>, h: History<I, O>, seen: set<Config<S>>, p: seq<nat>,
      c: nat, x: Config<S>)
    requires HistoryOk(h) && ModelOk(m) && c < |h.inputs| && c !in Ids(p) && SearchInv(m, h, seen, p, h.calls[c])
    requires Apply(m, h, StateAfter(m, h, p), c).0
    requires x == (Ids(p) + {c}, Apply(m, h, StateAfter(m, h, p), c).1)
    ensures InRange(p + [c], |h.inputs|) && x == At(m, h, p + [c], |p| + 1) && x.1 == StateAfter(m, h, p + [c])
  {
    hide PositionsOk, SearchInv, StateAfter, Ready, ModelOk;
    PushStack(m, h, seen, p, c, x);
    assert (p + [c])[..|p| + 1] == p + [c];
  }

  /** A return at `pos`: the operation taken last is given back. */
  lemma GiveBack<S(!new), I(!new), O(!new)>(m: Model<S, I, O>, h: History<I, O>, entries: seq<Entry<I, O>>,
      all: seq<Node<I, O>>, calls: seq<CallsEntry<S, I, O>>, state: S, seen: set<Config<S>>, r: seq<nat>, c: nat,
      d: nat)
    requires Represents(entries, h) && HistoryOk(h) && d < |h.inputs| && d !in Ids(r + [c])
    requires StateOk(m, h, all, calls, state, seen, r + [c], h.rets[d])
    ensures c < |h.inputs| && InRange(r, |h.inputs|) && c !in Ids(r) && |calls| == |r| + 1
            && h.calls[c] + 2 <= |entries| + 1
    ensures StateOk(m, h, all, calls[..|r|], calls[|r|].state, seen, r, NextIn(entries, r, h.calls[c] + 2) - 1)
    ensures calls[|r|].entry == all[CallAt(h, c)] && calls[|r|].entry.id == c
  {
    hide PositionsOk, SearchInv, Represents, CallsOk, StateAfter, Ready;
    PopCalls(calls, m, h, all, r, c);
    CallsSize(calls, m, h, all, r + [c]);
    SearchPop(m, h, seen, r, c, d);
    Bounds(entries, h, c);
    Advance(m, h, entries, seen, r, h.calls[c] + 2);
    StackDistinct(m, h, seen, r, c, h.rets[d]);
  }

  lemma CallsSize<S, I, O>(calls: seq<CallsEntry<S, I, O>>, m: Model<S, I, O>, h: History<I, O>, all: seq<Node<I, O>>,
      p: seq<nat>)
    requires HistoryOk(h) && InRange(p, |h.inputs|) && |all| == 2 * |h.inputs| + 1 && CallsOk(calls, m, h, all, p)
    ensures |calls| == |p| && forall i | 0 <= i < |p| :: calls[i].entry.id == p[i]
  {
  }

  lemma StackDistinct<S(!new), I(!new), O(!new)>(m: Model<S, I, O>, h: History<I, O>, seen: set<Config<S>>, r: seq<nat>,
      c: nat, pos: int)
    requires HistoryOk(h) && SearchInv(m, h, seen, r + [c], pos)
    ensures Legal(m, h, r + [c]) && c !in Ids(r) && Ids(r + [c]) - {c} == Ids(r)
  {
    hide PositionsOk, StateAfter, Ready, CacheOk, Scanned, StackSeen, StackScanned;
    LegalDistinct(m, h, r + [c]);
    var p := r + [c];
    assert p[|r|] == c;
    assert forall i | 0 <= i < |r| :: p[i] == r[i];
    IdsSnoc(r, c);
  }

  /** How many pairs have not been seen. */
  ghost function Unseen<S(!new), I(!new), O(!new)>(m: Model<S, I, O>, h: History<I, O>, seen: set<Config<S>>): nat
    requires HistoryOk(h)
  {
    |AllConfigs(m, h) - seen|
  }

  lemma OneMoreSeen<S(!new), I(!new), O(!new)>(m: Model<S, I, O>, h: History<I, O>, seen: set<Config<S>>, x: Config<S>,
      p: seq<nat>, pos: int)
    requires HistoryOk(h) && x !in seen && SearchInv(m, h, seen + {x}, p, pos)
    ensures Unseen(m, h, seen + {x}) < Unseen(m, h, seen)
  {
    hide HistoryOk, SearchInv, AllConfigs;
    CacheBounded(m, h, seen + {x}, p, pos);
    assert x in seen + {x};
    assert AllConfigs(m, h) - (seen + {x}) == (AllConfigs(m, h) - seen) - {x};
  }

  /** The scan is at `entry`, unless the list is empty. */
  ghost predicate Scanning<I, O>(all: seq<Node<I, O>>, entries: seq<Entry<I, O>>, entry: Node?<I, O>, p: seq<nat>,
      pos: int)
  {
    NextIn(entries, p, 1) <= |entries| ==>
      0 <= pos < |entries| && pos + 1 in Alive(entries, Ids(p)) && entry == NodeAt(all, pos + 1)
  }

  lemma HeadNext<I, O>(all: seq<Node<I, O>>, nx: seq<nat>, pv: seq<int>, entries: seq<Entry<I, O>>, h: History<I, O>,
      p: seq<nat>)
    requires ListOk(all, nx, pv, entries, h, p)
    ensures |all| == |entries| + 1 && all[0].next == NodeAt(all, NextIn(entries, p, 1))
  {
    hide Represents, Linked, Pointers, NodeOk, StackLinks;
    assert 0 in Alive(entries, Ids(p));
    NextInList(all, nx, pv, entries, h, p, 0);
  }

  lemma AtHead<I, O>(all: seq<Node<I, O>>, entries: seq<Entry<I, O>>, entry: Node?<I, O>, p: seq<nat>)
    requires |all| == |entries| + 1 && entry == NodeAt(all, NextIn(entries, p, 1))
    ensures Scanning(all, entries, entry, p, NextIn(entries, p, 1) - 1)
  {
  }

  /** From an entry that has its return after it in the list, the scan can go on. */
  lemma AfterCall<I, O>(all: seq<Node<I, O>>, nx: seq<nat>, pv: seq<int>, entries: seq<Entry<I, O>>, h: History<I, O>,
      p: seq<nat>, c: nat)
    requires ListOk(all, nx, pv, entries, h, p) && c < |h.inputs| && c !in Ids(p)
    ensures |all| == |entries| + 1 && CallAt(h, c) < CallAt(h, c) + 1 <= |entries|
    ensures h.calls[c] + 1 < NextIn(entries, p, h.calls[c] + 2) <= |entries|
    ensures Scanning(all, entries, all[CallAt(h, c)].next, p, NextIn(entries, p, h.calls[c] + 2) - 1)
  {
    hide Represents, Linked, Pointers, NodeOk, StackLinks, Alive;
    Bounds(entries, h, c);
    AliveWithout(entries, h, Ids(p), c);
    NextInList(all, nx, pv, entries, h, p, CallAt(h, c));
  }

  /** The list is empty only when every operation is on the stack, and then the stack is a linearization. */
  lemma Complete<S(!new), I(!new), O(!new)>(m: Model<S, I, O>, h: History<I, O>, entries: seq<Entry<I, O>>,
      seen: set<Config<S>>, p: seq<nat>, pos: int)
    requires Represents(entries, h) && HistoryOk(h) && SearchInv(m, h, seen, p, pos)
             && NextIn(entries, p, 1) == |entries| + 1
    ensures IsLinearization(m, h, p) && Linearizable(m, h)
  {
    hide PositionsOk, Represents, Scanned, NoReturnBefore, StateAfter, StackSeen, StackScanned, CacheOk, Ready,
      IsLinearization;
    NoneLeft(entries, h, Ids(p));
    LegalDistinct(m, h, p);
    if |p| < |h.inputs| {
      Missing(Ids(p), |h.inputs|);
      assert false;
    }
    OneFound(m, h, seen, p, pos);
  }

  lemma {:induction false} Missing(ids: set<nat>, n: nat)
    requires |ids| < n
    ensures exists d: nat :: d < n && d !in ids
  {
    if n - 1 in ids {
      Missing(ids - {n - 1}, n - 1);
    } else {
      assert n - 1 !in ids;
    }
  }

  /** Put the head in front of the list. */
  method Start<I, O>(headEntry: Node<I, O>, entry: Node?<I, O>, ghost list: seq<Node<I, O>>,
      ghost entries: seq<Entry<I, O>>, ghost h: History<I, O>)
    returns (ghost all: seq<Node<I, O>>, ghost nx: seq<nat>, ghost pv: seq<int>)
    requires Represents(entries, h) && Built(list, entries, h, 0) && Chain(list, 1) && entry == NodeAt(list, 0)
    requires headEntry.index == 0 && headEntry.next == null && headEntry.prev == null
    modifies headEntry`next, headEntry`prev, (if entry == null then {} else {entry})`prev
    ensures all == [headEntry] + list && |all| == |entries| + 1 && headEntry.next == entry
            && ListOk(all, nx, pv, entries, h, [])
  {
    hide Represents, Chain, BuiltAt, Pointers, LinksOk, NodesOk;
    Prepend(headEntry, entry, list, 0);
    all := [headEntry] + list;
    nx, pv := seq(|all|, k => k + 1), seq(|all|, k => k - 1);
    StartNodes(headEntry, list, entries, h);
    StartPointers(all, nx, pv);
    StartLinks(nx, pv, entries, h);
  }

  lemma StartState<S(!new), I(!new), O(!new)>(m: Model<S, I, O>, h: History<I, O>, entries: seq<Entry<I, O>>,
      all: seq<Node<I, O>>, longest: Orders, width: nat, computePartial: bool)
    requires Represents(entries, h) && |all| == |entries| + 1 && |longest| == |h.inputs|
    requires forall c | 0 <= c < |longest| :: longest[c] == None
    ensures HistoryOk(h) && InRange([], |h.inputs|) && Ids([]) == {}
    ensures StateOk(m, h, all, [], m.init, {}, [], NextIn(entries, [], 1) - 1)
    ensures RecordsOk(m, h, longest, {}, [], computePartial) && CacheIs<S>(map[], {}, width)
  {
    hide SearchInv, PositionsOk, NextIn;
    SearchStart(m, h);
    Advance(m, h, entries, {}, [], 1);
  }

  lemma AtEntry<I, O>(all: seq<Node<I, O>>, entries: seq<Entry<I, O>>, entry: Node?<I, O>, p: seq<nat>, pos: int)
    requires |all| == |entries| + 1 && Scanning(all, entries, entry, p, pos)
             && NodeAt(all, NextIn(entries, p, 1)) != null
    ensures 0 <= pos < |entries| && pos + 1 in Alive(entries, Ids(p)) && entry == all[pos + 1]
  {
  }

  lemma Empty<I, O>(all: seq<Node<I, O>>, entries: seq<Entry<I, O>>, p: seq<nat>)
    requires |all| == |entries| + 1 && NodeAt(all, NextIn(entries, p, 1)) == null
    ensures NextIn(entries, p, 1) == |entries| + 1
  {
  }

  lemma NotFound<S(!new), I(!new), O(!new)>(m: Model<S, I, O>, h: History<I, O>, longest: Orders, seen: set<Config<S>>,
      d: nat, computePartial: bool)
    requires ModelOk(m) && HistoryOk(h) && d < |h.inputs| && SearchInv(m, h, seen, [], h.rets[d])
    requires RecordsOk(m, h, longest, seen, [], computePartial)
    ensures !Linearizable(m, h) && (computePartial ==> Longest(m, h, longest))
  {
    hide ModelOk, PositionsOk, SearchInv, Longest, Linearizable, LongestOk, Done;
    NoneExists(m, h, seen, d);
    if computePartial {
      NowLongest(m, h, longest, seen);
    }
  }

  lemma GiveBackRecords<S(!new), I(!new), O(!new)>(m: Model<S, I, O>, h: History<I, O>, longest: Orders,
      seen: set<Config<S>>, r: seq<nat>, c: nat, pos: int, computePartial: bool)
    requires HistoryOk(h) && InRange(r + [c], |h.inputs|) && InRange(r, |h.inputs|)
             && SearchInv(m, h, seen, r + [c], pos)
    requires RecordsOk(m, h, longest, seen, r + [c], computePartial)
    ensures RecordsOk(m, h, if computePartial then Recorded(longest, r + [c]) else longest, seen, r, computePartial)
    ensures Ids(r + [c]) - {c} == Ids(r)
  {
    hide PositionsOk, SearchInv, Longest, Linearizable, LongestOk, Ready, StateAfter, AllNoted;
    StackDistinct(m, h, seen, r, c, pos);
    if computePartial {
      RecordedOk(m, h, longest, r + [c]);
      PopNoted(m, h, longest, seen, r, c);
    }
  }

  /** What the loop keeps track of: the nodes and their pointers, the stack and the scan. */
  datatype Run<I, O> = Run(all: seq<Node<I, O>>, nx: seq<nat>, pv: seq<int>, p: seq<nat>, pos: int)

  /** The loop invariant. The list is the history without the operations on the stack, the bitset holds those
      operations, the cache the seen pairs, and the search has left nothing behind. */
  ghost predicate Running<S(!new), I(!new), O(!new)>(m: Model<S, I, O>, h: History<I, O>, entries: seq<Entry<I, O>>,
      computePartial: bool, v: Run<I, O>, seen: set<Config<S>>, entry: Node?<I, O>, linearized: Bitset, cache: Cache<S>,
      calls: seq<CallsEntry<S, I, O>>, state: S, longest: Orders)
    reads v.all, linearized.words
  {
    && Represents(entries, h) && HistoryOk(h) && InRange(v.p, |h.inputs|)
    && ListOk(v.all, v.nx, v.pv, entries, h, v.p) && |v.all| == |entries| + 1
    && linearized.Elements() == Ids(v.p) && |h.inputs| <= linearized.Size()
    && CacheIs(cache, seen, linearized.words.Length)
    && StateOk(m, h, v.all, calls, state, seen, v.p, v.pos) && Scanning(v.all, entries, entry, v.p, v.pos)
    && RecordsOk(m, h, longest, seen, v.p, computePartial)
  }

  lemma Started<S(!new), I(!new), O(!new)>(m: Model<S, I, O>, h: History<I, O>, entries: seq<Entry<I, O>>,
      computePartial: bool, v: Run<I, O>, entry: Node?<I, O>, linearized: Bitset, longest: Orders)
    requires ListOk(v.all, v.nx, v.pv, entries, h, []) && v.p == [] && v.pos == NextIn(entries, [], 1) - 1
             && |v.all| == |entries| + 1
    requires Represents(entries, h) && entry == v.all[0].next && linearized.Elements() == {}
             && |h.inputs| <= linearized.Size()
    requires |longest| == |h.inputs| && forall c | 0 <= c < |longest| :: longest[c] == None
    ensures HistoryOk(h) && Running(m, h, entries, computePartial, v, {}, entry, linearized, map[], [], m.init, longest)
  {
    hide Represents, ListOk, StateOk, RecordsOk, CacheIs, Members, PositionsOk, NextIn;
    StartState(m, h, entries, v.all, longest, linearized.words.Length, computePartial);
    HeadNext(v.all, v.nx, v.pv, entries, h, v.p);
    AtHead(v.all, entries, entry, v.p);
  }

  lemma Finished<S(!new), I(!new), O(!new)>(m: Model<S, I, O>, h: History<I, O>, entries: seq<Entry<I, O>>,
      computePartial: bool, v: Run<I, O>, seen: set<Config<S>>, entry: Node?<I, O>, linearized: Bitset, cache: Cache<S>,
      calls: seq<CallsEntry<S, I, O>>, state: S, longest: Orders)
    requires Running(m, h, entries, computePartial, v, seen, entry, linearized, cache, calls, state, longest)
             && v.all[0].next == null
    ensures IsLinearization(m, h, v.p) && Linearizable(m, h)
    ensures |calls| == |v.p| && forall i | 0 <= i < |v.p| :: calls[i].entry.id == v.p[i]
  {
    hide Represents, ListOk, SearchInv, RecordsOk, CacheIs, Members, PositionsOk, NextIn, Linearizable, IsLinearization,
      CallsOk;
    HeadNext(v.all, v.nx, v.pv, entries, h, v.p);
    Empty(v.all, entries, v.p);
    Complete(m, h, entries, seen, v.p, v.pos);
    CallsSize(calls, m, h, v.all, v.p);
  }

  /** The pair that taking the call leads to can be looked up. */
  lemma OpenCache<S(!new), I(!new), O(!new)>(m: Model<S, I, O>, h: History<I, O>, entries: seq<Entry<I, O>>,
      computePartial: bool, v: Run<I, O>, seen: set<Config<S>>, entry: Node<I, O>, linearized: Bitset, cache: Cache<S>,
      calls: seq<CallsEntry<S, I, O>>, state: S, longest: Orders, e: CacheEntry<S>)
    requires Running(m, h, entries, computePartial, v, seen, entry, linearized, cache, calls, state, longest)
    requires |e.linearized| == linearized.words.Length && 0 <= entry.id
             && Members(e.linearized) == linearized.Elements() + {entry.id}
    ensures CacheIs(cache, seen, |e.linearized|) && Members(e.linearized) == Ids(v.p) + {entry.id}
  {
  }

  /** The scan stands at a call. */
  ghost predicate AtCall<I, O>(h: History<I, O>, entries: seq<Entry<I, O>>, v: Run<I, O>, entry: Node<I, O>) {
    && HistoryOk(h) && |v.all| == |entries| + 1 && 0 <= entry.id < |h.inputs| && entry.id !in Ids(v.p)
    && v.pos == h.calls[entry.id] && CallAt(h, entry.id) <= |entries| && entry == v.all[CallAt(h, entry.id)]
    && entry.match_ != null && entry.value == In(h.inputs[entry.id]) && entry.match_.value == Out(h.outputs[entry.id])
  }

  lemma OpenCall<S(!new), I(!new), O(!new)>(m: Model<S, I, O>, h: History<I, O>, entries: seq<Entry<I, O>>,
      computePartial: bool, v: Run<I, O>, seen: set<Config<S>>, entry: Node?<I, O>, linearized: Bitset, cache: Cache<S>,
      calls: seq<CallsEntry<S, I, O>>, state: S, longest: Orders)
    requires Running(m, h, entries, computePartial, v, seen, entry, linearized, cache, calls, state, longest)
             && v.all[0].next != null
    ensures entry != null && (entry.match_ != null ==> AtCall(h, entries, v, entry)) && |h.inputs| <= linearized.Size()
  {
    hide Represents, ListOk, StateOk, RecordsOk, CacheIs, Members, PositionsOk;
    HeadNext(v.all, v.nx, v.pv, entries, h, v.p);
    AtEntry(v.all, entries, entry, v.p, v.pos);
    if entry.match_ != null {
      CallHere(v.all, v.nx, v.pv, entries, h, v.p, v.pos + 1);
    }
  }

  /** Go on to the next entry. */
  method Skip<S(!new), I(!new), O(!new)>(m: Model<S, I, O>, ghost h: History<I, O>, ghost entries: seq<Entry<I, O>>,
      computePartial: bool, ghost v: Run<I, O>, ghost seen: set<Config<S>>, entry: Node<I, O>, linearized: Bitset,
      cache: Cache<S>, calls: seq<CallsEntry<S, I, O>>, state: S, longest: Orders)
    returns (next: Node?<I, O>, ghost v': Run<I, O>)
    requires Running(m, h, entries, computePartial, v, seen, entry, linearized, cache, calls, state, longest)
             && AtCall(h, entries, v, entry)
    requires Apply(m, h, state, entry.id).0 ==> Covered(m, seen, Ids(v.p) + {entry.id}, Apply(m, h, state, entry.id).1)
    ensures Running(m, h, entries, computePartial, v', seen, next, linearized, cache, calls, state, longest)
    ensures v' == v.(pos := v'.pos) && v.pos < v'.pos < |entries|
  {
    hide Represents, ListOk, StateOk, RecordsOk, CacheIs, Members, PositionsOk, Covered, Scanning, NextIn, Ids, InRange;
    ghost var c := entry.id;
    AfterCall(v.all, v.nx, v.pv, entries, h, v.p, c);
    SkipCall(m, h, entries, v.all, calls, state, seen, v.p, c);
    v' := v.(pos := NextIn(entries, v.p, h.calls[c] + 2) - 1);
    next := entry.next;
  }

  /** Take the call: push it, cache its pair, and take it out of the list. */
  method Take<S(!new), I(!new), O(!new)>(m: Model<S, I, O>, ghost h: History<I, O>, ghost entries: seq<Entry<I, O>>,
      computePartial: bool, ghost v: Run<I, O>, ghost seen: set<Config<S>>, headEntry: Node<I, O>, entry: Node<I, O>,
      linearized: Bitset, cache: Cache<S>, calls: seq<CallsEntry<S, I, O>>, state: S, longest: Orders,
      newCacheEntry: CacheEntry<S>)
    returns (next: Node?<I, O>, cache': Cache<S>, calls': seq<CallsEntry<S, I, O>>, ghost v': Run<I, O>,
             ghost seen': set<Config<S>>)
    requires Running(m, h, entries, computePartial, v, seen, entry, linearized, cache, calls, state, longest)
             && AtCall(h, entries, v, entry)
    requires ModelOk(m) && v.all[0] == headEntry && Apply(m, h, state, entry.id).0
    requires PairOf(newCacheEntry) == (Ids(v.p) + {entry.id}, Apply(m, h, state, entry.id).1)
    requires |newCacheEntry.linearized| == linearized.words.Length
    requires !Covered(m, seen, PairOf(newCacheEntry).0, newCacheEntry.state)
    modifies (set o | o in v.all)`next, (set o | o in v.all)`prev, linearized.words
    ensures Running(m, h, entries, computePartial, v', seen', next, linearized, cache', calls', newCacheEntry.state,
                    longest)
    ensures v'.all == v.all && Unseen(m, h, seen') < Unseen(m, h, seen)
  {
    hide Represents, ListOk, SearchInv, CallsOk, RecordsOk, CacheIs, Members, PositionsOk, Covered, Scanning, NextIn,
      Ids, InRange, ModelOk,
      Unseen, StateAfter, HashOf;
    ghost var c, p := entry.id, v.p + [entry.id];
    ghost var x := PairOf(newCacheEntry);
    TakeCall(m, h, entries, v.all, calls, state, seen, v.p, c, entry, longest, computePartial);
    OneMoreSeen(m, h, seen, x, p, NextIn(entries, p, 1) - 1);
    CacheAdd(cache, seen, newCacheEntry);
    cache' := Added(cache, newCacheEntry);
    calls' := calls + [CallsEntry(entry, state)];
    linearized.Set(entry.id);
    ghost var nx, pv := LiftCall(entry, v.all, v.nx, v.pv, entries, h, v.p, c);
    IdsSnoc(v.p, c);
    v', seen' := Run(v.all, nx, pv, p, NextIn(entries, p, 1) - 1), seen + {x};
    HeadNext(v.all, nx, pv, entries, h, p);
    next := headEntry.next;
    AtHead(v.all, entries, next, p);
  }

  /** The scan stands at a return, of an operation that is not on the stack. */
  lemma OpenReturn<S(!new), I(!new), O(!new)>(m: Model<S, I, O>, h: History<I, O>, entries: seq<Entry<I, O>>,
      computePartial: bool, v: Run<I, O>, seen: set<Config<S>>, entry: Node?<I, O>, linearized: Bitset, cache: Cache<S>,
      calls: seq<CallsEntry<S, I, O>>, state: S, longest: Orders)
    requires Running(m, h, entries, computePartial, v, seen, entry, linearized, cache, calls, state, longest)
             && v.all[0].next != null
    requires entry != null && entry.match_ == null
    requires ModelOk(m)
    ensures 0 <= entry.id < |h.inputs| && entry.id !in Ids(v.p) && v.pos == h.rets[entry.id] && |calls| == |v.p|
    ensures v.p == [] ==> !Linearizable(m, h) && (computePartial ==> Longest(m, h, longest))
    ensures |longest| == |h.inputs| && LongestOk(m, h, longest)
  {
    hide Represents, ListOk, SearchInv, CacheIs, Members, PositionsOk, ModelOk, Linearizable, Longest, LongestOk,
      CallsOk;
    HeadNext(v.all, v.nx, v.pv, entries, h, v.p);
    AtEntry(v.all, entries, entry, v.p, v.pos);
    ReturnHere(v.all, v.nx, v.pv, entries, h, v.p, v.pos + 1);
    CallsSize(calls, m, h, v.all, v.p);
    if v.p == [] {
      NotFound(m, h, longest, seen, entry.id, computePartial);
    }
  }

  /** Backtrack: note the stack, pop it, and put the operation back into the list. */
  method Backtrack<S(!new), I(!new), O(!new)>(m: Model<S, I, O>, ghost h: History<I, O>,
      ghost entries: seq<Entry<I, O>>, computePartial: bool, ghost v: Run<I, O>, ghost seen: set<Config<S>>,
      ghost d: nat, entry: Node<I, O>, linearized: Bitset, cache: Cache<S>, calls: seq<CallsEntry<S, I, O>>, state: S,
      longest: Orders)
    returns (next: Node?<I, O>, calls': seq<CallsEntry<S, I, O>>, state': S, longest': Orders, ghost v': Run<I, O>)
    requires Running(m, h, entries, computePartial, v, seen, entry, linearized, cache, calls, state, longest)
    requires d < |h.inputs| && d !in Ids(v.p) && v.pos == h.rets[d] && |calls| == |v.p| > 0
    modifies (set o | o in v.all)`next, (set o | o in v.all)`prev, linearized.words
    ensures Running(m, h, entries, computePartial, v', seen, next, linearized, cache, calls', state', longest')
    ensures v'.all == v.all && |v'.p| < |v.p|
  {
    hide Represents, ListOk, SearchInv, CallsOk, CacheIs, Members, PositionsOk, Covered, Scanning, NextIn, Ids, ModelOk,
      StateAfter, HashOf, LongestOk, AllNoted, Recorded;
    ghost var r, c := v.p[..|v.p| - 1], v.p[|v.p| - 1];
    assert v.p == r + [c];
    GiveBack(m, h, entries, v.all, calls, state, seen, r, c, d);
    GiveBackRecords(m, h, longest, seen, r, c, h.rets[d], computePartial);
    CallsSize(calls, m, h, v.all, v.p);
    longest' := longest;
    if computePartial {
      longest' := RecordLongest(calls, longest, v.p);
    }
    var callsTop := calls[|calls| - 1];
    state' := callsTop.state;
    linearized.Clear(callsTop.entry.id);
    calls' := calls[..|calls| - 1];
    ghost var nx, pv := UnliftCall(callsTop.entry, v.all, v.nx, v.pv, entries, h, r, c);
    AfterCall(v.all, nx, pv, entries, h, r, c);
    next := callsTop.entry.next;
    v' := Run(v.all, nx, pv, r, NextIn(entries, r, h.calls[c] + 2) - 1);
  }

  /** The list, its head and an empty bitset: the search is at its start. */
  method SetUp<S(!new), I(!new), O(!new)>(m: Model<S, I, O>, entries: seq<Entry<I, O>>, computePartial: bool,
      ghost h: History<I, O>)
    returns (headEntry: Node<I, O>, entry: Node?<I, O>, linearized: Bitset, n: nat, ghost v: Run<I, O>)
    requires Represents(entries, h)
    ensures n == |h.inputs| && v.all != [] && v.all[0] == headEntry && fresh(linearized.words)
            && forall k: nat | k < |v.all| :: fresh(v.all[k])
    ensures HistoryOk(h) && Running(m, h, entries, computePartial, v, {}, entry, linearized, map[], [], m.init,
                                    seq(n, _ => None))
  {
    hide Represents, StateOk, RecordsOk, Running, ListOk, Alive, CacheIs, Members, HashOf, Chain, Built, Scanning,
      NextIn, PositionsOk;
    var first, list := MakeLinkedEntries(entries, h);
    var len := Length(first, list, 1);
    BuiltSize(list, entries, h);
    entry, n := first, len / 2;
    linearized := new Bitset(n);
    headEntry := new Node<I, O>(Head, null, -1, 0);
    ghost var all, nx, pv := Start(headEntry, entry, list, entries, h);
    v := Run(all, nx, pv, [], NextIn(entries, [], 1) - 1);
    Started(m, h, entries, computePartial, v, entry, linearized, seq(n, _ => None));
  }

  /** A copy with one more position. */
  method CopyWith(linearized: Bitset, pos: nat) returns (copy: Bitset)
    requires pos < linearized.Size()
    ensures fresh(copy) && fresh(copy.words)
    ensures copy.words.Length == linearized.words.Length && copy.Elements() == linearized.Elements() + {pos}
  {
    hide Members;
    copy := linearized.Clone();
    copy.Set(pos);
  }

  /** Decides linearizability. What it records for an operation is a legal order that contains it; when the
      history is linearizable or partial results are asked for, no legal order with it is longer. */
  method CheckSingle<S(!new), I(!new), O(!new)>(m: Model<S, I, O>, entries: seq<Entry<I, O>>, computePartial: bool,
      ghost h: History<I, O>)
    returns (ok: bool, longest: Orders)
    requires ModelOk(m) && Represents(entries, h)
    ensures ok <==> Linearizable(m, h)
    ensures |longest| == |h.inputs| && LongestOk(m, h, longest)
    ensures ok || computePartial ==> Longest(m, h, longest)
  {
    hide ModelOk, Represents, StateOk, StateAfter, Covered, Linearizable, IsLinearization, LongestOk, Longest,
      RecordsOk, Running,
      ListOk, Alive, CacheIs, Members, HashOf, Chain, Built, Scanning, NextIn, Ids, InRange, Unseen, PositionsOk;
    var headEntry, entry, linearized, n, v0 := SetUp(m, entries, computePartial, h);
    ghost var v, all := v0, v0.all;
    var cache: Cache<S> := map[];
    var calls: seq<CallsEntry<S, I, O>> := [];
    longest := seq(n, _ => None);
    var state := m.init;
    ghost var seen: set<Config<S>> := {};
    while headEntry.next != null
      invariant HistoryOk(h) && Running(m, h, entries, computePartial, v, seen, entry, linearized, cache, calls, state,
                                        longest)
      invariant v.all == all && fresh(linearized.words)
      decreases Unseen(m, h, seen), |v.p|, |entries| - v.pos
    {
      OpenCall(m, h, entries, computePartial, v, seen, entry, linearized, cache, calls, state, longest);
      if entry.match_ != null {
        var matching := entry.match_;
        var (accepted, newState) := m.step(state, entry.value.input, matching.value.output);
        if accepted {
          var newLinearized := CopyWith(linearized, entry.id);
          var newCacheEntry := CacheEntry(newLinearized.words[..], newState);
          OpenCache(m, h, entries, computePartial, v, seen, entry, linearized, cache, calls, state, longest,
                    newCacheEntry);
          var found := CacheContains(m, cache, newLinearized, newState, seen);
          if !found {
            entry, cache, calls, v, seen :=
              Take(m, h, entries, computePartial, v, seen, headEntry, entry, linearized, cache, calls, state, longest,
                   newCacheEntry);
            state := newState;
          } else {
            entry, v := Skip(m, h, entries, computePartial, v, seen, entry, linearized, cache, calls, state, longest);
          }
        } else {
          entry, v := Skip(m, h, entries, computePartial, v, seen, entry, linearized, cache, calls, state, longest);
        }
      } else {
        OpenReturn(m, h, entries, computePartial, v, seen, entry, linearized, cache, calls, state, longest);
        if |calls| == 0 {
          return false, longest;
        }
        entry, calls, state, longest, v :=
          Backtrack(m, h, entries, computePartial, v, seen, entry.id, entry, linearized, cache, calls, state, longest);
      }
    }
    Finished(m, h, entries, computePartial, v, seen, entry, linearized, cache, calls, state, longest);
    var order := OrderOf(calls, v.p);
    longest := seq(n, _ => Some(order));
    FullIsLongest(m, h, longest, v.p);
    return true, longest;
  }
}
