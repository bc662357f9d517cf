/** Timed operations, and the sequence of calls and returns the checker makes of them. */
module Operations {
  import opened Linearizability
  import opened LinkedEntries
  import opened EntryLists

  datatype Operation<I, O> = Operation(clientId: int, input: I, call: int, output: O, ret: int)

  /** An operation is called no later than it returns. */
  ghost predicate OpsOk<I, O>(ops: seq<Operation<I, O>>) {
    forall c | 0 <= c < |ops| :: ops[c].call <= ops[c].ret
  }

  // ---- Linearizability by times ----

  ghost function After<S, I, O>(m: Model<S, I, O>, ops: seq<Operation<I, O>>, p: seq<nat>): S
    requires InRange(p, |ops|)
  {
    if p == [] then m.init
    else var c := p[|p| - 1]; m.step(After(m, ops, p[..|p| - 1]), ops[c].input, ops[c].output).1
  }

  /** The sequential specification accepts the operations in the order `p`. */
  ghost predicate Accepted<S, I, O>(m: Model<S, I, O>, ops: seq<Operation<I, O>>, p: seq<nat>)
    requires InRange(p, |ops|)
  {
    p != [] ==>
      var r, c := p[..|p| - 1], p[|p| - 1];
      Accepted(m, ops, r) && m.step(After(m, ops, r), ops[c].input, ops[c].output).0
  }

  /** No operation twice, and none after one that it returned strictly before. */
  ghost predicate InTime<I, O>(ops: seq<Operation<I, O>>, p: seq<nat>) {
    && InRange(p, |ops|)
    && forall i, j | 0 <= i < j < |p| :: p[i] != p[j] && !(ops[p[j]].ret < ops[p[i]].call)
  }

  ghost predicate IsOrder<S, I, O>(m: Model<S, I, O>, ops: seq<Operation<I, O>>, p: seq<nat>) {
    |p| == |ops| && InTime(ops, p) && Accepted(m, ops, p)
  }

  ghost predicate OpsLinearizable<S, I, O>(m: Model<S, I, O>, ops: seq<Operation<I, O>>) {
    exists p :: IsOrder(m, ops, p)
  }

  // ---- Sorting by time ----

  datatype Timed<I, O> = Timed(entry: Entry<I, O>, time: int)

  /** By time; at one time, calls before returns. */
  predicate Less<I, O>(a: Timed<I, O>, b: Timed<I, O>) {
    if a.time != b.time then a.time < b.time else a.entry.Call? && b.entry.Return?
  }

  ghost predicate Sorted<I, O>(s: seq<Timed<I, O>>) {
    forall i, j | 0 <= i < j < |s| :: !Less(s[j], s[i])
  }

  function CallOf<I, O>(ops: seq<Operation<I, O>>, c: nat): Timed<I, O>
    requires c < |ops|
  {
    Timed(Call(c, ops[c].input), ops[c].call)
  }

  function ReturnOf<I, O>(ops: seq<Operation<I, O>>, c: nat): Timed<I, O>
    requires c < |ops|
  {
    Timed(Return(c, ops[c].output), ops[c].ret)
  }

  /** The calls and returns of the first `n` operations, unsorted. */
  ghost function Unsorted<I, O>(ops: seq<Operation<I, O>>, n: nat): seq<Timed<I, O>>
    requires n <= |ops|
  {
    if n == 0 then [] else Unsorted(ops, n - 1) + [CallOf(ops, n - 1), ReturnOf(ops, n - 1)]
  }

  ghost function Times<T>(s: seq<T>, x: T): nat {
    multiset(s)[x]
  }

  lemma PairCount<T>(u: seq<T>, a: T, b: T, x: T)
    ensures Times(u + [a, b], x) == Times(u, x) + (if x == a then 1 else 0) + (if x == b then 1 else 0)
  {
    assert multiset([a, b]) == multiset{a, b};
  }

  ghost predicate OneOf<I, O>(ops: seq<Operation<I, O>>, n: nat, x: Timed<I, O>)
    requires n <= |ops|
  {
    x.entry.id < n && (x == CallOf(ops, x.entry.id) || x == ReturnOf(ops, x.entry.id))
  }

  lemma OneOfStep<I, O>(ops: seq<Operation<I, O>>, n: nat, x: Timed<I, O>)
    requires n < |ops|
    ensures OneOf(ops, n + 1, x) <==> OneOf(ops, n, x) || x == CallOf(ops, n) || x == ReturnOf(ops, n)
    ensures OneOf(ops, n, x) ==> x != CallOf(ops, n) && x != ReturnOf(ops, n)
    ensures CallOf(ops, n) != ReturnOf(ops, n)
  {
  }

  lemma {:induction false} UnsortedCount<I, O>(ops: seq<Operation<I, O>>, n: nat, x: Timed<I, O>)
    requires n <= |ops|
    ensures Times(Unsorted(ops, n), x) == if OneOf(ops, n, x) then 1 else 0
  {
    hide OneOf, CallOf, ReturnOf, Times;
    if n == 0 {
      assert Times<Timed<I, O>>([], x) == 0 by { NoTimes(x); }
      assert !OneOf(ops, 0, x) by { NoneOf(ops, x); }
    } else {
      UnsortedCount(ops, n - 1, x);
      OneOfStep(ops, n - 1, x);
      PairCount(Unsorted(ops, n - 1), CallOf(ops, n - 1), ReturnOf(ops, n - 1), x);
    }
  }

  lemma NoTimes<T>(x: T)
    ensures Times<T>([], x) == 0
  {
  }

  lemma NoneOf<I, O>(ops: seq<Operation<I, O>>, x: Timed<I, O>)
    ensures !OneOf(ops, 0, x)
  {
  }

  lemma {:induction false} UnsortedSize<I, O>(ops: seq<Operation<I, O>>, n: nat)
    requires n <= |ops|
    ensures |Unsorted(ops, n)| == 2 * n
  {
    if n > 0 {
      UnsortedSize(ops, n - 1);
    }
  }

  lemma AtMostOnce<T>(s: seq<T>, i: nat, j: nat)
    requires i < j < |s| && s[i] == s[j]
    ensures multiset(s)[s[i]] >= 2
  {
    var x := s[i];
    assert s == s[..j] + [s[j]] + s[j + 1..];
    assert multiset(s) == multiset(s[..j]) + multiset{x} + multiset(s[j + 1..]);
    assert x == s[..j][i];
    assert multiset(s[..j])[x] >= 1;
  }

  lemma InsertedSorted<I, O>(s: seq<Timed<I, O>>, k: nat, x: Timed<I, O>)
    requires Sorted(s) && k <= |s| && (forall j | k <= j < |s| :: Less(x, s[j])) && (k > 0 ==> !Less(x, s[k - 1]))
    ensures Sorted(s[..k] + [x] + s[k..])
  {
    var r := s[..k] + [x] + s[k..];
    forall i, j | 0 <= i < j < |r| ensures !Less(r[j], r[i]) {
      if i < k && j == k {
        assert i < k - 1 ==> !Less(s[k - 1], s[i]);
      }
    }
  }

  lemma InsertedSame<T>(s: seq<T>, k: nat, x: T)
    requires k <= |s|
    ensures multiset(s[..k] + [x] + s[k..]) == multiset(s) + multiset{x}
  {
    assert s == s[..k] + s[k..];
  }

  /** Insert in order, from the end. */
  method InsertSorted<I, O>(s: seq<Timed<I, O>>, x: Timed<I, O>) returns (r: seq<Timed<I, O>>)
    requires Sorted(s)
    ensures Sorted(r) && multiset(r) == multiset(s) + multiset{x}
  {
    hide Less, Sorted;
    var k := |s|;
    while k > 0 && Less(x, s[k - 1])
      invariant 0 <= k <= |s| && forall j | k <= j < |s| :: Less(x, s[j])
    {
      k := k - 1;
    }
    InsertedSorted(s, k, x);
    InsertedSame(s, k, x);
    r := s[..k] + [x] + s[k..];
  }

  method SortByTime<I, O>(s: seq<Timed<I, O>>) returns (r: seq<Timed<I, O>>)
    ensures Sorted(r) && multiset(r) == multiset(s)
  {
    r := [];
    var i := 0;
    while i < |s|
      invariant 0 <= i <= |s| && Sorted(r) && multiset(r) == multiset(s[..i])
    {
      assert s[..i + 1] == s[..i] + [s[i]];
      r := InsertSorted(r, s[i]);
      i := i + 1;
    }
    assert s[..i] == s;
  }

  // ---- The history of a sorted sequence ----

  ghost predicate IsSorting<I, O>(ops: seq<Operation<I, O>>, s: seq<Timed<I, O>>) {
    Sorted(s) && multiset(s) == multiset(Unsorted(ops, |ops|))
  }

  ghost function IndexOf<T>(s: seq<T>, x: T): (i: nat)
    requires x in s
    ensures i < |s| && s[i] == x
  {
    if s[0] == x then 0 else IndexOf(s[1..], x) + 1
  }

  lemma Present<I, O>(ops: seq<Operation<I, O>>, s: seq<Timed<I, O>>, c: nat)
    requires IsSorting(ops, s) && c < |ops|
    ensures CallOf(ops, c) in s && ReturnOf(ops, c) in s
  {
    UnsortedCount(ops, |ops|, CallOf(ops, c));
    UnsortedCount(ops, |ops|, ReturnOf(ops, c));
    assert CallOf(ops, c) in multiset(s) && ReturnOf(ops, c) in multiset(s);
  }

  ghost function CallIndex<I, O>(ops: seq<Operation<I, O>>, s: seq<Timed<I, O>>, c: nat): (i: nat)
    requires IsSorting(ops, s) && c < |ops|
    ensures i < |s| && s[i] == CallOf(ops, c)
  {
    Present(ops, s, c);
    IndexOf(s, CallOf(ops, c))
  }

  ghost function ReturnIndex<I, O>(ops: seq<Operation<I, O>>, s: seq<Timed<I, O>>, c: nat): (i: nat)
    requires IsSorting(ops, s) && c < |ops|
    ensures i < |s| && s[i] == ReturnOf(ops, c)
  {
    Present(ops, s, c);
    IndexOf(s, ReturnOf(ops, c))
  }

  ghost function Entries<I, O>(s: seq<Timed<I, O>>): (r: seq<Entry<I, O>>) {
    seq(|s|, k requires 0 <= k < |s| => s[k].entry)
  }

  ghost function HistoryOf<I, O>(ops: seq<Operation<I, O>>, s: seq<Timed<I, O>>): History<I, O>
    requires IsSorting(ops, s)
  {
    History(seq(|ops|, c requires 0 <= c < |ops| => ops[c].input),
            seq(|ops|, c requires 0 <= c < |ops| => ops[c].output),
            seq(|ops|, c requires 0 <= c < |ops| => CallIndex(ops, s, c)),
            seq(|ops|, c requires 0 <= c < |ops| => ReturnIndex(ops, s, c)))
  }

  lemma SortingEntry<I, O>(ops: seq<Operation<I, O>>, s: seq<Timed<I, O>>, k: nat)
    requires IsSorting(ops, s) && k < |s|
    ensures var c := s[k].entry.id; c < |ops| && s[k] == if s[k].entry.Call? then CallOf(ops, c) else ReturnOf(ops, c)
  {
    assert s[k] in multiset(s);
    UnsortedCount(ops, |ops|, s[k]);
  }

  lemma SortingSize<I, O>(ops: seq<Operation<I, O>>, s: seq<Timed<I, O>>)
    requires IsSorting(ops, s)
    ensures |s| == 2 * |ops|
  {
    UnsortedSize(ops, |ops|);
    assert |multiset(s)| == |s| && |multiset(Unsorted(ops, |ops|))| == |Unsorted(ops, |ops|)|;
  }

  lemma SortingDistinct<I, O>(ops: seq<Operation<I, O>>, s: seq<Timed<I, O>>, i: nat, j: nat)
    requires IsSorting(ops, s) && i < |s| && j < |s| && s[i] == s[j]
    ensures i == j
  {
    UnsortedCount(ops, |ops|, s[i]);
    if i < j {
      AtMostOnce(s, i, j);
    } else if j < i {
      AtMostOnce(s, j, i);
    }
  }

  /** In a sorted sequence, an operation returns before another is called exactly when its return time is
      strictly smaller than the other's call time. */
  lemma SortedPrecedes<I, O>(ops: seq<Operation<I, O>>, s: seq<Timed<I, O>>, a: nat, b: nat)
    requires IsSorting(ops, s) && a < |ops| && b < |ops|
    ensures ReturnIndex(ops, s, a) < CallIndex(ops, s, b) <==> ops[a].ret < ops[b].call
    ensures ReturnIndex(ops, s, a) != CallIndex(ops, s, b)
  {
    hide Unsorted, IndexOf;
    var i, j := ReturnIndex(ops, s, a), CallIndex(ops, s, b);
    assert s[i] == ReturnOf(ops, a) && s[j] == CallOf(ops, b);
  }

  lemma SortedPositions<I, O>(ops: seq<Operation<I, O>>, s: seq<Timed<I, O>>)
    requires OpsOk(ops) && IsSorting(ops, s) && |s| == 2 * |ops|
    ensures PositionsOk(HistoryOf(ops, s))
  {
    hide IsSorting, IndexOf;
    forall c, d | 0 <= c < |ops| && 0 <= d < |ops|
      ensures CallIndex(ops, s, c) < ReturnIndex(ops, s, c)
      ensures CallIndex(ops, s, c) != ReturnIndex(ops, s, d)
      ensures c != d ==>
                CallIndex(ops, s, c) != CallIndex(ops, s, d) && ReturnIndex(ops, s, c) != ReturnIndex(ops, s, d)
    {
      SortedPrecedes(ops, s, c, c);
      SortedPrecedes(ops, s, d, c);
    }
  }

  lemma SortedRepresents<I, O>(ops: seq<Operation<I, O>>, s: seq<Timed<I, O>>)
    requires OpsOk(ops) && IsSorting(ops, s)
    ensures Represents(Entries(s), HistoryOf(ops, s))
  {
    hide IsSorting, IndexOf, PositionsOk;
    var h := HistoryOf(ops, s);
    SortingSize(ops, s);
    SortedPositions(ops, s);
    forall k: nat | k < |s| ensures s[k].entry.id < |ops| && k == Position(h, s[k].entry) {
      SortingEntry(ops, s, k);
      var c := s[k].entry.id;
      SortingDistinct(ops, s, k, if s[k].entry.Call? then CallIndex(ops, s, c) else ReturnIndex(ops, s, c));
    }
  }

  // ---- The two notions of linearizability agree ----

  ghost predicate SameCalls<I, O>(ops: seq<Operation<I, O>>, h: History<I, O>) {
    && HistoryOk(h) && |h.inputs| == |ops|
    && forall c | 0 <= c < |ops| :: h.inputs[c] == ops[c].input && h.outputs[c] == ops[c].output
  }

  lemma {:induction false} SameAfter<S, I, O>(m: Model<S, I, O>, ops: seq<Operation<I, O>>, h: History<I, O>,
      p: seq<nat>)
    requires SameCalls(ops, h) && InRange(p, |ops|)
    ensures StateAfter(m, h, p) == After(m, ops, p)
  {
    hide PositionsOk;
    if p != [] {
      SameAfter(m, ops, h, p[..|p| - 1]);
    }
  }

  lemma {:induction false} AcceptedAt<S, I, O>(m: Model<S, I, O>, ops: seq<Operation<I, O>>, p: seq<nat>, i: nat)
    requires InRange(p, |ops|) && Accepted(m, ops, p) && i < |p|
    ensures m.step(After(m, ops, p[..i]), ops[p[i]].input, ops[p[i]].output).0
  {
    hide After;
    if i < |p| - 1 {
      var r := p[..|p| - 1];
      AcceptedAt(m, ops, r, i);
      assert r[..i] == p[..i];
    }
  }

  lemma {:induction false} AcceptedAll<S, I, O>(m: Model<S, I, O>, ops: seq<Operation<I, O>>, p: seq<nat>)
    requires InRange(p, |ops|) && forall i | 0 <= i < |p| ::
             m.step(After(m, ops, p[..i]), ops[p[i]].input, ops[p[i]].output).0
    ensures Accepted(m, ops, p)
  {
    hide After;
    if p != [] {
      var r := p[..|p| - 1];
      forall i | 0 <= i < |r| ensures m.step(After(m, ops, r[..i]), ops[r[i]].input, ops[r[i]].output).0 {
        assert r[..i] == p[..i];
      }
      AcceptedAll(m, ops, r);
    }
  }

  lemma SameAccepted<S, I, O>(m: Model<S, I, O>, ops: seq<Operation<I, O>>, h: History<I, O>, p: seq<nat>)
    requires SameCalls(ops, h) && InRange(p, |ops|)
    ensures Accepted(m, ops, p) <==> forall i | 0 <= i < |p| :: Apply(m, h, StateAfter(m, h, p[..i]), p[i]).0
  {
    hide PositionsOk, Accepted, After, StateAfter;
    forall i | 0 <= i < |p|
      ensures Apply(m, h, StateAfter(m, h, p[..i]), p[i]) == m.step(After(m, ops, p[..i]), ops[p[i]].input,
              ops[p[i]].output)
    {
      SameAfter(m, ops, h, p[..i]);
    }
    if Accepted(m, ops, p) {
      forall i | 0 <= i < |p| ensures Apply(m, h, StateAfter(m, h, p[..i]), p[i]).0 {
        AcceptedAt(m, ops, p, i);
      }
    }
    if forall i | 0 <= i < |p| :: Apply(m, h, StateAfter(m, h, p[..i]), p[i]).0 {
      AcceptedAll(m, ops, p);
    }
  }

  lemma SameOrder<S, I, O>(m: Model<S, I, O>, ops: seq<Operation<I, O>>, s: seq<Timed<I, O>>, p: seq<nat>)
    requires OpsOk(ops) && IsSorting(ops, s) && Represents(Entries(s), HistoryOf(ops, s))
    ensures IsLinearization(m, HistoryOf(ops, s), p) <==> IsOrder(m, ops, p)
  {
    hide IsSorting, IndexOf, PositionsOk, Represents, StateAfter, After, Accepted;
    var h := HistoryOf(ops, s);
    assert HistoryOk(h) by { RepresentsOk(Entries(s), h); }
    if |p| == |ops| && InRange(p, |ops|) {
      SameAccepted(m, ops, h, p);
      forall i, j | 0 <= i < j < |p| ensures Precedes(h, p[j], p[i]) <==> ops[p[j]].ret < ops[p[i]].call {
        SortedPrecedes(ops, s, p[j], p[i]);
      }
    }
  }

  lemma RepresentsOk<I, O>(entries: seq<Entry<I, O>>, h: History<I, O>)
    requires Represents(entries, h)
    ensures HistoryOk(h)
  {
  }

  lemma SameVerdict<S(!new), I, O>(m: Model<S, I, O>, ops: seq<Operation<I, O>>, s: seq<Timed<I, O>>)
    requires OpsOk(ops) && IsSorting(ops, s)
    ensures Represents(Entries(s), HistoryOf(ops, s)) && HistoryOk(HistoryOf(ops, s))
    ensures Linearizable(m, HistoryOf(ops, s)) <==> OpsLinearizable(m, ops)
  {
    hide IsSorting, HistoryOf, Represents, IsOrder, IsLinearization;
    SortedRepresents(ops, s);
    RepresentsOk(Entries(s), HistoryOf(ops, s));
    forall p ensures IsLinearization(m, HistoryOf(ops, s), p) <==> IsOrder(m, ops, p) {
      SameOrder(m, ops, s, p);
    }
  }

  /** The calls and returns in time order. Whatever order ties are left in, the resulting history is
      linearizable exactly when the timed operations are. */
  method MakeEntries<I, O>(history: seq<Operation<I, O>>) returns (entries: seq<Entry<I, O>>, ghost s: seq<Timed<I, O>>)
    ensures IsSorting(history, s) && entries == Entries(s)
  {
    var timed: seq<Timed<I, O>> := [];
    var id := 0;
    while id < |history|
      invariant 0 <= id <= |history| && timed == Unsorted(history, id)
    {
      var elem := history[id];
      timed := timed + [Timed(Call(id, elem.input), elem.call)];
      timed := timed + [Timed(Return(id, elem.output), elem.ret)];
      id := id + 1;
    }
    var sorted := SortByTime(timed);
    s := sorted;
    entries := seq(|sorted|, k requires 0 <= k < |sorted| => sorted[k].entry);
  }
}
