/** A history over many keys is linearizable exactly when the history of each key is. */
module KvLocality {
  import opened Linearizability
  import opened Operations
  import opened KvModel

  /** An order in time of exactly the operations on one key. */
  ghost predicate IsKeyOrder(ops: seq<KvOp>, key: string, q: seq<nat>) {
    InTime(ops, q) && forall c: nat :: c in q <==> c < |ops| && ops[c].input.key == key
  }

  ghost predicate KeyAccepted(ops: seq<KvOp>, key: string, f: seq<nat>) {
    IsKeyOrder(ops, key, f) && Accepted(OneKey(), ops, f)
  }

  ghost predicate KeyHasOrder(ops: seq<KvOp>, key: string) {
    exists f :: KeyAccepted(ops, key, f)
  }

  // ---- Renumbering between the whole history and one key's ----

  ghost function Lifted(ids: seq<nat>, q: seq<nat>): (r: seq<nat>)
    requires InRange(q, |ids|)
    ensures |r| == |q| && forall i | 0 <= i < |q| :: r[i] == ids[q[i]]
  {
    seq(|q|, i requires 0 <= i < |q| => ids[q[i]])
  }

  lemma {:induction false} LiftedAccepted(ops: seq<KvOp>, key: string, q: seq<nat>)
    requires InRange(q, |KeyIds(ops, |ops|, key)|)
    ensures var r := Lifted(KeyIds(ops, |ops|, key), q);
            && InRange(r, |ops|) && After(OneKey(), SubOps(ops, key), q) == After(OneKey(), ops, r)
            && (Accepted(OneKey(), SubOps(ops, key), q) <==> Accepted(OneKey(), ops, r))
  {
    hide KeyIds, KvStep, SubOps;
    var ids := KeyIds(ops, |ops|, key);
    if q != [] {
      var q1, c := q[..|q| - 1], q[|q| - 1];
      LiftedAccepted(ops, key, q1);
      assert Lifted(ids, q)[..|q| - 1] == Lifted(ids, q1);
    }
  }

  lemma LiftedInTime(ops: seq<KvOp>, key: string, q: seq<nat>)
    requires InRange(q, |KeyIds(ops, |ops|, key)|)
    ensures InTime(SubOps(ops, key), q) <==> InTime(ops, Lifted(KeyIds(ops, |ops|, key), q))
  {
    hide KeyIds, SubOps;
    var ids := KeyIds(ops, |ops|, key);
    var r := Lifted(ids, q);
    forall i, j | 0 <= i < j < |q| ensures q[i] != q[j] <==> r[i] != r[j] {
    }
  }

  lemma LiftedAll(ops: seq<KvOp>, key: string, q: seq<nat>)
    requires |q| == |SubOps(ops, key)| && InTime(SubOps(ops, key), q)
    ensures IsKeyOrder(ops, key, Lifted(KeyIds(ops, |ops|, key), q))
  {
    hide KeyIds, SubOps;
    var ids := KeyIds(ops, |ops|, key);
    var r := Lifted(ids, q);
    LiftedInTime(ops, key, q);
    forall c: nat ensures c in r <==> c < |ops| && ops[c].input.key == key {
      if c < |ops| && ops[c].input.key == key {
        var j :| 0 <= j < |ids| && ids[j] == c;
        AllThere(q, |ids|, j);
        var i :| 0 <= i < |q| && q[i] == j;
        assert r[i] == c;
      }
    }
  }

  /** Every order of one key comes from an order of its subhistory. */
  lemma Renumbered(ops: seq<KvOp>, key: string, f: seq<nat>) returns (q: seq<nat>)
    requires IsKeyOrder(ops, key, f)
    ensures |q| == |SubOps(ops, key)| && InTime(SubOps(ops, key), q) && Lifted(KeyIds(ops, |ops|, key), q) == f
  {
    hide KeyIds, SubOps, IndexOf;
    var ids := KeyIds(ops, |ops|, key);
    forall i | 0 <= i < |f| ensures f[i] in ids {
      assert f[i] in f;
    }
    q := seq(|f|, i requires 0 <= i < |f| => IndexOf(ids, f[i]));
    assert Lifted(ids, q) == f;
    LiftedInTime(ops, key, q);
    DistinctSize(f);
    DistinctSize(ids);
    assert Ids(f) == Ids(ids);
  }

  /** One key's subhistory is linearizable exactly when its operations have an accepted order. */
  lemma KeyLinearizable(ops: seq<KvOp>, key: string)
    ensures OpsLinearizable(OneKey(), SubOps(ops, key)) <==> KeyHasOrder(ops, key)
  {
    hide KeyIds, SubOps, IndexOf, Accepted, InTime;
    var ids := KeyIds(ops, |ops|, key);
    if q :| IsOrder(OneKey(), SubOps(ops, key), q) {
      assert InRange(q, |ids|) by { InTimeRange(SubOps(ops, key), q); }
      LiftedAll(ops, key, q);
      LiftedAccepted(ops, key, q);
      assert KeyAccepted(ops, key, Lifted(ids, q));
    }
    if f :| KeyAccepted(ops, key, f) {
      var q := Renumbered(ops, key, f);
      assert InRange(q, |ids|) by { InTimeRange(SubOps(ops, key), q); }
      LiftedAccepted(ops, key, q);
      assert IsOrder(OneKey(), SubOps(ops, key), q);
    }
  }

  lemma InTimeRange<I, O>(ops: seq<Operation<I, O>>, q: seq<nat>)
    requires InTime(ops, q)
    ensures InRange(q, |ops|)
  {
  }

  // ---- From the store to one key ----

  lemma FilterAdd(ops: seq<KvOp>, r: seq<nat>, c: nat, f: seq<nat>)
    requires InTime(ops, r + [c]) && InTime(ops, f) && forall d | d in f :: d in r
    ensures InTime(ops, f + [c])
  {
    forall i | 0 <= i < |f| ensures f[i] != c && !(ops[c].ret < ops[f[i]].call) {
      assert f[i] in f;
      var j :| 0 <= j < |r| && r[j] == f[i];
      assert (r + [c])[j] == f[i] && (r + [c])[|r|] == c;
    }
    assert (r + [c])[|r|] == c;
  }

  lemma {:induction false} FilterInTime(ops: seq<KvOp>, p: seq<nat>, key: string)
    requires InTime(ops, p)
    ensures InTime(ops, Filter(ops, p, key))
  {
    if p != [] {
      hide Filter;
      var r, c := p[..|p| - 1], p[|p| - 1];
      assert p == r + [c];
      FilterInTime(ops, r, key);
      FilterSnoc(ops, r, c, key);
      FilterAdd(ops, r, c, Filter(ops, r, key));
      assert Filter(ops, r, key) + [] == Filter(ops, r, key);
    }
  }

  lemma FilterIsKeyOrder(ops: seq<KvOp>, p: seq<nat>, key: string)
    requires InTime(ops, p) && |p| == |ops|
    ensures IsKeyOrder(ops, key, Filter(ops, p, key))
  {
    FilterInTime(ops, p, key);
    forall c: nat | c < |ops| ensures c in p {
      AllThere(p, |ops|, c);
    }
  }

  // ---- From the keys to the store ----

  ghost predicate AllKeyOrders(ops: seq<KvOp>, orders: string -> seq<nat>) {
    forall key :: IsKeyOrder(ops, key, orders(key))
  }

  /** `p` merges prefixes of the keys' orders, and nothing left returned before a member was called. */
  ghost predicate Merging(ops: seq<KvOp>, orders: string -> seq<nat>, p: seq<nat>) {
    && InTime(ops, p)
    && (forall key :: Filter(ops, p, key) <= orders(key))
    && (forall c, d: nat | c in p && d < |ops| && d !in p :: !(ops[d].ret < ops[c].call))
  }

  /** `c` is the next operation of its key. */
  ghost predicate IsHead(ops: seq<KvOp>, orders: string -> seq<nat>, p: seq<nat>, c: nat)
    requires InRange(p, |ops|) && c < |ops|
  {
    var k := ops[c].input.key;
    |Filter(ops, p, k)| < |orders(k)| && orders(k)[|Filter(ops, p, k)|] == c
  }

  /** For an operation that is left, the next one of its key was called no later than it returned. */
  lemma HeadOf(ops: seq<KvOp>, orders: string -> seq<nat>, p: seq<nat>, d: nat) returns (c: nat)
    requires OpsOk(ops) && AllKeyOrders(ops, orders) && Merging(ops, orders, p) && d < |ops| && d !in p
    ensures c < |ops| && c !in p && IsHead(ops, orders, p, c) && !(ops[d].ret < ops[c].call)
  {
    hide Filter;
    var k := ops[d].input.key;
    var q, f := orders(k), Filter(ops, p, k);
    assert IsKeyOrder(ops, k, q) && f <= q;
    var j :| 0 <= j < |q| && q[j] == d;
    assert j >= |f|;
    c := q[|f|];
    assert c in q;
    assert c !in f;
  }

  /** The operation called first among some. */
  lemma {:induction false} Earliest(ops: seq<KvOp>, s: set<nat>) returns (c: nat)
    requires s != {} && forall d | d in s :: d < |ops|
    ensures c in s && forall d | d in s :: ops[c].call <= ops[d].call
  {
    var e :| e in s;
    if s == {e} {
      c := e;
    } else {
      c := Earliest(ops, s - {e});
      if ops[e].call < ops[c].call {
        c := e;
      }
    }
  }

  ghost function Heads(ops: seq<KvOp>, orders: string -> seq<nat>, p: seq<nat>): set<nat>
    requires InRange(p, |ops|)
  {
    set c: nat | c < |ops| && c !in p && IsHead(ops, orders, p, c)
  }

  /** Taking the head that was called first keeps the merge in time. */
  lemma MergeStep(ops: seq<KvOp>, orders: string -> seq<nat>, p: seq<nat>, d: nat) returns (c: nat)
    requires OpsOk(ops) && AllKeyOrders(ops, orders) && Merging(ops, orders, p) && d < |ops| && d !in p
    ensures c < |ops| && c !in p && Merging(ops, orders, p + [c])
  {
    hide Filter, AllKeyOrders, IsHead;
    var h := HeadOf(ops, orders, p, d);
    assert h in Heads(ops, orders, p);
    c := Earliest(ops, Heads(ops, orders, p));
    forall e: nat | e < |ops| && e !in p ensures !(ops[e].ret < ops[c].call) {
      var g := HeadOf(ops, orders, p, e);
      assert g in Heads(ops, orders, p);
    }
    forall key ensures Filter(ops, p + [c], key) <= orders(key) {
      HeadTaken(ops, orders, p, c, key);
    }
  }

  lemma HeadTaken(ops: seq<KvOp>, orders: string -> seq<nat>, p: seq<nat>, c: nat, key: string)
    requires Merging(ops, orders, p) && c < |ops| && IsHead(ops, orders, p, c)
    ensures InRange(p + [c], |ops|) && Filter(ops, p + [c], key) <= orders(key)
  {
    hide Filter, InTime;
    InTimeRange(ops, p);
    FilterSnoc(ops, p, c, key);
    assert Filter(ops, p, key) <= orders(key);
    if key == ops[c].input.key {
      LongerPrefix(Filter(ops, p, key), orders(key), c);
    } else {
      assert Filter(ops, p, key) + [] == Filter(ops, p, key);
    }
  }

  lemma LongerPrefix(f: seq<nat>, q: seq<nat>, c: nat)
    requires f <= q && |f| < |q| && q[|f|] == c
    ensures f + [c] <= q
  {
  }

  lemma MergeDone(ops: seq<KvOp>, orders: string -> seq<nat>, p: seq<nat>, key: string)
    requires AllKeyOrders(ops, orders) && Merging(ops, orders, p) && |p| == |ops|
    ensures Filter(ops, p, key) == orders(key)
  {
    hide Filter;
    var q, f := orders(key), Filter(ops, p, key);
    assert IsKeyOrder(ops, key, q) && f <= q;
    if |f| < |q| {
      var c := q[|f|];
      assert c in q;
      AllThere(p, |ops|, c);
      assert false;
    }
  }

  lemma Left(p: seq<nat>, n: nat) returns (d: nat)
    requires InRange(p, n) && |p| < n
    ensures d < n && d !in p
  {
    if forall e: nat | e < n :: e in Ids(p) {
      IdsAtMost(p);
      Counting(Ids(p), n);
      assert false;
    }
    d :| d < n && d !in Ids(p);
  }

  lemma {:induction false} IdsAtMost(p: seq<nat>)
    ensures |Ids(p)| <= |p|
  {
    if p != [] {
      var r, c := p[..|p| - 1], p[|p| - 1];
      IdsAtMost(r);
      assert p == r + [c];
      IdsSnoc(r, c);
    }
  }

  lemma {:induction false} Counting(s: set<nat>, n: nat)
    requires forall e: nat | e < n :: e in s
    ensures |s| >= n
  {
    if n > 0 {
      Counting(s - {n - 1}, n - 1);
    }
  }

  /** Orders of all keys merge into one order of everything. */
  lemma {:induction false} Merge(ops: seq<KvOp>, orders: string -> seq<nat>, p: seq<nat>) returns (full: seq<nat>)
    requires OpsOk(ops) && AllKeyOrders(ops, orders) && Merging(ops, orders, p)
    ensures |full| == |ops| && InTime(ops, full) && forall key :: Filter(ops, full, key) == orders(key)
    decreases |ops| - |p|
  {
    hide Filter, AllKeyOrders;
    DistinctSize(p);
    InRangeSize(Ids(p), |ops|);
    if |p| == |ops| {
      full := p;
      forall key ensures Filter(ops, full, key) == orders(key) {
        MergeDone(ops, orders, p, key);
      }
    } else {
      var d := Left(p, |ops|);
      var c := MergeStep(ops, orders, p, d);
      full := Merge(ops, orders, p + [c]);
    }
  }

  /** Some accepted order of each key. */
  ghost function Chosen(ops: seq<KvOp>, key: string): (f: seq<nat>)
    requires KeyHasOrder(ops, key)
    ensures KeyAccepted(ops, key, f)
  {
    var f :| KeyAccepted(ops, key, f);
    f
  }

  /** Locality: the history of the whole store is linearizable exactly when the history of every key is. */
  lemma PartitionExact(ops: seq<KvOp>)
    requires OpsOk(ops)
    ensures OpsLinearizable(WholeStore(), ops) <==> forall key :: OpsLinearizable(OneKey(), SubOps(ops, key))
  {
    hide Accepted, InTime, SubOps, Filter, OpsLinearizable;
    if OpsLinearizable(WholeStore(), ops) {
      Split(ops);
    }
    if forall key :: OpsLinearizable(OneKey(), SubOps(ops, key)) {
      Combine(ops);
    }
  }

  lemma Split(ops: seq<KvOp>)
    requires OpsLinearizable(WholeStore(), ops)
    ensures forall key :: OpsLinearizable(OneKey(), SubOps(ops, key))
  {
    hide Accepted, InTime, SubOps, Filter, IsKeyOrder;
    var p :| IsOrder(WholeStore(), ops, p);
    InTimeRange(ops, p);
    AcceptedByKey(ops, p);
    forall key ensures OpsLinearizable(OneKey(), SubOps(ops, key)) {
      FilterIsKeyOrder(ops, p, key);
      assert Accepts(ops, p, key);
      assert KeyAccepted(ops, key, Filter(ops, p, key));
      KeyLinearizable(ops, key);
    }
  }

  lemma Combine(ops: seq<KvOp>)
    requires OpsOk(ops) && forall key :: OpsLinearizable(OneKey(), SubOps(ops, key))
    ensures OpsLinearizable(WholeStore(), ops)
  {
    hide Accepted, InTime, SubOps, Filter, IsKeyOrder, OpsLinearizable;
    forall key ensures KeyHasOrder(ops, key) {
      assert OpsLinearizable(OneKey(), SubOps(ops, key));
      KeyLinearizable(ops, key);
    }
    var orders: string -> seq<nat> := key => Chosen(ops, key);
    StartMerging(ops, orders);
    var p := Merge(ops, orders, []);
    InTimeRange(ops, p);
    forall key ensures Accepts(ops, p, key) {
      assert Filter(ops, p, key) == orders(key);
    }
    AcceptedByKey(ops, p);
    Found(ops, p);
  }

  lemma StartMerging(ops: seq<KvOp>, orders: string -> seq<nat>)
    ensures Merging(ops, orders, [])
  {
  }

  lemma Found(ops: seq<KvOp>, p: seq<nat>)
    requires |p| == |ops| && InTime(ops, p) && Accepted(WholeStore(), ops, p)
    ensures OpsLinearizable(WholeStore(), ops)
  {
    assert IsOrder(WholeStore(), ops, p);
  }
}
