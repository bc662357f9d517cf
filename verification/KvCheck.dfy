/** Checking a key/value history: split it by key, and check each part. */
module KvCheck {
  import opened Collections
  import opened Linearizability
  import opened Operations
  import opened KvModel
  import opened KvLocality
  import Checker

  // ---- Sorting keys ----

  predicate LexLess(a: string, b: string) {
    b != [] && (a == [] || a[0] < b[0] || (a[0] == b[0] && LexLess(a[1..], b[1..])))
  }

  lemma {:induction false} LexTotal(a: string, b: string)
    ensures LexLess(a, b) || a == b || LexLess(b, a)
  {
    if a != [] && b != [] && a[0] == b[0] {
      LexTotal(a[1..], b[1..]);
      assert a == [a[0]] + a[1..] && b == [b[0]] + b[1..];
    }
  }

  /** Strings are compared at the first place where they differ; a proper prefix comes first. */
  lemma {:induction false} LexMeans(a: string, b: string, k: nat)
    requires k <= |a| && k <= |b| && a[..k] == b[..k]
    ensures k == |a| < |b| ==> LexLess(a, b) && !LexLess(b, a)
    ensures k < |a| && k < |b| && a[k] < b[k] ==> LexLess(a, b) && !LexLess(b, a)
    ensures k == |a| == |b| ==> !LexLess(a, b)
    decreases k
  {
    if k > 0 {
      assert a[0] == a[..k][0] == b[..k][0] == b[0];
      assert a[1..][..k - 1] == a[..k][1..] && b[1..][..k - 1] == b[..k][1..];
      LexMeans(a[1..], b[1..], k - 1);
    }
  }

  lemma {:induction false} LexTransitive(a: string, b: string, c: string)
    requires LexLess(a, b) && LexLess(b, c)
    ensures LexLess(a, c)
  {
    if a != [] && a[0] == b[0] == c[0] {
      LexTransitive(a[1..], b[1..], c[1..]);
    }
  }

  /** Strictly increasing. */
  ghost predicate Increasing(s: seq<string>) {
    forall i, j | 0 <= i < j < |s| :: LexLess(s[i], s[j])
  }

  method InsertKey(s: seq<string>, x: string) returns (r: seq<string>)
    requires Increasing(s) && x !in s
    ensures Increasing(r) && forall k :: k in r <==> k in s || k == x
  {
    hide LexLess;
    var k := |s|;
    while k > 0 && LexLess(x, s[k - 1])
      invariant 0 <= k <= |s| && forall j | k <= j < |s| :: LexLess(x, s[j])
    {
      k := k - 1;
    }
    forall j | 0 <= j < k ensures LexLess(s[j], x) {
      LexTotal(s[k - 1], x);
      if j < k - 1 {
        LexTransitive(s[j], s[k - 1], x);
      }
    }
    r := s[..k] + [x] + s[k..];
    assert r[k] == x;
    assert forall j | 0 <= j < |s| :: s[j] == if j < k then r[j] else r[j + 1];
  }

  method SortStrings(s: seq<string>) returns (r: seq<string>)
    requires Distinct(s)
    ensures Increasing(r) && forall k :: k in r <==> k in s
  {
    hide LexLess;
    r := [];
    var i := 0;
    while i < |s|
      invariant 0 <= i <= |s| && Increasing(r) && forall k :: k in r <==> k in s[..i]
    {
      assert s[..i + 1] == s[..i] + [s[i]];
      r := InsertKey(r, s[i]);
      i := i + 1;
    }
    assert s[..i] == s;
  }

  // ---- Partition ----

  /** The operations on `key` among the first `n`. */
  ghost function SubTo(ops: seq<KvOp>, n: nat, key: string): seq<KvOp>
    requires n <= |ops|
  {
    if n == 0 then [] else SubTo(ops, n - 1, key) + (if ops[n - 1].input.key == key then [ops[n - 1]] else [])
  }

  lemma {:induction false} SubToIds(ops: seq<KvOp>, n: nat, key: string)
    requires n <= |ops|
    ensures |SubTo(ops, n, key)| == |KeyIds(ops, n, key)|
    ensures forall i | 0 <= i < |KeyIds(ops, n, key)| :: SubTo(ops, n, key)[i] == ops[KeyIds(ops, n, key)[i]]
  {
    if n > 0 {
      SubToIds(ops, n - 1, key);
    }
  }

  lemma SubToAll(ops: seq<KvOp>, key: string)
    ensures SubTo(ops, |ops|, key) == SubOps(ops, key)
  {
    hide KeyIds, SubTo;
    SubToIds(ops, |ops|, key);
  }

  ghost predicate HasKey(ops: seq<KvOp>, n: nat, key: string)
    requires n <= |ops|
  {
    exists c | 0 <= c < n :: ops[c].input.key == key
  }

  /** The table of subhistories after the first `n` operations. */
  ghost predicate Table(m: map<string, seq<KvOp>>, ops: seq<KvOp>, n: nat)
    requires n <= |ops|
  {
    forall key :: (key in m <==> HasKey(ops, n, key)) && (key in m ==> m[key] == SubTo(ops, n, key))
  }

  lemma {:induction false} NotThere(ops: seq<KvOp>, n: nat, key: string)
    requires n <= |ops| && !HasKey(ops, n, key)
    ensures SubTo(ops, n, key) == []
  {
    if n > 0 {
      assert ops[n - 1].input.key != key;
      assert forall c | 0 <= c < n - 1 :: ops[c].input.key != key;
      NotThere(ops, n - 1, key);
    }
  }

  lemma TableStep(m: map<string, seq<KvOp>>, ops: seq<KvOp>, n: nat)
    requires n < |ops| && Table(m, ops, n)
    ensures var k := ops[n].input.key; Table(m[k := (if k in m then m[k] else []) + [ops[n]]], ops, n + 1)
  {
    var k := ops[n].input.key;
    if k !in m {
      NotThere(ops, n, k);
    }
    forall key ensures HasKey(ops, n + 1, key) <==> HasKey(ops, n, key) || key == k {
      if key == k {
        assert ops[n].input.key == key;
      } else if HasKey(ops, n, key) {
        var c :| 0 <= c < n && ops[c].input.key == key;
        assert c < n + 1;
      }
    }
  }

  /** One subhistory per key, in the order of the keys: the result does not depend on the order in which
      the table is walked. */
  method Partition(history: seq<KvOp>) returns (parts: seq<seq<KvOp>>, ghost keys: seq<string>)
    ensures Increasing(keys) && (forall key :: key in keys <==> HasKey(history, |history|, key))
    ensures |parts| == |keys| && forall i | 0 <= i < |keys| :: parts[i] == SubOps(history, keys[i])
  {
    hide LexLess, SubTo, HasKey, SubOps;
    var m: map<string, seq<KvOp>> := map[];
    assert Table(m, history, 0) by { NoKeys(history); }
    var i := 0;
    while i < |history|
      invariant 0 <= i <= |history| && Table(m, history, i)
    {
      TableStep(m, history, i);
      var key := history[i].input.key;
      m := m[key := (if key in m then m[key] else []) + [history[i]]];
      i := i + 1;
    }
    var unsorted := KeysOf(m);
    var sorted := SortStrings(unsorted);
    keys := sorted;
    parts := [];
    i := 0;
    while i < |sorted|
      invariant 0 <= i <= |sorted| == |keys| && |parts| == i && forall j | 0 <= j < i ::
                parts[j] == SubOps(history, keys[j])
    {
      assert sorted[i] in sorted;
      SubToAll(history, sorted[i]);
      parts := parts + [m[sorted[i]]];
      i := i + 1;
    }
  }

  lemma NoKeys(ops: seq<KvOp>)
    ensures Table(map[], ops, 0)
  {
  }

  // ---- The verdict ----

  datatype CheckResult = Ok | Illegal

  lemma AbsentKey(ops: seq<KvOp>, key: string)
    requires !HasKey(ops, |ops|, key)
    ensures OpsLinearizable(OneKey(), SubOps(ops, key))
  {
    NotThere(ops, |ops|, key);
    SubToAll(ops, key);
    assert IsOrder(OneKey(), SubOps(ops, key), []);
  }

  lemma SubOpsOk(ops: seq<KvOp>, key: string)
    requires OpsOk(ops)
    ensures OpsOk(SubOps(ops, key))
  {
  }

  /** One partition's verdict. */
  method CheckPart(part: seq<KvOp>, verbose: bool) returns (ok: bool)
    requires OpsOk(part)
    ensures ok <==> OpsLinearizable(OneKey(), part)
  {
    hide ModelOk, IsSorting, OpsLinearizable, Linearizable;
    var entries, s := MakeEntries(part);
    SameVerdict(OneKey(), part, s);
    OneKeyOk();
    var longest;
    ok, longest := Checker.CheckSingle(OneKey(), entries, verbose, HistoryOf(part, s));
  }

  /** The verdict on a key/value history: `Ok` exactly when it is linearizable against one store of all keys. */
  method CheckOperations(history: seq<KvOp>, verbose: bool) returns (result: CheckResult)
    requires OpsOk(history) && history != []
    ensures result == Ok <==> OpsLinearizable(WholeStore(), history)
  {
    hide OpsLinearizable, SubOps, HasKey, LexLess, OpsOk, WholeStore, OneKey;
    var parts, keys := Partition(history);
    var ok := true;
    var i := 0;
    while i < |parts|
      invariant 0 <= i <= |parts| && (ok <==> forall j | 0 <= j < i ::
                                      OpsLinearizable(OneKey(), SubOps(history, keys[j])))
    {
      SubOpsOk(history, keys[i]);
      var good := CheckPart(parts[i], verbose);
      ok := ok && good;
      i := i + 1;
    }
    PartitionExact(history);
    forall key | key !in keys ensures OpsLinearizable(OneKey(), SubOps(history, key)) {
      AbsentKey(history, key);
    }
    return if ok then Ok else Illegal;
  }
}
