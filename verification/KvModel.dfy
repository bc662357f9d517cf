/** The key/value model, and why it may be checked key by key. */
module KvModel {
  import opened Linearizability
  import opened Operations

  type OpCode = x: int | 0 <= x < 256

  datatype KvInput = KvInput(op: OpCode, key: string, value: string)    // 0: get, 1: put, otherwise append

  datatype KvOutput = KvOutput(value: string)

  type KvOp = Operation<KvInput, KvOutput>

  // ---- One key, and the whole store ----

  function KvStep(st: string, inp: KvInput, out: KvOutput): (bool, string) {
    if inp.op == 0 then (out.value == st, st)
    else if inp.op == 1 then (true, inp.value)
    else (true, st + inp.value)
  }

  /** The model the checker is given: the value of a single key. */
  function OneKey(): Model<string, KvInput, KvOutput> {
    Model("", KvStep, (a, b) => a == b)
  }

  type Store = map<string, string>

  function ValueOf(st: Store, key: string): string {
    if key in st then st[key] else ""
  }

  /** The store of all keys; a missing key reads as empty. */
  function StoreStep(st: Store, inp: KvInput, out: KvOutput): (bool, Store) {
    if inp.op == 0 then (out.value == ValueOf(st, inp.key), st)
    else if inp.op == 1 then (true, st[inp.key := inp.value])
    else (true, st[inp.key := ValueOf(st, inp.key) + inp.value])
  }

  function WholeStore(): Model<Store, KvInput, KvOutput> {
    Model(map[], StoreStep, (a, b) => a == b)
  }

  lemma OneKeyOk()
    ensures ModelOk(OneKey())
  {
  }

  /** A step changes its own key as the single-key model does, and no other. */
  lemma StepByKey(st: Store, inp: KvInput, out: KvOutput, key: string)
    ensures StoreStep(st, inp, out).0 == KvStep(ValueOf(st, inp.key), inp, out).0
    ensures ValueOf(StoreStep(st, inp, out).1, key) ==
            if key == inp.key then KvStep(ValueOf(st, key), inp, out).1 else ValueOf(st, key)
  {
  }

  // ---- The operations on one key ----

  /** The ids of the operations on `key`, among the first `n`. */
  ghost function KeyIds(ops: seq<KvOp>, n: nat, key: string): (r: seq<nat>)
    requires n <= |ops|
    ensures forall i | 0 <= i < |r| :: r[i] < n && ops[r[i]].input.key == key
    ensures forall i, j | 0 <= i < j < |r| :: r[i] < r[j]
    ensures forall c: nat | c < n && ops[c].input.key == key :: c in r
  {
    if n == 0 then [] else
    KeyIds(ops, n - 1, key) + (if ops[n - 1].input.key == key then [n - 1] else [])
  }

  /** The subhistory of one key. */
  ghost function SubOps(ops: seq<KvOp>, key: string): (r: seq<KvOp>)
    ensures |r| == |KeyIds(ops, |ops|, key)| && forall i | 0 <= i < |r| :: r[i] == ops[KeyIds(ops, |ops|, key)[i]]
  {
    var ids := KeyIds(ops, |ops|, key);
    seq(|ids|, i requires 0 <= i < |ids| => ops[ids[i]])
  }

  /** The part of an order on one key. */
  ghost function Filter(ops: seq<KvOp>, p: seq<nat>, key: string): (r: seq<nat>)
    requires InRange(p, |ops|)
    ensures InRange(r, |ops|) && (forall c :: c in r <==> c in p && ops[c].input.key == key)
  {
    if p == [] then [] else
    var c := p[|p| - 1];
    assert p == p[..|p| - 1] + [c];
    Filter(ops, p[..|p| - 1], key) + (if ops[c].input.key == key then [c] else [])
  }

  lemma FilterSnoc(ops: seq<KvOp>, p: seq<nat>, c: nat, key: string)
    requires InRange(p, |ops|) && c < |ops|
    ensures InRange(p + [c], |ops|)
    ensures Filter(ops, p + [c], key) == Filter(ops, p, key) + (if ops[c].input.key == key then [c] else [])
  {
    assert (p + [c])[..|p|] == p;
  }

  lemma AfterSnoc<S, I, O>(m: Model<S, I, O>, ops: seq<Operation<I, O>>, p: seq<nat>, c: nat)
    requires InRange(p, |ops|) && c < |ops|
    ensures InRange(p + [c], |ops|)
    ensures After(m, ops, p + [c]) == m.step(After(m, ops, p), ops[c].input, ops[c].output).1
  {
    assert (p + [c])[..|p|] == p;
  }

  lemma AcceptedSnoc<S, I, O>(m: Model<S, I, O>, ops: seq<Operation<I, O>>, p: seq<nat>, c: nat)
    requires InRange(p, |ops|) && c < |ops|
    ensures InRange(p + [c], |ops|)
    ensures Accepted(m, ops, p + [c]) <==>
              Accepted(m, ops, p) && m.step(After(m, ops, p), ops[c].input, ops[c].output).0
  {
    assert (p + [c])[..|p|] == p;
  }

  /** In the store, each key has the value that its own operations give it. */
  lemma {:induction false} StoreByKey(ops: seq<KvOp>, p: seq<nat>, key: string)
    requires InRange(p, |ops|)
    ensures ValueOf(After(WholeStore(), ops, p), key) == After(OneKey(), ops, Filter(ops, p, key))
  {
    if p != [] {
      hide After, Filter, StoreStep, KvStep, ValueOf;
      var r, c := p[..|p| - 1], p[|p| - 1];
      assert p == r + [c];
      StoreByKey(ops, r, key);
      FilterSnoc(ops, r, c, key);
      StepByKey(After(WholeStore(), ops, r), ops[c].input, ops[c].output, key);
      AfterSnoc(WholeStore(), ops, r, c);
      if ops[c].input.key == key {
        AfterSnoc(OneKey(), ops, Filter(ops, r, key), c);
      } else {
        assert Filter(ops, r, key) + [] == Filter(ops, r, key);
      }
    }
  }

  /** One key accepts its part of the order. */
  ghost predicate Accepts(ops: seq<KvOp>, p: seq<nat>, key: string)
    requires InRange(p, |ops|)
  {
    Accepted(OneKey(), ops, Filter(ops, p, key))
  }

  lemma AcceptsSnoc(ops: seq<KvOp>, p: seq<nat>, c: nat, key: string)
    requires InRange(p, |ops|) && c < |ops|
    ensures InRange(p + [c], |ops|)
    ensures Accepts(ops, p + [c], key) <==>
            Accepts(ops, p, key) && (key == ops[c].input.key ==>
                                     StoreStep(After(WholeStore(), ops, p), ops[c].input, ops[c].output).0)
  {
    hide After, Accepted, Filter, StoreStep, KvStep, ValueOf;
    FilterSnoc(ops, p, c, key);
    if key == ops[c].input.key {
      AcceptedSnoc(OneKey(), ops, Filter(ops, p, key), c);
      StepByKey(After(WholeStore(), ops, p), ops[c].input, ops[c].output, key);
      StoreByKey(ops, p, key);
    } else {
      assert Filter(ops, p, key) + [] == Filter(ops, p, key);
    }
  }

  /** The store accepts an order exactly when each key accepts its part. */
  lemma {:induction false} AcceptedByKey(ops: seq<KvOp>, p: seq<nat>)
    requires InRange(p, |ops|)
    ensures Accepted(WholeStore(), ops, p) <==> forall key :: Accepts(ops, p, key)
  {
    if p != [] {
      hide Accepted, After, Accepts, StoreStep;
      var r, c := p[..|p| - 1], p[|p| - 1];
      assert p == r + [c];
      AcceptedByKey(ops, r);
      AcceptedSnoc(WholeStore(), ops, r, c);
      forall key
        ensures Accepts(ops, p, key) <==>
                Accepts(ops, r, key) && (key == ops[c].input.key ==>
                                         StoreStep(After(WholeStore(), ops, r), ops[c].input, ops[c].output).0)
      {
        AcceptsSnoc(ops, r, c, key);
      }
      assert Accepts(ops, p, ops[c].input.key) || !Accepts(ops, p, ops[c].input.key);
    }
  }
}
