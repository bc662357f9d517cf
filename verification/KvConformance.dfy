/** The checker's model against the server it judges: the model takes the server's steps, and every history that
    a server answers from one log is linearizable. */
module KvConformance {
  import opened Collections
  import opened Linearizability
  import opened Operations
  import opened KvModel
  import opened KvLocality
  import Group = ShardGroup
  import Server = KvServer

  /** The server's command for an operation. */
  function CommandOf(inp: KvInput, client: int, seqId: int): Group.Op {
    Group.Op(inp.key, inp.value,
             if inp.op == 0 then Group.OpGet else if inp.op == 1 then Group.OpPut else Group.OpAppend,
             client, seqId)
  }

  /** The model of the whole store leads where the server goes. It accepts of a read exactly the value that the
      server answers, and of a write anything. */
  lemma StepIsServers(st: Store, inp: KvInput, out: KvOutput, client: int, seqId: int)
    ensures var (st', reply) := Server.ApplyToStore(st, CommandOf(inp, client, seqId));
            StoreStep(st, inp, out) == (inp.op == 0 ==> out.value == reply.value, st')
  {
  }

  // ---- Histories answered from one log ----

  /** Command `n` of the log is operation `o`, with the answer that the server gives there. */
  ghost predicate AnsweredAt(log: seq<Group.Op>, o: KvOp, n: nat) {
    && n < |log| && log[n] == CommandOf(o.input, log[n].clientId, log[n].seqId)
    && (o.input.op == 0 ==> o.output.value == Server.ApplyCommand(Server.Replay(log, n), log[n]).1.value)
    && (o.input.op != 0 ==> Server.IsFresh(log, n))
  }

  ghost predicate IsAt(pos: seq<nat>, n: nat, c: nat) {
    c < |pos| && pos[c] == n
  }

  /** Some operation takes effect at command `n`. */
  ghost predicate Taken(pos: seq<nat>, n: nat) {
    exists c: nat :: IsAt(pos, n, c)
  }

  /** Operation `c` takes effect at command `pos[c]`, within its time; every write that takes effect is one of
      the operations. */
  ghost predicate Served(log: seq<Group.Op>, ops: seq<KvOp>, pos: seq<nat>) {
    && |pos| == |ops| && Distinct(pos)
    && (forall c | 0 <= c < |ops| :: AnsweredAt(log, ops[c], pos[c]))
    && (forall c, d | 0 <= c < |ops| && 0 <= d < |ops| && ops[c].ret < ops[d].call :: pos[c] < pos[d])
    && (forall n | 0 <= n < |log| && Server.IsFresh(log, n) :: Taken(pos, n))
  }

  /** The operations that take effect among the first `n` commands, in the order of the log. */
  ghost function UpTo(pos: seq<nat>, n: nat): (p: seq<nat>)
    ensures InRange(p, |pos|)
  {
    if n == 0 then []
    else if Taken(pos, n - 1) then
      var c: nat :| IsAt(pos, n - 1, c);
      UpTo(pos, n - 1) + [c]
    else UpTo(pos, n - 1)
  }

  lemma {:induction false} UpToSorted(pos: seq<nat>, n: nat)
    ensures forall i | 0 <= i < |UpTo(pos, n)| :: pos[UpTo(pos, n)[i]] < n
    ensures forall i, j | 0 <= i < j < |UpTo(pos, n)| :: pos[UpTo(pos, n)[i]] < pos[UpTo(pos, n)[j]]
  {
    if n > 0 {
      UpToSorted(pos, n - 1);
    }
  }

  lemma {:induction false} UpToAll(pos: seq<nat>, n: nat, c: nat)
    requires Distinct(pos) && c < |pos| && pos[c] < n
    ensures c in UpTo(pos, n)
  {
    if pos[c] == n - 1 {
      assert IsAt(pos, n - 1, c);
      var p := UpTo(pos, n);
      assert pos[p[|p| - 1]] == n - 1;
      assert p[|p| - 1] == c;
    } else {
      UpToAll(pos, n - 1, c);
    }
  }

  /** The model accepts the operations in the order of the log, and its store is the server's. */
  lemma {:induction false} LogOrderAccepted(log: seq<Group.Op>, ops: seq<KvOp>, pos: seq<nat>, n: nat)
    requires Served(log, ops, pos) && n <= |log|
    ensures Accepted(WholeStore(), ops, UpTo(pos, n))
    ensures Operations.After(WholeStore(), ops, UpTo(pos, n)) == Server.Replay(log, n).kv
  {
    hide Served, Server.IsFresh, StoreStep, Server.ApplyToStore;
    if n > 0 {
      LogOrderAccepted(log, ops, pos, n - 1);
      var before := UpTo(pos, n - 1);
      assert |pos| == |ops| by { ServedSize(log, ops, pos); }
      if Taken(pos, n - 1) {
        var p := UpTo(pos, n);
        var c := p[|p| - 1];
        assert p == before + [c] && IsAt(pos, n - 1, c);
        ServedAt(log, ops, pos, c);
        OneStep(log, ops[c], n - 1);
        AfterSnoc(WholeStore(), ops, before, c);
        AcceptedSnoc(WholeStore(), ops, before, c);
      } else {
        NoEffect(log, ops, pos, n - 1);
      }
    }
  }

  lemma ServedSize(log: seq<Group.Op>, ops: seq<KvOp>, pos: seq<nat>)
    requires Served(log, ops, pos)
    ensures |pos| == |ops| && Distinct(pos)
  {
  }

  lemma ServedAt(log: seq<Group.Op>, ops: seq<KvOp>, pos: seq<nat>, c: nat)
    requires Served(log, ops, pos) && c < |ops|
    ensures |pos| == |ops| && AnsweredAt(log, ops[c], pos[c])
  {
  }

  /** An operation at its place: the model takes the server's step. */
  lemma OneStep(log: seq<Group.Op>, o: KvOp, n: nat)
    requires n < |log| && AnsweredAt(log, o, n)
    ensures StoreStep(Server.Replay(log, n).kv, o.input, o.output) == (true, Server.Replay(log, n + 1).kv)
  {
    hide Server.IsFresh, StoreStep, Server.ApplyToStore;
    var c, op := Server.Replay(log, n), log[n];
    StepIsServers(c.kv, o.input, o.output, op.clientId, op.seqId);
    if o.input.op != 0 {
      Server.ReplayIsDeduplicated(log, n);
      FreshIsWrite(log, n);
      Server.FreshOrKnown(c.dup, log, n);
    }
  }

  lemma FreshIsWrite(log: seq<Group.Op>, n: nat)
    requires n < |log| && Server.IsFresh(log, n)
    ensures Server.IsWrite(log[n])
  {
  }

  /** A command that is nobody's operation leaves the store as it is. */
  lemma NoEffect(log: seq<Group.Op>, ops: seq<KvOp>, pos: seq<nat>, n: nat)
    requires Served(log, ops, pos) && n < |log| && !Taken(pos, n)
    ensures Server.Replay(log, n + 1).kv == Server.Replay(log, n).kv
  {
    Server.NothingFresh(log, n, n + 1);
  }

  /** Whatever the timing: a history whose operations a server answers from one log, each at a command between its
      call and its return, is linearizable against one store of all keys. */
  lemma ServedIsLinearizable(log: seq<Group.Op>, ops: seq<KvOp>, pos: seq<nat>)
    requires Served(log, ops, pos)
    ensures OpsLinearizable(WholeStore(), ops)
  {
    hide Accepted, AnsweredAt, UpTo, Server.IsFresh;
    var p := UpTo(pos, |log|);
    LogOrderAccepted(log, ops, pos, |log|);
    UpToSorted(pos, |log|);
    forall c: nat | c < |ops| ensures c in p {
      ServedAt(log, ops, pos, c);
      AnsweredInLog(log, ops[c], pos[c]);
      UpToAll(pos, |log|, c);
    }
    DistinctSize(p);
    Counting(Ids(p), |ops|);
    InRangeSize(Ids(p), |ops|);
    assert IsOrder(WholeStore(), ops, p);
  }

  lemma AnsweredInLog(log: seq<Group.Op>, o: KvOp, n: nat)
    requires AnsweredAt(log, o, n)
    ensures n < |log|
  {
  }
}
