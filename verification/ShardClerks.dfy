/** The sharded store together with its clerks: each sends its writes with growing numbers, any of them any
    number of times, and starts the next one only when the last has been answered OK. */
module ShardClerks {
  import opened MigrationCore
  import opened ShardGroup
  import opened ShardProtocol
  import opened ShardReplies

  /** The writes a clerk has sent, and whether the last of them has been answered OK. */
  datatype Clerk = Clerk(sent: seq<Op>, answered: bool)

  datatype System = System(world: World, clerks: map<Client, Clerk>)

  datatype Event =
    | Act(g: int, a: Action)      // a step of the store; the writes it handles have been sent
    | Issue(op: Op)               // a clerk goes on to its next write

  predicate Writes(a: Action) {
    a.ClientOp? && a.op.opType != OpGet
  }

  ghost predicate CanHappen(configs: Configs, s: System, e: Event) {
    && WorldOk(s.world)
    && match e
       case Act(g, a) =>
         && Can(configs, s.world, g, a)
         && (Writes(a) ==> a.op.clientId in s.clerks && a.op in s.clerks[a.op.clientId].sent)
       case Issue(op) =>
         && op.opType != OpGet
         && (op.clientId in s.clerks ==>
               var c := s.clerks[op.clientId];
               c.sent != [] && c.answered && c.sent[|c.sent| - 1].seqId < op.seqId)
  }

  /** The clerk hears the answer to the write it waits for. */
  ghost function Hears(s: System, g: int, op: Op): map<Client, Clerk>
    requires WorldOk(s.world) && g in s.world.states && op.clientId in s.clerks
  {
    var c := s.clerks[op.clientId];
    if c.sent != [] && c.sent[|c.sent| - 1] == op && ApplyClientOperation(g, Now(s.world, g), op).1.err == OK
    then s.clerks[op.clientId := c.(answered := true)]
    else s.clerks
  }

  ghost function Happened(configs: Configs, s: System, e: Event): System
    requires CanHappen(configs, s, e)
  {
    match e
    case Act(g, a) =>
      System(ShardProtocol.After(configs, s.world, g, a), if Writes(a) then Hears(s, g, a.op) else s.clerks)
    case Issue(op) =>
      var sent := if op.clientId in s.clerks then s.clerks[op.clientId].sent else [];
      s.(clerks := s.clerks[op.clientId := Clerk(sent + [op], false)])
  }

  ghost predicate Next(configs: Configs, s: System, s': System) {
    exists e :: CanHappen(configs, s, e) && s' == Happened(configs, s, e)
  }

  ghost predicate IsClerkRun(configs: Configs, run: seq<System>) {
    && |run| > 0 && ConfigsKnown(configs, run[0].world.states.Keys) && Init(configs, run[0].world)
    && run[0].clerks == map[]
    && forall n | 0 < n < |run| :: Next(configs, run[n - 1], run[n])
  }

  // ---- The invariant ----

  ghost predicate ClerkOk(w: World, client: Client, c: Clerk)
    requires WorldOk(w)
  {
    && c.sent != []
    && (forall k | 0 <= k < |c.sent| :: c.sent[k].clientId == client && c.sent[k].opType != OpGet)
    && (forall j, k | 0 <= j < k < |c.sent| :: c.sent[j].seqId < c.sent[k].seqId)
    && (forall k | 0 <= k < |c.sent| - 1 :: IsIn(w, c.sent[k]))
    && (c.answered ==> IsIn(w, c.sent[|c.sent| - 1]))
  }

  /** An accepted write was sent. */
  ghost predicate Sent(clerks: map<Client, Clerk>, i: nat, x: Write) {
    && x.client in clerks
    && exists op :: op in clerks[x.client].sent && WriteOf(op) == x && Key2Shard(op.key) == i
  }

  ghost predicate AllSent(s: System)
    requires WorldOk(s.world)
  {
    forall i: nat, k: nat | i < NShards && k < |s.world.accepted[i]| :: Sent(s.clerks, i, s.world.accepted[i][k])
  }

  ghost predicate SystemOk(s: System) {
    && WorldOk(s.world) && Tables(s.world) && AllSent(s)
    && forall c | c in s.clerks :: ClerkOk(s.world, c, s.clerks[c])
  }

  lemma ClerkStays(w: World, w': World, client: Client, c: Clerk)
    requires WorldOk(w) && WorldOk(w') && Grows(w.accepted, w'.accepted) && ClerkOk(w, client, c)
    ensures ClerkOk(w', client, c)
  {
    hide IsIn, Grows;
    forall k | 0 <= k < |c.sent| && IsIn(w, c.sent[k]) ensures IsIn(w', c.sent[k]) {
      InStays(w, w', c.sent[k]);
    }
  }

  /** Numbers are the clerk's own, and it went on only after an answer. */
  lemma SentIsOrderly(s: System, op: Op)
    requires SystemOk(s) && op.clientId in s.clerks && op in s.clerks[op.clientId].sent
    ensures OwnNumber(s.world, op) && InTurn(s.world, op)
  {
    hide Tables, IsIn;
    var w, c := s.world, s.clerks[op.clientId];
    assert ClerkOk(w, op.clientId, c);
    var j :| 0 <= j < |c.sent| && c.sent[j] == op;
    forall i: nat, k: nat, n: int | Has(w.accepted, i, k, op.clientId, n)
      ensures n == op.seqId ==> i == Key2Shard(op.key) && w.accepted[i][k] == WriteOf(op)
      ensures n > op.seqId ==> IsIn(w, op)
    {
      assert Sent(s.clerks, i, w.accepted[i][k]);
      var o :| o in c.sent && WriteOf(o) == w.accepted[i][k] && Key2Shard(o.key) == i;
      var l :| 0 <= l < |c.sent| && c.sent[l] == o;
    }
  }

  /** A sent write that is answered OK has taken effect after the step. */
  lemma AnsweredSent(configs: Configs, s: System, g: int, op: Op)
    requires SystemOk(s) && op.clientId in s.clerks && op in s.clerks[op.clientId].sent && op.opType != OpGet
    requires g in s.world.states && ApplyClientOperation(g, Now(s.world, g), op).1.err == OK
    ensures var w' := ShardProtocol.After(configs, s.world, g, ClientOp(op)); WorldOk(w') && IsIn(w', op)
  {
    hide ApplyClientOperation, ShardProtocol.After, IsIn, ClerkOk, AllSent;
    SentIsOrderly(s, op);
    AnsweredIn(configs, s.world, g, op);
    assert TableOk(s.world.accepted, Now(s.world, g).dup);
  }

  /** The accepted writes after a step: the same, or one sent write more. */
  lemma AcceptedStep(configs: Configs, w: World, g: int, a: Action)
    requires WorldOk(w) && Can(configs, w, g, a)
    ensures var w' := ShardProtocol.After(configs, w, g, a);
            || w'.accepted == w.accepted
            || (Writes(a) && var i := Key2Shard(a.op.key);
                w'.accepted == w.accepted[i := w.accepted[i] + [WriteOf(a.op)]])
  {
    hide ApplyClientOperation, ApplyShardMigration, ApplyShardGC, ApplyNewConfig, ShardsByStatus, IsOrder,
      GetShardsData;
  }

  lemma SentStep(configs: Configs, s: System, g: int, a: Action)
    requires SystemOk(s) && CanHappen(configs, s, Act(g, a)) && WorldOk(ShardProtocol.After(configs, s.world, g, a))
    ensures AllSent(Happened(configs, s, Act(g, a)))
  {
    hide Tables, ClerkOk, Can, ShardProtocol.After, ApplyClientOperation;
    var s' := Happened(configs, s, Act(g, a));
    AcceptedStep(configs, s.world, g, a);
    forall c | c in s.clerks ensures c in s'.clerks && s'.clerks[c].sent == s.clerks[c].sent {
    }
    forall i: nat, k: nat | i < NShards && k < |s'.world.accepted[i]|
      ensures Sent(s'.clerks, i, s'.world.accepted[i][k])
    {
      var x := s'.world.accepted[i][k];
      if k < |s.world.accepted[i]| {
        assert Sent(s.clerks, i, s.world.accepted[i][k]);
        var op :| op in s.clerks[x.client].sent && WriteOf(op) == x && Key2Shard(op.key) == i;
        assert op in s'.clerks[x.client].sent;
      } else {
        assert a.op in s'.clerks[x.client].sent;
      }
    }
  }

  lemma ActorIsThere(configs: Configs, w: World, g: int, a: Action)
    requires WorldOk(w) && Can(configs, w, g, a)
    ensures g in w.states
  {
  }

  lemma ActStep(configs: Configs, s: System, g: int, a: Action)
    requires SystemOk(s) && CanHappen(configs, s, Act(g, a))
    ensures SystemOk(Happened(configs, s, Act(g, a)))
  {
    hide Tables, AllSent, Can, ShardProtocol.After, ApplyClientOperation, IsIn, Grows;
    var s' := Happened(configs, s, Act(g, a));
    StepOk(configs, s.world, g, a);
    TablesStep(configs, s.world, g, a);
    StepGrows(configs, s.world, g, a);
    SentStep(configs, s, g, a);
    ActorIsThere(configs, s.world, g, a);
    forall c | c in s'.clerks ensures ClerkOk(s'.world, c, s'.clerks[c]) {
      ClerkStays(s.world, s'.world, c, s.clerks[c]);
      if s'.clerks[c] != s.clerks[c] {
        AnsweredSent(configs, s, g, a.op);
      }
    }
  }

  lemma IssueStep(configs: Configs, s: System, op: Op)
    requires SystemOk(s) && CanHappen(configs, s, Issue(op))
    ensures SystemOk(Happened(configs, s, Issue(op)))
  {
    hide Tables, IsIn;
    var s' := Happened(configs, s, Issue(op));
    var c := op.clientId;
    if c in s.clerks {
      assert ClerkOk(s.world, c, s.clerks[c]);
    }
    forall i: nat, k: nat | i < NShards && k < |s.world.accepted[i]|
      ensures Sent(s'.clerks, i, s.world.accepted[i][k])
    {
      var x := s.world.accepted[i][k];
      assert Sent(s.clerks, i, x);
      var o :| o in s.clerks[x.client].sent && WriteOf(o) == x && Key2Shard(o.key) == i;
      assert o in s'.clerks[x.client].sent;
    }
  }

  lemma StartOk(configs: Configs, s: System)
    requires ConfigsKnown(configs, s.world.states.Keys) && Init(configs, s.world) && s.clerks == map[]
    ensures SystemOk(s)
  {
    StartTables(configs, s.world);
  }

  lemma {:induction false} RunOk(configs: Configs, run: seq<System>, n: nat)
    requires IsClerkRun(configs, run) && n < |run|
    ensures SystemOk(run[n])
  {
    hide SystemOk, CanHappen, Happened, ConfigsKnown, Init;
    if n == 0 {
      StartOk(configs, run[0]);
    } else {
      RunOk(configs, run, n - 1);
      assert Next(configs, run[n - 1], run[n]);
      var e :| CanHappen(configs, run[n - 1], e) && run[n] == Happened(configs, run[n - 1], e);
      match e {
        case Act(g, a) => ActStep(configs, run[n - 1], g, a);
        case Issue(op) => IssueStep(configs, run[n - 1], op);
      }
    }
  }

  /** In every run of store and clerks: every write that a clerk has heard an OK for, and so every one before its
      last, has taken effect on its shard. */
  lemma ClerksWritesAreIn(configs: Configs, run: seq<System>, n: nat, client: Client, k: nat)
    requires IsClerkRun(configs, run) && n < |run| && client in run[n].clerks && k < |run[n].clerks[client].sent|
    requires k < |run[n].clerks[client].sent| - 1 || run[n].clerks[client].answered
    ensures WorldOk(run[n].world) && IsIn(run[n].world, run[n].clerks[client].sent[k])
  {
    hide IsClerkRun, Tables, AllSent, IsIn;
    RunOk(configs, run, n);
    assert ClerkOk(run[n].world, client, run[n].clerks[client]);
  }
}
