/** What the replies of the sharded store promise to its clients. */
module ShardReplies {
  import opened MigrationCore
  import opened MigrationGaps
  import opened ShardGroup
  import opened ShardProtocol
  import opened ShardTheorems
  import opened ShardGaps

  // ---- Every entry of a duplicate table is the OK reply to an accepted write ----

  ghost predicate Has(accepted: seq<seq<Write>>, i: nat, k: nat, client: Client, seqId: int) {
    i < |accepted| && k < |accepted[i]| && accepted[i][k].client == client && accepted[i][k].seqId == seqId
  }

  /** Some accepted write of the client has the number. */
  ghost predicate Known(accepted: seq<seq<Write>>, client: Client, seqId: int) {
    exists i: nat, k: nat :: Has(accepted, i, k, client, seqId)
  }

  ghost predicate TableOk(accepted: seq<seq<Write>>, dup: DupTable) {
    forall c | c in dup :: dup[c].reply == OpReply("", OK) && Known(accepted, c, dup[c].seqId)
  }

  ghost predicate Tables(w: World)
    requires WorldOk(w)
  {
    && (forall g, k: nat | g in w.states && k < |w.states[g]| :: TableOk(w.accepted, w.states[g][k].dup))
    && (forall x | x in w.migrations :: TableOk(w.accepted, x.content.dup))
  }

  /** No accepted write is given up. */
  ghost predicate Grows(a: seq<seq<Write>>, b: seq<seq<Write>>) {
    |a| == |b| && forall i | 0 <= i < |a| :: a[i] <= b[i]
  }

  lemma KnownStays(a: seq<seq<Write>>, b: seq<seq<Write>>, client: Client, seqId: int)
    requires Grows(a, b) && Known(a, client, seqId)
    ensures Known(b, client, seqId)
  {
    var i: nat, k: nat :| Has(a, i, k, client, seqId);
    assert Has(b, i, k, client, seqId);
  }

  lemma TableStays(a: seq<seq<Write>>, b: seq<seq<Write>>, dup: DupTable)
    requires Grows(a, b) && TableOk(a, dup)
    ensures TableOk(b, dup)
  {
    hide Known, Grows;
    forall c | c in dup ensures Known(b, c, dup[c].seqId) {
      KnownStays(a, b, c, dup[c].seqId);
    }
  }

  lemma StepGrows(configs: Configs, w: World, g: int, a: Action)
    requires WorldOk(w) && Can(configs, w, g, a)
    ensures Grows(w.accepted, ShardProtocol.After(configs, w, g, a).accepted)
  {
    hide ApplyClientOperation, ApplyShardMigration, ApplyShardGC, ApplyNewConfig, ShardsByStatus, IsOrder,
      GetShardsData;
  }

  /** The table after a client's operation. */
  lemma ClientTable(g: int, gr: Group, op: Op, accepted: seq<seq<Write>>, accepted': seq<seq<Write>>)
    requires GroupOk(gr) && TableOk(accepted, gr.dup) && Grows(accepted, accepted') && |accepted| == NShards
    requires Accepts(g, gr, op) ==>
               accepted'[Key2Shard(op.key)] == accepted[Key2Shard(op.key)] + [WriteOf(op)]
    ensures TableOk(accepted', ApplyClientOperation(g, gr, op).0.dup)
  {
    hide Known, Grows;
    TableStays(accepted, accepted', gr.dup);
    if Accepts(g, gr, op) {
      var i := Key2Shard(op.key);
      assert Grows(accepted, accepted') && |accepted'| == NShards by { SameSize(accepted, accepted'); }
      LastKnown(accepted', i, op.clientId, op.seqId);
    }
  }

  lemma SameSize(a: seq<seq<Write>>, b: seq<seq<Write>>)
    requires Grows(a, b)
    ensures |a| == |b|
  {
  }

  lemma LastKnown(accepted: seq<seq<Write>>, i: nat, client: Client, seqId: int)
    requires i < |accepted| && |accepted[i]| > 0
    requires accepted[i][|accepted[i]| - 1].client == client && accepted[i][|accepted[i]| - 1].seqId == seqId
    ensures Known(accepted, client, seqId)
  {
    assert Has(accepted, i, |accepted[i]| - 1, client, seqId);
  }

  lemma MergedTable(accepted: seq<seq<Write>>, a: DupTable, b: DupTable)
    requires TableOk(accepted, a) && TableOk(accepted, b)
    ensures TableOk(accepted, MergeTables(a, b))
  {
    hide Known;
  }

  /** The new table of the acting group, if it has one. */
  lemma ActorTable(configs: Configs, w: World, g: int, a: Action)
    requires WorldOk(w) && Tables(w) && Can(configs, w, g, a)
    ensures var w' := ShardProtocol.After(configs, w, g, a);
            |w'.states[g]| > |w.states[g]| ==> TableOk(w'.accepted, w'.states[g][|w.states[g]|].dup)
  {
    hide TableOk, Grows, ApplyClientOperation, ShardsByStatus, IsOrder, GetShardsData, MergeTables, TakeShards,
      CleanShards;
    var gr, w' := Now(w, g), ShardProtocol.After(configs, w, g, a);
    StepGrows(configs, w, g, a);
    assert TableOk(w.accepted, gr.dup);
    TableStays(w.accepted, w'.accepted, gr.dup);
    match a {
      case ClientOp(op) => ClientTable(g, gr, op, w.accepted, w'.accepted);
      case ApplyMigration(d, order) =>
        assert TableOk(w.accepted, Migration(g, d).content.dup);
        MergedTable(w.accepted, gr.dup, d.dup);
      case _ =>
    }
  }

  lemma TablesStep(configs: Configs, w: World, g: int, a: Action)
    requires WorldOk(w) && Tables(w) && Can(configs, w, g, a) && WorldOk(ShardProtocol.After(configs, w, g, a))
    ensures Tables(ShardProtocol.After(configs, w, g, a))
  {
    hide TableOk, Grows, ApplyClientOperation, ApplyShardMigration, ApplyShardGC, ApplyNewConfig, ShardsByStatus,
      IsOrder;
    var w' := ShardProtocol.After(configs, w, g, a);
    StepGrows(configs, w, g, a);
    ActorTable(configs, w, g, a);
    forall h, k: nat | h in w'.states && k < |w'.states[h]| ensures TableOk(w'.accepted, w'.states[h][k].dup) {
      if k < |w.states[h]| {
        TableStays(w.accepted, w'.accepted, w.states[h][k].dup);
      }
    }
    forall x | x in w'.migrations ensures TableOk(w'.accepted, x.content.dup) {
      if x in w.migrations {
        TableStays(w.accepted, w'.accepted, x.content.dup);
      } else {
        assert a.PullShards? && x.content.dup == w.states[a.from][a.j].dup;
        TableStays(w.accepted, w'.accepted, w.states[a.from][a.j].dup);
      }
    }
  }

  lemma StepOk(configs: Configs, w: World, g: int, a: Action)
    requires WorldOk(w) && Can(configs, w, g, a)
    ensures WorldOk(ShardProtocol.After(configs, w, g, a))
  {
    hide ShardsByStatus, IsOrder, GetShardsData, MergeTables, TakeShards, CleanShards, ApplyToShard, MatchGroup;
    var w' := ShardProtocol.After(configs, w, g, a);
    forall h | h in w'.states ensures |w'.states[h]| > 0 && forall k | 0 <= k < |w'.states[h]| ::
      GroupOk(w'.states[h][k])
    {
    }
  }

  /** In every run, under any configurations: the tables hold OK replies to accepted writes only. */
  lemma {:induction false} RunTables(configs: Configs, run: seq<World>, n: nat)
    requires IsAnyRun(configs, run) && n < |run|
    ensures WorldOk(run[n]) && Tables(run[n])
  {
    hide ConfigsKnown, TableOk;
    if n == 0 {
      StartTables(configs, run[0]);
    } else {
      hide Init, Tables;
      RunTables(configs, run, n - 1);
      assert Next(configs, run[n - 1], run[n - 1 + 1]);
      var g, a :| WorldOk(run[n - 1]) && Can(configs, run[n - 1], g, a)
                  && run[n] == ShardProtocol.After(configs, run[n - 1], g, a);
      StepOk(configs, run[n - 1], g, a);
      TablesStep(configs, run[n - 1], g, a);
    }
  }

  lemma StartTables(configs: Configs, w: World)
    requires ConfigsKnown(configs, w.states.Keys) && Init(configs, w)
    ensures WorldOk(w) && Tables(w)
  {
    hide KnownOwners;
  }

  // ---- What a reply says ----

  lemma RefusedIn(w: World, g: int, op: Op)
    requires WorldOk(w) && Tables(w) && g in w.states
    ensures var (gr, reply) := ApplyClientOperation(g, Now(w, g), op);
            var serves := ServesShard(w, g, Key2Shard(op.key));
            && (reply.err == ErrWrongGroup <==> !serves)
            && (!serves ==> gr == Now(w, g))
            && (serves && op.opType == OpGet ==> reply.err == OK || reply.err == ErrNoKey)
            && (serves && op.opType != OpGet ==> reply == OpReply("", OK))
  {
    hide Known;
    ServesIsMatch(w, g, op.key);
    assert TableOk(w.accepted, Now(w, g).dup);
  }

  /** In every run: an operation is refused exactly by a group that does not serve its shard, and a refusal changes
      nothing; a write is otherwise answered OK, and a read OK or with the error for a missing key. */
  lemma RefusedWhen(configs: Configs, run: seq<World>, n: nat, g: int, op: Op)
    requires IsAnyRun(configs, run) && n < |run| && WorldOk(run[n]) && g in run[n].states
    ensures var (gr, reply) := ApplyClientOperation(g, Now(run[n], g), op);
            var serves := ServesShard(run[n], g, Key2Shard(op.key));
            && (reply.err == ErrWrongGroup <==> !serves)
            && (!serves ==> gr == Now(run[n], g))
            && (serves && op.opType == OpGet ==> reply.err == OK || reply.err == ErrNoKey)
            && (serves && op.opType != OpGet ==> reply == OpReply("", OK))
  {
    hide IsAnyRun, Tables, ApplyClientOperation, ServesShard;
    RunTables(configs, run, n);
    RefusedIn(run[n], g, op);
  }

  /** The write has taken effect. */
  ghost predicate IsIn(w: World, op: Op)
    requires WorldOk(w)
  {
    WriteOf(op) in w.accepted[Key2Shard(op.key)]
  }

  /** No other write that has taken effect has the client and number of this one. */
  ghost predicate OwnNumber(w: World, op: Op)
    requires WorldOk(w)
  {
    forall i: nat, k: nat | Has(w.accepted, i, k, op.clientId, op.seqId) ::
      i == Key2Shard(op.key) && w.accepted[i][k] == WriteOf(op)
  }

  /** The write has not taken effect, and the group knows a later one of its client. */
  ghost predicate Overtaken(w: World, g: int, op: Op)
    requires WorldOk(w) && g in w.states
  {
    var dup := Now(w, g).dup;
    !IsIn(w, op) && op.clientId in dup && op.seqId < dup[op.clientId].seqId
  }

  lemma InAfter(configs: Configs, w: World, g: int, op: Op)
    requires WorldOk(w) && g in w.states && op.opType != OpGet && ServesShard(w, g, Key2Shard(op.key))
    ensures WorldOk(ShardProtocol.After(configs, w, g, ClientOp(op)))
    ensures IsIn(ShardProtocol.After(configs, w, g, ClientOp(op)), op) <==>
              IsIn(w, op) || !RequestDuplicated(Now(w, g).dup, op.clientId, op.seqId)
  {
    hide ApplyClientOperation, Can;
    StepOk(configs, w, g, ClientOp(op)) by { ClientCan(configs, w, g, op); }
    ServesIsMatch(w, g, op.key);
    var i := Key2Shard(op.key);
    assert forall x :: x in w.accepted[i] + [WriteOf(op)] <==> x in w.accepted[i] || x == WriteOf(op);
  }

  lemma ClientCan(configs: Configs, w: World, g: int, op: Op)
    requires WorldOk(w) && g in w.states
    ensures Can(configs, w, g, ClientOp(op))
  {
  }

  lemma AnsweredIn(configs: Configs, w: World, g: int, op: Op)
    requires WorldOk(w) && Tables(w) && g in w.states
    requires op.opType != OpGet && OwnNumber(w, op) && ApplyClientOperation(g, Now(w, g), op).1.err == OK
    ensures var w' := ShardProtocol.After(configs, w, g, ClientOp(op));
            WorldOk(w') && (IsIn(w', op) <==> !Overtaken(w, g, op))
  {
    hide ApplyClientOperation, ServesShard, Can, ShardProtocol.After;
    RefusedIn(w, g, op);
    InAfter(configs, w, g, op);
    var dup := Now(w, g).dup;
    assert TableOk(w.accepted, dup);
    if op.clientId in dup && dup[op.clientId].seqId == op.seqId {
      var i: nat, k: nat :| Has(w.accepted, i, k, op.clientId, op.seqId);
      assert w.accepted[i][k] == WriteOf(op);
    }
  }

  /** In every run: a write with a number of its own that is answered OK has taken effect after the step, if and
      only if the group had not been overtaken by a later write of the same client. */
  lemma AnsweredIsIn(configs: Configs, run: seq<World>, n: nat, g: int, op: Op)
    requires IsAnyRun(configs, run) && n < |run| && WorldOk(run[n]) && g in run[n].states
    requires op.opType != OpGet && OwnNumber(run[n], op) && ApplyClientOperation(g, Now(run[n], g), op).1.err == OK
    ensures var w' := ShardProtocol.After(configs, run[n], g, ClientOp(op));
            WorldOk(w') && (IsIn(w', op) <==> !Overtaken(run[n], g, op))
  {
    hide IsAnyRun, ApplyClientOperation, Tables, OwnNumber, Overtaken, Can, ShardProtocol.After;
    RunTables(configs, run, n);
    AnsweredIn(configs, run[n], g, op);
  }

  /** The client has gone on to later numbers only after this write has taken effect. */
  ghost predicate InTurn(w: World, op: Op)
    requires WorldOk(w)
  {
    forall n: int | n > op.seqId && Known(w.accepted, op.clientId, n) :: IsIn(w, op)
  }

  /** In every run, for a client that waits for the answer to each write before the next, as the clerk does: a
      write answered OK has taken effect, and is among the writes of its shard ever after. */
  lemma AcknowledgedIsKept(configs: Configs, run: seq<World>, n: nat, m: nat, g: int, op: Op)
    requires IsAnyRun(configs, run) && n < m < |run| && WorldOk(run[n]) && g in run[n].states
    requires op.opType != OpGet && OwnNumber(run[n], op) && InTurn(run[n], op)
    requires ApplyClientOperation(g, Now(run[n], g), op).1.err == OK
    requires Can(configs, run[n], g, ClientOp(op)) && run[n + 1] == ShardProtocol.After(configs, run[n], g,
             ClientOp(op))
    ensures WorldOk(run[m]) && IsIn(run[m], op)
  {
    hide IsAnyRun, ApplyClientOperation, Can, ShardProtocol.After;
    RunTables(configs, run, n);
    assert TableOk(run[n].accepted, Now(run[n], g).dup);
    AnsweredIsIn(configs, run, n, g, op);
    StaysIn(configs, run, n + 1, m, op);
  }

  lemma InStays(w: World, w': World, op: Op)
    requires WorldOk(w) && WorldOk(w') && Grows(w.accepted, w'.accepted) && IsIn(w, op)
    ensures IsIn(w', op)
  {
    var i := Key2Shard(op.key);
    var k :| 0 <= k < |w.accepted[i]| && w.accepted[i][k] == WriteOf(op);
    assert w'.accepted[i][k] == WriteOf(op);
  }

  /** What has taken effect stays so. */
  lemma {:induction false} StaysIn(configs: Configs, run: seq<World>, n: nat, m: nat, op: Op)
    requires IsAnyRun(configs, run) && n <= m < |run| && WorldOk(run[n]) && IsIn(run[n], op)
    ensures WorldOk(run[m]) && IsIn(run[m], op)
    decreases m
  {
    if n < m {
      hide Init, ConfigsKnown, Can, ShardProtocol.After, IsIn, Grows;
      StaysIn(configs, run, n, m - 1, op);
      assert Next(configs, run[m - 1], run[m - 1 + 1]);
      var g, a :| WorldOk(run[m - 1]) && Can(configs, run[m - 1], g, a)
                  && run[m] == ShardProtocol.After(configs, run[m - 1], g, a);
      StepOk(configs, run[m - 1], g, a);
      StepGrows(configs, run[m - 1], g, a);
      InStays(run[m - 1], run[m], op);
    }
  }

  /** A client that does not wait may lose a write: after a later one has taken effect, the group that serves both
      keys answers OK to the earlier one and drops it. For any group that owns all shards, and any two writes. */
  lemma OvertakenIsLost(configs: Configs, gids: set<int>, g: int, later: Op, op: Op) returns (w: World)
    requires ConfigsKnown(configs, gids) && |configs| > 1 && g in gids && AllOwnedBy(configs, 1, g)
             && AllOwnedBy(configs, 0, 0)
    requires later.opType != OpGet && op.opType != OpGet && later.clientId == op.clientId && op.seqId < later.seqId
    ensures Reachable(configs, gids, w) && WorldOk(w) && g in w.states && OwnNumber(w, op) && Overtaken(w, g, op)
    ensures ApplyClientOperation(g, Now(w, g), op).1 == OpReply("", OK)
    ensures !IsIn(ShardProtocol.After(configs, w, g, ClientOp(op)), op)
  {
    hide Reachable, KnownOwners, ApplyNewConfig;
    w := Begins(configs, gids);
    BlankAt(configs, 0);
    w := TakesConfig(configs, gids, w, g);
    NoZero(configs, gids);
    BlankStays(configs, 0, g, 0, g);
    var before := w;
    Extend(configs, gids, before, g, ClientOp(later));
    w := ShardProtocol.After(configs, before, g, ClientOp(later));
  }

  lemma NoZero(configs: Configs, gids: set<int>)
    requires ConfigsKnown(configs, gids)
    ensures 0 !in gids
  {
    assert KnownOwners(OwnersOf(configs, 0), gids);
  }
}
