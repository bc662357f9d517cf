/** Shards that move together between the same two groups change status together, so a walk over them that
    stops at the first unexpected status never splits them. */
module ShardBatches {
  import opened Collections
  import opened MigrationCore
  import opened MigrationGaps
  import opened ShardGroup
  import opened ShardProtocol
  import opened ShardProjection
  import opened ShardSafety

  /** Both shards move at `num`, from the same group to the same group. */
  ghost predicate SameMove(configs: Configs, num: nat, i: nat, j: nat)
    requires i < NShards && j < NShards
  {
    && 0 < num < |configs| && |configs[num].shards| == |configs[num - 1].shards| == NShards
    && configs[num - 1].shards[i] == configs[num - 1].shards[j] && configs[num].shards[i] == configs[num].shards[j]
    && configs[num - 1].shards[i] != configs[num].shards[i]
  }

  ghost predicate Uniform(configs: Configs, gr: Group)
    requires GroupOk(gr)
  {
    forall i: nat, j: nat | i < NShards && j < NShards && SameMove(configs, gr.current.num, i, j) ::
      gr.shards[i].status == gr.shards[j].status
  }

  /** All shards of one move, or none. */
  ghost predicate Batch(configs: Configs, num: nat, ids: set<nat>) {
    && (forall i | i in ids :: i < NShards)
    && (forall i, j | i in ids && j in ids :: SameMove(configs, num, i, j))
    && (forall i, j: nat | i in ids && j < NShards && SameMove(configs, num, i, j) :: j in ids)
  }

  ghost function IdSet(ids: seq<nat>): set<nat> {
    set i | i in ids
  }

  ghost predicate CleanupOk(configs: Configs, x: Cleanup) {
    Batch(configs, x.num, IdSet(x.ids)) && Distinct(x.ids)
  }

  ghost predicate Together(configs: Configs, w: World)
    requires WorldOk(w)
  {
    && (forall g, k: nat | g in w.states && k < |w.states[g]| :: Uniform(configs, w.states[g][k]))
    && (forall x | x in w.migrations :: Batch(configs, x.content.num, x.content.data.Keys))
    && (forall x | x in w.cleanups :: CleanupOk(configs, x))
  }

  // ---- Walks over a batch ----

  lemma {:induction false} TakeAll(shards: seq<Shard>, data: map<nat, Data>, order: seq<nat>, i: nat)
    requires Covers(data, order, |shards|) && i < |shards| && Distinct(order)
    requires forall k | 0 <= k < |order| :: shards[order[k]].status == MoveIn
    ensures TakeShards(shards, data, order)[i].status == if i in order then GC else shards[i].status
    decreases order
  {
    if order != [] {
      var k := order[0];
      assert k !in order[1..];
      TakeAll(shards[k := Shard(shards[k].kv + data[k], GC)], data, order[1..], i);
      if i != k && i in order {
        assert i in order[1..];
      }
    }
  }

  lemma TakeNone(shards: seq<Shard>, data: map<nat, Data>, order: seq<nat>)
    requires Covers(data, order, |shards|) && (order == [] || shards[order[0]].status != MoveIn)
    ensures TakeShards(shards, data, order) == shards
  {
  }

  lemma {:induction false} CleanAll(shards: seq<Shard>, ids: seq<nat>, i: nat)
    requires Within(ids, |shards|) && i < |shards| && Distinct(ids)
    requires forall k | 0 <= k < |ids| :: shards[ids[k]].status == GC || shards[ids[k]].status == MoveOut
    ensures CleanShards(shards, ids)[i].status == if i in ids then Normal else shards[i].status
    decreases ids
  {
    if ids != [] {
      var k := ids[0];
      assert k !in ids[1..];
      CleanAll(shards[k := CleanShard(shards[k])], ids[1..], i);
      if i != k && i in ids {
        assert i in ids[1..];
      }
    }
  }

  lemma CleanNone(shards: seq<Shard>, ids: seq<nat>)
    requires Within(ids, |shards|)
    requires ids == [] || !(shards[ids[0]].status == GC || shards[ids[0]].status == MoveOut)
    ensures CleanShards(shards, ids) == shards
  {
  }

  /** A migration takes a whole batch or nothing of it, whatever the order of the walk. */
  lemma MigrationWhole(configs: Configs, gr: Group, d: ShardData, order: seq<nat>, i: nat)
    requires GroupOk(gr) && IsOrder(order, d.data) && d.num == gr.current.num && Uniform(configs, gr)
             && Batch(configs, d.num, d.data.Keys)
    requires i < NShards
    ensures var gr' := ApplyShardMigration(gr, d, order);
            gr'.shards[i].status == if i in d.data && gr.shards[i].status == MoveIn then GC else gr.shards[i].status
  {
    hide TakeShards, MergeTables;
    if order == [] || gr.shards[order[0]].status != MoveIn {
      TakeNone(gr.shards, d.data, order);
      if i in d.data {
        assert SameMove(configs, d.num, order[0], i);
      }
    } else {
      forall k | 0 <= k < |order| ensures gr.shards[order[k]].status == MoveIn {
        assert SameMove(configs, d.num, order[0], order[k]);
      }
      TakeAll(gr.shards, d.data, order, i);
    }
  }

  lemma MigrationUniform(configs: Configs, gr: Group, d: ShardData, order: seq<nat>)
    requires GroupOk(gr) && IsOrder(order, d.data) && Uniform(configs, gr) && Batch(configs, d.num, d.data.Keys)
    ensures GroupOk(ApplyShardMigration(gr, d, order)) && Uniform(configs, ApplyShardMigration(gr, d, order))
  {
    hide MergeTables, TakeShards, SameMove, IsOrder, Covers;
    var gr' := ApplyShardMigration(gr, d, order);
    if d.num == gr.current.num {
      forall i: nat, j: nat | i < NShards && j < NShards && SameMove(configs, gr.current.num, i, j)
        ensures gr'.shards[i].status == gr'.shards[j].status
      {
        MoveSym(configs, gr.current.num, i, j);
        MigrationWhole(configs, gr, d, order, i);
        MigrationWhole(configs, gr, d, order, j);
      }
    }
  }

  lemma MoveSym(configs: Configs, num: nat, i: nat, j: nat)
    requires i < NShards && j < NShards && SameMove(configs, num, i, j)
    ensures SameMove(configs, num, j, i)
  {
  }

  lemma CleanupWhole(configs: Configs, gr: Group, x: Cleanup, i: nat)
    requires GroupOk(gr) && x.num == gr.current.num && Uniform(configs, gr) && CleanupOk(configs, x)
             && Within(x.ids, NShards) && i < NShards
    ensures ApplyShardGC(gr, x.num, x.ids).shards[i].status ==
            if i in x.ids && (gr.shards[i].status == GC || gr.shards[i].status == MoveOut) then Normal
              else gr.shards[i].status
  {
    hide CleanShards;
    if x.ids == [] || !(gr.shards[x.ids[0]].status == GC || gr.shards[x.ids[0]].status == MoveOut) {
      CleanNone(gr.shards, x.ids);
      if i in x.ids {
        assert x.ids[0] in IdSet(x.ids) && i in IdSet(x.ids);
        assert SameMove(configs, x.num, x.ids[0], i);
      }
    } else {
      forall k | 0 <= k < |x.ids| ensures gr.shards[x.ids[k]].status == gr.shards[x.ids[0]].status {
        assert x.ids[0] in IdSet(x.ids) && x.ids[k] in IdSet(x.ids);
        assert SameMove(configs, x.num, x.ids[0], x.ids[k]);
      }
      CleanAll(gr.shards, x.ids, i);
    }
  }

  lemma CleanupUniform(configs: Configs, gr: Group, x: Cleanup)
    requires GroupOk(gr) && Uniform(configs, gr) && CleanupOk(configs, x) && Within(x.ids, NShards)
    ensures GroupOk(ApplyShardGC(gr, x.num, x.ids)) && Uniform(configs, ApplyShardGC(gr, x.num, x.ids))
  {
    hide CleanShards, SameMove;
    var gr' := ApplyShardGC(gr, x.num, x.ids);
    if x.num == gr.current.num {
      forall i: nat, j: nat | i < NShards && j < NShards && SameMove(configs, gr.current.num, i, j)
        ensures gr'.shards[i].status == gr'.shards[j].status
      {
        MoveSym(configs, gr.current.num, i, j);
        CleanupWhole(configs, gr, x, i);
        CleanupWhole(configs, gr, x, j);
        assert i in x.ids <==> i in IdSet(x.ids);
        assert j in x.ids <==> j in IdSet(x.ids);
      }
    }
  }

  lemma ConfigUniform(configs: Configs, g: int, gr: Group, num: nat)
    requires GroupOk(gr) && GroupAt(configs, gr) && num < |configs| && |configs[num].shards| == NShards
             && configs[num].num == num
    requires Uniform(configs, gr) && (gr.current.num + 1 == num ==> AllNormal(gr))
    ensures GroupOk(ApplyNewConfig(g, gr, configs[num]).0) && Uniform(configs, ApplyNewConfig(g, gr, configs[num]).0)
  {
  }

  lemma ClientUniform(configs: Configs, g: int, gr: Group, op: Op)
    requires GroupOk(gr) && Uniform(configs, gr)
    ensures GroupOk(ApplyClientOperation(g, gr, op).0) && Uniform(configs, ApplyClientOperation(g, gr, op).0)
  {
    hide SameMove;
    var gr' := ApplyClientOperation(g, gr, op).0;
    assert gr'.current == gr.current;
    forall i: nat | i < NShards ensures gr'.shards[i].status == gr.shards[i].status {
    }
  }

  /** The shards that a group waits for from one source, or has yet to clean up, are a whole batch. */
  lemma AskedBatch(configs: Configs, w: World, g: int, k: nat, status: Status, from: int)
    requires WorldInv(configs, w) && g in w.states && k < |w.states[g]| && Uniform(configs, w.states[g][k])
    requires status == MoveIn || status == GC
    ensures var r := w.states[g][k];
            var ids := ShardsByStatus(r, status, from, NShards);
            Batch(configs, r.current.num, IdSet(ids))
  {
    hide ShardOk, KnownOwners, ReturnsOk, LastOwners;
    var r := w.states[g][k];
    var ids := ShardsByStatus(r, status, from, NShards);
    assert GroupAt(configs, r);
    forall i | i in ids ensures r.current.num > 0 && r.current.shards[i] == g && r.prev.shards[i] == from && from != g {
      assert ShardOk(configs, w, i);
      PastCell(configs, w, g, k, i);
      if r.current.num > 0 {
        MovesMatch(OwnersOf(configs, i), r.current.num);
      }
    }
    forall i, j | i in ids && j in ids ensures SameMove(configs, r.current.num, i, j) {
    }
    forall i, j: nat | i in ids && j < NShards && SameMove(configs, r.current.num, i, j) ensures j in ids {
      assert r.shards[i].status == r.shards[j].status;
    }
  }

  // ---- Runs ----

  lemma TogetherMoved(configs: Configs, w: World, g: int, gr: Group)
    requires WorldOk(w) && Together(configs, w) && g in w.states && GroupOk(gr) && Uniform(configs, gr)
    ensures WorldOk(Moved(w, g, gr)) && Together(configs, Moved(w, g, gr))
  {
    hide Uniform, Batch, CleanupOk;
    var w' := Moved(w, g, gr);
    assert WorldOk(w');
    forall h, k: nat | h in w'.states && k < |w'.states[h]| ensures Uniform(configs, w'.states[h][k]) {
      if k < |w.states[h]| {
        assert w'.states[h][k] == w.states[h][k];
      }
    }
  }

  lemma TogetherStep(configs: Configs, w: World, g: int, a: Action)
    requires WorldInv(configs, w) && Together(configs, w) && Can(configs, w, g, a)
    ensures WorldOk(ShardProtocol.After(configs, w, g, a)) && Together(configs, ShardProtocol.After(configs, w, g, a))
  {
    hide Uniform, Batch, ShardOk, KnownOwners, ReturnsOk, ChangeOk, IsOrder, ApplyClientOperation, ApplyShardMigration,
      ApplyShardGC, ApplyNewConfig, AllNormal,
      ShardsByStatus;
    var gr := Now(w, g);
    assert GroupAt(configs, gr) && Uniform(configs, gr);
    match a {
      case ClientOp(op) =>
        ClientUniform(configs, g, gr, op);
        TogetherMoved(configs, w, g, ApplyClientOperation(g, gr, op).0);
      case FetchConfig(k) =>
      case ApplyConfig(num) =>
        if gr.current.num + 1 == num {
          ChangeIsSafe(configs, w, g, num);
        }
        ConfigUniform(configs, g, gr, num);
        TogetherMoved(configs, w, g, ApplyNewConfig(g, gr, configs[num]).0);
      case PullShards(k, from, j) =>
        AskedBatch(configs, w, g, k, MoveIn, from);
        PulledKeys(w, g, k, from, j);
      case ApplyMigration(d, order) =>
        assert Batch(configs, Migration(g, d).content.num, Migration(g, d).content.data.Keys);
        MigrationUniform(configs, gr, d, order);
        TogetherMoved(configs, w, g, ApplyShardMigration(gr, d, order));
      case AskCleanup(k, from, j) =>
        AskedBatch(configs, w, g, k, GC, from);
      case ConfirmCleanup(k, from) =>
        AskedBatch(configs, w, g, k, GC, from);
      case ApplyCleanup(num, ids) =>
        CleanupUniform(configs, gr, Cleanup(g, num, ids));
        TogetherMoved(configs, w, g, ApplyShardGC(gr, num, ids));
    }
  }

  lemma PulledKeys(w: World, g: int, k: nat, from: int, j: nat)
    requires WorldOk(w) && g in w.states && k < |w.states[g]| && from in w.states && j < |w.states[from]|
    requires Answer(w, g, k, from, j).0 == OK
    ensures var r, d := w.states[g][k], Answer(w, g, k, from, j).1;
            d.num == r.current.num && d.data.Keys == IdSet(ShardsByStatus(r, MoveIn, from, NShards))
  {
  }

  lemma {:induction false} RunTogether(configs: Configs, run: seq<World>, n: nat)
    requires IsRun(configs, run) && n < |run|
    ensures WorldOk(run[n]) && Together(configs, run[n])
  {
    hide WorldInv, ConfigsOk;
    RunInv(configs, run, n);
    if n == 0 {
      StartTogether(configs, run[0]);
    } else {
      hide Init, Together;
      RunTogether(configs, run, n - 1);
      RunInv(configs, run, n - 1);
      assert Next(configs, run[n - 1], run[n - 1 + 1]);
      var g, a :| WorldOk(run[n - 1]) && Can(configs, run[n - 1], g, a)
        && run[n] == ShardProtocol.After(configs, run[n - 1], g, a);
      TogetherStep(configs, run[n - 1], g, a);
    }
  }

  lemma StartTogether(configs: Configs, w: World)
    requires ConfigsOk(configs, w.states.Keys) && Init(configs, w)
    ensures WorldOk(w) && Together(configs, w)
  {
    hide KnownOwners, ReturnsOk;
  }
}
