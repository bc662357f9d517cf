/** Every step of the groups is, for each shard, a step of that shard. */
module ShardProjection {
  import opened MigrationCore
  import opened MigrationGaps
  import opened ShardGroup
  import opened ShardProtocol

  // ---- One shard of the world ----

  ghost function SeqIds(dup: DupTable): Table {
    map c | c in dup :: dup[c].seqId
  }

  ghost function CellOf(gr: Group, i: nat): Cell
    requires GroupOk(gr) && i < NShards
  {
    Cell(gr.current.num, gr.shards[i].status, gr.shards[i].kv, SeqIds(gr.dup))
  }

  ghost function CellsOf(states: seq<Group>, i: nat): (r: seq<Cell>)
    requires i < NShards && forall k | 0 <= k < |states| :: GroupOk(states[k])
    ensures |r| == |states| && forall k | 0 <= k < |states| :: r[k] == CellOf(states[k], i)
  {
    seq(|states|, k requires 0 <= k < |states| => CellOf(states[k], i))
  }

  ghost function MigOf(x: Migration, i: nat): Mig
    requires i in x.content.data
  {
    Mig(x.to, x.content.num, x.content.data[i], SeqIds(x.content.dup))
  }

  ghost function MigsOf(xs: set<Migration>, i: nat): set<Mig> {
    set x | x in xs && i in x.content.data :: MigOf(x, i)
  }

  ghost function GcsOf(xs: set<Cleanup>, i: nat): set<Gc> {
    set x | x in xs && i in x.ids :: Gc(x.to, x.num)
  }

  ghost function PastOf(states: map<int, seq<Group>>, i: nat): map<int, seq<Cell>>
    requires i < NShards && forall g, k: nat | g in states && k < |states[g]| :: GroupOk(states[g][k])
  {
    map g | g in states :: CellsOf(states[g], i)
  }

  ghost function Proj(w: World, i: nat): State
    requires WorldOk(w) && i < NShards
  {
    State(PastOf(w.states, i), MigsOf(w.migrations, i), GcsOf(w.cleanups, i), w.accepted[i])
  }

  lemma ProjCur(w: World, i: nat, g: int)
    requires WorldOk(w) && i < NShards && g in w.states
    ensures GroupsOk(Proj(w, i)) && g in Proj(w, i).past && Cur(Proj(w, i), g) == CellOf(Now(w, g), i)
    ensures |Proj(w, i).past[g]| == |w.states[g]|
  {
    hide CellOf, MigsOf, GcsOf;
    forall h | h in w.states ensures |Proj(w, i).past[h]| > 0 {
    }
  }

  lemma ProjMoved(w: World, g: int, gr: Group, i: nat)
    requires WorldOk(w) && g in w.states && GroupOk(gr) && i < NShards
    ensures WorldOk(Moved(w, g, gr)) && Proj(Moved(w, g, gr), i) == Push(Proj(w, i), g, CellOf(gr, i))
  {
    hide CellOf, MigsOf, GcsOf;
    var w' := Moved(w, g, gr);
    assert WorldOk(w');
    assert CellsOf(w.states[g] + [gr], i) == CellsOf(w.states[g], i) + [CellOf(gr, i)];
    assert PastOf(w'.states, i) == PastOf(w.states, i)[g := CellsOf(w.states[g], i) + [CellOf(gr, i)]];
  }

  // ---- Client operations ----

  lemma ApplyOk(gid: int, gr: Group, op: Op)
    requires GroupOk(gr)
    ensures GroupOk(ApplyClientOperation(gid, gr, op).0)
  {
  }

  /** The operation on the shard it is for. */
  lemma ApplyHere(gid: int, gr: Group, op: Op)
    requires GroupOk(gr) && Accepts(gid, gr, op)
    ensures GroupOk(ApplyClientOperation(gid, gr, op).0)
    ensures var i, w := Key2Shard(op.key), WriteOf(op);
            CellOf(ApplyClientOperation(gid, gr, op).0, i) ==
            CellOf(gr, i).(kv := Put(gr.shards[i].kv, w), dup := SeqIds(gr.dup)[w.client := w.seqId])
  {
    var i := Key2Shard(op.key);
    var gr' := ApplyClientOperation(gid, gr, op).0;
    assert SeqIds(gr'.dup) == SeqIds(gr.dup)[op.clientId := op.seqId];
  }

  /** On every other shard, or without effect, only the table may grow. */
  lemma ApplyElsewhere(gid: int, gr: Group, op: Op, i: nat)
    requires GroupOk(gr) && i < NShards && (i != Key2Shard(op.key) || !Accepts(gid, gr, op))
    ensures GroupOk(ApplyClientOperation(gid, gr, op).0)
    ensures var gr' := ApplyClientOperation(gid, gr, op).0;
            CellOf(gr', i) == CellOf(gr, i).(dup := SeqIds(gr'.dup)) && TableLe(SeqIds(gr.dup), SeqIds(gr'.dup))
  {
  }

  lemma SameDuplicated(dup: DupTable, client: Client, seqId: int)
    ensures RequestDuplicated(dup, client, seqId) == Duplicated(SeqIds(dup), client, seqId)
  {
  }

  lemma SameServes(configs: Configs, g: int, gr: Group, i: nat)
    requires GroupOk(gr) && i < NShards && GroupAt(configs, gr)
    ensures gr.current.num < |OwnersOf(configs, i)| && OwnersOf(configs, i)[gr.current.num] == gr.current.shards[i]
    ensures Serves(OwnersOf(configs, i), g, CellOf(gr, i)) <==>
            gr.current.shards[i] == g && (gr.shards[i].status == Normal || gr.shards[i].status == GC)
  {
  }

  /** The group's configurations are the controller's. */
  ghost predicate GroupAt(configs: Configs, gr: Group) {
    && gr.current.num < |configs| && gr.current == configs[gr.current.num]
    && gr.prev == configs[if gr.current.num == 0 then 0 else gr.current.num - 1]
  }

  lemma ClientStep(configs: Configs, w: World, g: int, op: Op, i: nat) returns (a: Step)
    requires WorldOk(w) && g in w.states && i < NShards && GroupAt(configs, Now(w, g)) && GroupsOk(Proj(w, i))
             && g in Proj(w, i).past
    ensures WorldOk(ShardProtocol.After(configs, w, g, ClientOp(op))) && CanStep(OwnersOf(configs, i), Proj(w, i), g, a)
    ensures Proj(ShardProtocol.After(configs, w, g, ClientOp(op)), i) == MigrationCore.After(OwnersOf(configs, i),
            Proj(w, i), g, a)
  {
    hide CellOf, MigsOf, GcsOf, PastOf, ApplyClientOperation, MatchGroup, RequestDuplicated, Duplicated, Serves, Put,
      OwnersOf, SeqIds;
    var gr := Now(w, g);
    var gr' := ApplyClientOperation(g, gr, op).0;
    ApplyOk(g, gr, op);
    ProjMoved(w, g, gr', i);
    ProjCur(w, i, g);
    if Accepts(g, gr, op) && i == Key2Shard(op.key) {
      a := Accept(WriteOf(op));
      ApplyHere(g, gr, op);
      SameDuplicated(gr.dup, op.clientId, op.seqId);
      SameServes(configs, g, gr, i);
      ServesHere(g, gr, op);
      CellParts(gr, i);
    } else {
      a := Grow(SeqIds(gr'.dup));
      ApplyElsewhere(g, gr, op, i);
      CellParts(gr, i);
    }
  }

  lemma CellParts(gr: Group, i: nat)
    requires GroupOk(gr) && i < NShards
    ensures CellOf(gr, i).kv == gr.shards[i].kv && CellOf(gr, i).dup == SeqIds(gr.dup)
    ensures CellOf(gr, i).num == gr.current.num && CellOf(gr, i).status == gr.shards[i].status
  {
  }

  lemma ServesHere(g: int, gr: Group, op: Op)
    requires GroupOk(gr) && Accepts(g, gr, op)
    ensures var i := Key2Shard(op.key);
            gr.current.shards[i] == g && (gr.shards[i].status == Normal || gr.shards[i].status == GC)
  {
  }

  // ---- Configuration changes ----

  lemma ConfigCell(configs: Configs, g: int, gr: Group, num: nat, i: nat)
    requires GroupOk(gr) && i < NShards && GroupAt(configs, gr) && num < |configs| && |configs[num].shards| == NShards
    requires gr.current.num + 1 == num == configs[num].num
    ensures GroupOk(ApplyNewConfig(g, gr, configs[num]).0) && |OwnersOf(configs, i)| == |configs|
    ensures CellOf(ApplyNewConfig(g, gr, configs[num]).0, i) == Advanced(OwnersOf(configs, i), g, CellOf(gr, i))
  {
  }

  lemma ConfigStep(configs: Configs, w: World, g: int, num: nat, i: nat) returns (a: Step)
    requires WorldOk(w) && g in w.states && i < NShards && GroupAt(configs, Now(w, g)) && GroupsOk(Proj(w, i))
             && g in Proj(w, i).past
    requires num < |configs| && |configs[num].shards| == NShards && configs[num].num == num
    requires Now(w, g).current.num + 1 == num ==> AllNormal(Now(w, g))
    requires ShardProtocol.Can(configs, w, g, ApplyConfig(num))
    ensures WorldOk(ShardProtocol.After(configs, w, g, ApplyConfig(num)))
            && CanStep(OwnersOf(configs, i), Proj(w, i), g, a)
    ensures Proj(ShardProtocol.After(configs, w, g, ApplyConfig(num)), i) == MigrationCore.After(OwnersOf(configs, i),
            Proj(w, i), g, a)
  {
    hide CellOf, MigsOf, GcsOf, PastOf, Advanced, OwnersOf, SeqIds;
    var gr := Now(w, g);
    var gr' := ApplyNewConfig(g, gr, configs[num]).0;
    ProjMoved(w, g, gr', i);
    ProjCur(w, i, g);
    CellParts(gr, i);
    if gr.current.num + 1 == num {
      a := Advance;
      ConfigCell(configs, g, gr, num, i);
    } else {
      a := Grow(SeqIds(gr.dup));
      assert CellOf(gr, i).(dup := SeqIds(gr.dup)) == CellOf(gr, i);
    }
  }

  // ---- Migration ----

  lemma MergedTables(a: DupTable, b: DupTable)
    ensures TableLe(SeqIds(a), SeqIds(MergeTables(a, b))) && TableLe(SeqIds(b), SeqIds(MergeTables(a, b)))
  {
  }

  lemma MigrationCell(gr: Group, d: ShardData, order: seq<nat>, i: nat)
    requires GroupOk(gr) && IsOrder(order, d.data) && i < NShards && d.num == gr.current.num
    ensures var gr' := ApplyShardMigration(gr, d, order);
            && GroupOk(gr') && TableLe(SeqIds(gr.dup), SeqIds(gr'.dup)) && TableLe(SeqIds(d.dup), SeqIds(gr'.dup))
            && (|| CellOf(gr', i) == CellOf(gr, i).(dup := SeqIds(gr'.dup))
                || (i in d.data && gr.shards[i].status == MoveIn
                    && CellOf(gr', i) == Cell(gr.current.num, GC, gr.shards[i].kv + d.data[i], SeqIds(gr'.dup))))
  {
    hide TableLe, SeqIds, MergeTables, TakeShards;
    MergedTables(gr.dup, d.dup);
    TakeShardsAt(gr.shards, d.data, order, i);
  }

  lemma MigrationStep(configs: Configs, w: World, g: int, d: ShardData, order: seq<nat>, i: nat) returns (a: Step)
    requires WorldOk(w) && g in w.states && i < NShards && GroupsOk(Proj(w, i)) && g in Proj(w, i).past
    requires ShardProtocol.Can(configs, w, g, ApplyMigration(d, order))
    ensures WorldOk(ShardProtocol.After(configs, w, g, ApplyMigration(d, order)))
            && CanStep(OwnersOf(configs, i), Proj(w, i), g, a)
    ensures Proj(ShardProtocol.After(configs, w, g, ApplyMigration(d, order)),
                 i) == MigrationCore.After(OwnersOf(configs, i), Proj(w, i), g, a)
  {
    hide CellOf, GcsOf, PastOf, OwnersOf, SeqIds, ApplyShardMigration, TableLe, IsOrder;
    var gr := Now(w, g);
    var gr' := ApplyShardMigration(gr, d, order);
    ProjCur(w, i, g);
    CellParts(gr, i);
    if d.num != gr.current.num {
      NoMigration(gr, d, order);
      a := Grow(SeqIds(gr.dup));
      TableSelf(SeqIds(gr.dup));
      assert CellOf(gr, i).(dup := SeqIds(gr.dup)) == CellOf(gr, i);
    } else {
      MigrationCell(gr, d, order, i);
      if CellOf(gr', i) == CellOf(gr, i).(dup := SeqIds(gr'.dup)) {
        a := Grow(SeqIds(gr'.dup));
      } else {
        a := Take(MigOf(Migration(g, d), i), SeqIds(gr'.dup));
        assert Migration(g, d) in w.migrations;
      }
    }
    ProjMoved(w, g, gr', i);
  }

  lemma NoMigration(gr: Group, d: ShardData, order: seq<nat>)
    requires GroupOk(gr) && IsOrder(order, d.data) && d.num != gr.current.num
    ensures ApplyShardMigration(gr, d, order) == gr
  {
  }

  lemma TableSelf(dup: Table)
    ensures TableLe(dup, dup)
  {
  }

  // ---- Cleaning up ----

  lemma CleanupCell(gr: Group, num: nat, ids: seq<nat>, i: nat)
    requires GroupOk(gr) && Within(ids, NShards) && i < NShards
    ensures var gr' := ApplyShardGC(gr, num, ids);
            && GroupOk(gr') && gr'.dup == gr.dup
            && (|| CellOf(gr', i) == CellOf(gr, i)
                || (i in ids && num == gr.current.num && (gr.shards[i].status == GC || gr.shards[i].status == MoveOut)
                    && CellOf(gr', i) == CellOf(gr, i).(status := Normal,
                                                        kv := if gr.shards[i].status == MoveOut then map[]
                                                        else gr.shards[i].kv)))
  {
    hide SeqIds, CleanShards;
    CleanShardsAt(gr.shards, ids, i);
  }

  lemma CleanupStep(configs: Configs, w: World, g: int, num: nat, ids: seq<nat>, i: nat) returns (a: Step)
    requires WorldOk(w) && g in w.states && i < NShards && GroupsOk(Proj(w, i)) && g in Proj(w, i).past
    requires ShardProtocol.Can(configs, w, g, ApplyCleanup(num, ids))
    ensures WorldOk(ShardProtocol.After(configs, w, g, ApplyCleanup(num, ids)))
            && CanStep(OwnersOf(configs, i), Proj(w, i), g, a)
    ensures Proj(ShardProtocol.After(configs, w, g, ApplyCleanup(num, ids)),
                 i) == MigrationCore.After(OwnersOf(configs, i), Proj(w, i), g, a)
  {
    hide CellOf, MigsOf, PastOf, OwnersOf, SeqIds, ApplyShardGC, TableLe;
    var gr := Now(w, g);
    var gr' := ApplyShardGC(gr, num, ids);
    ProjCur(w, i, g);
    CellParts(gr, i);
    CleanupCell(gr, num, ids, i);
    if CellOf(gr', i) == CellOf(gr, i) {
      a := Grow(SeqIds(gr.dup));
      TableSelf(SeqIds(gr.dup));
      assert CellOf(gr, i).(dup := SeqIds(gr.dup)) == CellOf(gr, i);
    } else {
      a := Clean;
      assert Cleanup(g, num, ids) in w.cleanups;
    }
    ProjMoved(w, g, gr', i);
  }

  // ---- Messages ----

  lemma AddMig(xs: set<Migration>, x: Migration, i: nat)
    ensures MigsOf(xs + {x}, i) == MigsOf(xs, i) + (if i in x.content.data then {MigOf(x, i)} else {})
  {
  }

  lemma AddGc(xs: set<Cleanup>, x: Cleanup, i: nat)
    ensures GcsOf(xs + {x}, i) == GcsOf(xs, i) + (if i in x.ids then {Gc(x.to, x.num)} else {})
  {
  }

  lemma PullStep(configs: Configs, w: World, g: int, k: nat, from: int, j: nat, i: nat) returns (a: Step)
    requires WorldOk(w) && ShardProtocol.Can(configs, w, g, PullShards(k, from, j)) && i < NShards
             && GroupsOk(Proj(w, i)) && g in Proj(w, i).past
    requires GroupAt(configs, w.states[g][k]) && KnownOwners(OwnersOf(configs, i), w.states.Keys)
    requires w.states[g][k].current.num == 0 ==> w.states[g][k].shards[i].status != MoveIn
    ensures WorldOk(ShardProtocol.After(configs, w, g, PullShards(k, from, j)))
            && CanStep(OwnersOf(configs, i), Proj(w, i), g, a)
    ensures Proj(ShardProtocol.After(configs, w, g, PullShards(k, from, j)),
                 i) == MigrationCore.After(OwnersOf(configs, i), Proj(w, i), g, a)
  {
    hide MigsOf, GcsOf, SeqIds;
    var r := w.states[g][k];
    var ids := ShardsByStatus(r, MoveIn, from, NShards);
    var x := Migration(g, Answer(w, g, k, from, j).1);
    AddMig(w.migrations, x, i);
    if i in ids {
      a := Pull(k, from, j);
    } else {
      a := Nothing;
    }
  }

  lemma OrderStep(configs: Configs, w: World, g: int, k: nat, from: int, to: int, i: nat) returns (a: Step)
    requires WorldOk(w) && g in w.states && k < |w.states[g]| && i < NShards && GroupsOk(Proj(w, i))
             && g in Proj(w, i).past
    ensures var r := w.states[g][k];
            var w' := w.(cleanups := w.cleanups + {Cleanup(to, r.current.num, ShardsByStatus(r, GC, from, NShards))});
            && WorldOk(w') && CanStep(OwnersOf(configs, i), Proj(w, i), g, a)
            && Proj(w', i) == MigrationCore.After(OwnersOf(configs, i), Proj(w, i), g, a)
  {
    hide MigsOf, GcsOf, SeqIds, OwnersOf;
    var r := w.states[g][k];
    var ids := ShardsByStatus(r, GC, from, NShards);
    AddGc(w.cleanups, Cleanup(to, r.current.num, ids), i);
    if i in ids {
      a := Order(k, to);
    } else {
      a := Nothing;
    }
  }
}
