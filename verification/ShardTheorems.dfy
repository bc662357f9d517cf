/** What holds in every run of the sharded store. */
module ShardTheorems {
  import opened MigrationCore
  import opened MigrationGaps
  import opened ShardGroup
  import opened ShardProtocol
  import opened ShardProjection
  import opened ShardSafety
  import opened ShardBatches
  import MigrationSafety

  /** The group would apply a client's operation on the shard. */
  ghost predicate ServesShard(w: World, g: int, i: nat)
    requires WorldOk(w) && g in w.states && i < NShards
  {
    var gr := Now(w, g);
    gr.current.shards[i] == g && (gr.shards[i].status == Normal || gr.shards[i].status == GC)
  }

  lemma ServesIsMatch(w: World, g: int, key: string)
    requires WorldOk(w) && g in w.states
    ensures MatchGroup(g, Now(w, g), key) == ServesShard(w, g, Key2Shard(key))
  {
  }

  lemma CoreServes(configs: Configs, w: World, g: int, i: nat)
    requires WorldInv(configs, w) && g in w.states && i < NShards
    ensures ShardOk(configs, w, i) && GroupsOk(Proj(w, i)) && g in Proj(w, i).past
            && Cur(Proj(w, i), g) == CellOf(Now(w, g), i)
    ensures ServesShard(w, g, i) == Serves(OwnersOf(configs, i), g, Cur(Proj(w, i), g))
    ensures ServesShard(w, g, i) ==> Serves(HoldersOf(configs, i), g, Cur(Proj(w, i), g))
  {
    hide ShardOk, Proj, OwnersOf, CellOf, Serves, KnownOwners, ReturnsOk, LastOwners, ChangeOk;
    assert ShardOk(configs, w, i);
    ProjCur(w, i, g);
    assert GroupAt(configs, Now(w, g));
    SameServes(configs, g, Now(w, g), i);
    NoGroupZero(configs, w);
    if ServesShard(w, g, i) {
      ServesAsLast(OwnersOf(configs, i), g, CellOf(Now(w, g), i));
    }
  }

  /** At most one group serves a shard, at any time, however late leaders read and messages arrive. */
  lemma OneGroupServes(configs: Configs, run: seq<World>, n: nat, i: nat, g: int, h: int)
    requires IsRun(configs, run) && n < |run| && i < NShards
    requires WorldOk(run[n]) && g in run[n].states && h in run[n].states && ServesShard(run[n], g, i)
             && ServesShard(run[n], h, i)
    ensures g == h
  {
    hide IsRun, WorldInv, Proj, OwnersOf, LastOwners, Inv, ServesShard, Serves;
    RunInv(configs, run, n);
    CoreServes(configs, run[n], g, i);
    CoreServes(configs, run[n], h, i);
    var tok: nat :| Inv(HoldersOf(configs, i), Proj(run[n], i), tok);
    MigrationSafety.OneServer(HoldersOf(configs, i), Proj(run[n], i), tok, g, h);
  }

  /** The group that serves a shard has exactly the data that the accepted writes make, in order: none is
      lost, revived or doubled by a move. Its duplicate table knows all of them. */
  lemma ServerHasAllWrites(configs: Configs, run: seq<World>, n: nat, i: nat, g: int)
    requires IsRun(configs, run) && n < |run| && i < NShards && WorldOk(run[n]) && g in run[n].states
             && ServesShard(run[n], g, i)
    ensures Now(run[n], g).shards[i].kv == Fold(run[n].accepted[i])
    ensures forall w | w in run[n].accepted[i] :: RequestDuplicated(Now(run[n], g).dup, w.client, w.seqId)
  {
    hide IsRun, WorldInv, OwnersOf, LastOwners, Inv, ServesShard, Serves, Fold, PastOf, MigsOf, GcsOf;
    RunInv(configs, run, n);
    CoreServes(configs, run[n], g, i);
    var tok: nat :| Inv(HoldersOf(configs, i), Proj(run[n], i), tok);
    MigrationSafety.ServerIsCurrent(HoldersOf(configs, i), Proj(run[n], i), tok, g);
  }

  /** While no group serves a shard that has been written, the group that has to hand it over keeps it, or
      its last owner does while it belongs to nobody. */
  lemma NothingIsLost(configs: Configs, run: seq<World>, n: nat, i: nat)
    requires IsRun(configs, run) && n < |run| && i < NShards && WorldOk(run[n]) && run[n].accepted[i] != []
    ensures exists g ::
              && g in run[n].states && Keeps(configs, run[n], g, i)
              && Now(run[n], g).shards[i].kv == Fold(run[n].accepted[i])
  {
    hide IsRun, WorldInv, OwnersOf, LastOwners, Inv, ServesShard, Serves, Fold, MigsOf, GcsOf;
    RunInv(configs, run, n);
    assert ShardOk(configs, run[n], i) by { ShardIsOk(configs, run[n], i); }
    var s := Proj(run[n], i);
    var tok: nat :| Inv(HoldersOf(configs, i), s, tok);
    InvGroups(HoldersOf(configs, i), s, tok);
    MigrationSafety.SomeoneHolds(HoldersOf(configs, i), s, tok);
    var g :| g in s.past && (Serves(HoldersOf(configs, i), g, Cur(s, g)) || Cur(s, g).status == MoveOut)
      && Cur(s, g).kv == Fold(s.writes);
    CoreServes(configs, run[n], g, i);
    HolderKeeps(configs, run[n], g, i);
  }

  /** The group serves the shard, has to hand it over, or was its last owner before nobody. */
  ghost predicate Keeps(configs: Configs, w: World, g: int, i: nat)
    requires WorldOk(w) && g in w.states && i < NShards
  {
    || ServesShard(w, g, i) || Now(w, g).shards[i].status == MoveOut
    || (Now(w, g).current.shards[i] == 0 && Now(w, g).current.num < |configs|
        && HoldersOf(configs, i)[Now(w, g).current.num] == g)
  }

  lemma HolderKeeps(configs: Configs, w: World, g: int, i: nat)
    requires WorldInv(configs, w) && g in w.states && i < NShards
    requires var c := CellOf(Now(w, g), i); Serves(HoldersOf(configs, i), g, c) || c.status == MoveOut
    ensures Keeps(configs, w, g, i)
  {
    hide ShardOk, KnownOwners, ReturnsOk, ChangeOk, SeqIds;
    assert GroupAt(configs, Now(w, g));
  }

  lemma ShardIsOk(configs: Configs, w: World, i: nat)
    requires WorldInv(configs, w) && i < NShards
    ensures ShardOk(configs, w, i)
  {
  }

  lemma InvGroups(own: Owners, s: State, tok: nat)
    requires Inv(own, s, tok)
    ensures GroupsOk(s) && OncePerClient(s.writes)
  {
  }

  /** A client's writes to a shard take effect with growing sequence numbers, so each at most once over the
      whole run, however often it is retried and wherever the shard moves. */
  lemma WritesAtMostOnce(configs: Configs, run: seq<World>, n: nat, i: nat)
    requires IsRun(configs, run) && n < |run| && i < NShards && WorldOk(run[n])
    ensures OncePerClient(run[n].accepted[i])
  {
    hide IsRun, WorldInv, OwnersOf, LastOwners, Inv, PastOf, MigsOf, GcsOf;
    RunInv(configs, run, n);
    ShardIsOk(configs, run[n], i);
    var tok: nat :| Inv(HoldersOf(configs, i), Proj(run[n], i), tok);
    InvGroups(HoldersOf(configs, i), Proj(run[n], i), tok);
  }

  /** A configuration change takes effect only when every shard of the group is at rest. */
  lemma ChangesWhenNormal(configs: Configs, run: seq<World>, n: nat, g: int, num: nat)
    requires IsRun(configs, run) && n < |run| && WorldOk(run[n]) && Can(configs, run[n], g, ApplyConfig(num))
    requires ApplyNewConfig(g, Now(run[n], g), configs[num]).1 == OK && configs[num].num == num
    ensures AllNormal(Now(run[n], g))
  {
    hide IsRun, WorldInv, AllNormal;
    RunInv(configs, run, n);
    ChangeIsSafe(configs, run[n], g, num);
  }

  /** Shards on the same move have the same status, in every group. */
  lemma BatchesMoveTogether(configs: Configs, run: seq<World>, n: nat, g: int, i: nat, j: nat)
    requires IsRun(configs, run) && n < |run| && WorldOk(run[n]) && g in run[n].states && i < NShards && j < NShards
    requires SameMove(configs, Now(run[n], g).current.num, i, j)
    ensures Now(run[n], g).shards[i].status == Now(run[n], g).shards[j].status
  {
    hide IsRun, SameMove;
    RunTogether(configs, run, n);
    assert Uniform(configs, Now(run[n], g));
  }

  // ---- One map ----

  /** The sharded store as one map from keys to values. */
  ghost function ValueAt(w: World, key: string): string
    requires WorldOk(w)
  {
    Get(Fold(w.accepted[Key2Shard(key)]), key)
  }

  /** A read that is answered returns the value in the map. */
  lemma ReadsTheMap(configs: Configs, run: seq<World>, n: nat, g: int, op: Op)
    requires IsRun(configs, run) && n < |run| && WorldOk(run[n]) && g in run[n].states && op.opType == OpGet
    requires MatchGroup(g, Now(run[n], g), op.key)
    ensures var reply := ApplyClientOperation(g, Now(run[n], g), op).1;
            && reply.value == ValueAt(run[n], op.key)
            && reply.err == (if exists x :: x in run[n].accepted[Key2Shard(op.key)] && x.key == op.key then OK
                             else ErrNoKey)
  {
    hide IsRun, Fold;
    ServesIsMatch(run[n], g, op.key);
    ServerHasAllWrites(configs, run, n, Key2Shard(op.key), g);
    FoldKeys(run[n].accepted[Key2Shard(op.key)], op.key);
  }

  /** An accepted write changes the map at its key, as a Put or an Append does; every other step, moves
      included, leaves the whole map as it is. */
  lemma StepsOfTheMap(configs: Configs, w: World, g: int, a: Action, key: string)
    requires WorldOk(w) && Can(configs, w, g, a) && WorldOk(ShardProtocol.After(configs, w, g, a))
    ensures ValueAt(ShardProtocol.After(configs, w, g, a), key) ==
            if a.ClientOp? && Accepts(g, Now(w, g), a.op) && a.op.key == key then
              (if a.op.opType == OpAppend then ValueAt(w, key) + a.op.value else a.op.value)
            else ValueAt(w, key)
  {
    hide Fold, MatchGroup, ApplyClientOperation, ApplyShardMigration, ApplyShardGC, ApplyNewConfig, ShardsByStatus,
      IsOrder;
    if a.ClientOp? && Accepts(g, Now(w, g), a.op) {
      var i := Key2Shard(a.op.key);
      FoldMore(w.accepted[i], WriteOf(a.op));
    }
  }
}
