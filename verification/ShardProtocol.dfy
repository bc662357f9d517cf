/** The replica groups together: each group applies the commands of its log one after the other, and its
    leaders read any state the group has had, since they may lag behind. Messages stay around for ever, so
    they may arrive late, more than once, or never. */
module ShardProtocol {
  import opened ShardGroup
  import opened MigrationCore
  import opened MigrationGaps

  datatype Cleanup = Cleanup(to: int, num: nat, ids: seq<nat>)

  datatype Migration = Migration(to: int, content: ShardData)

  datatype Change = Change(to: int, num: nat)

  /** All states each group has had, the last one the present; the commands proposed to the groups; and for
      each shard the writes that have taken effect. */
  datatype World = World(states: map<int, seq<Group>>, changes: set<Change>, migrations: set<Migration>,
      cleanups: set<Cleanup>, accepted: seq<seq<Write>>)

  type Configs = seq<Config>

  ghost predicate Numbered(configs: Configs) {
    forall m | 0 <= m < |configs| :: configs[m].num == m && |configs[m].shards| == NShards
  }

  /** Numbered configurations that start with nothing owned. */
  ghost predicate ConfigsKnown(configs: Configs, gids: set<int>) {
    && |configs| > 0 && Numbered(configs)
    && forall i: nat | i < NShards :: KnownOwners(OwnersOf(configs, i), gids)
  }

  /** A shard that is left to nobody goes back to the group that had it. */
  ghost predicate ConfigsOk(configs: Configs, gids: set<int>) {
    ConfigsKnown(configs, gids) && forall i: nat | i < NShards :: ReturnsOk(OwnersOf(configs, i))
  }

  /** The owners of one shard. */
  ghost function OwnersOf(configs: Configs, i: nat): Owners {
    seq(|configs|, m requires 0 <= m < |configs| => if i < |configs[m].shards| then configs[m].shards[i] else 0)
  }

  /** The last group to own one shard, configuration by configuration. */
  ghost function HoldersOf(configs: Configs, i: nat): Owners {
    LastOwners(OwnersOf(configs, i))
  }

  function Fresh(configs: Configs): Group
    requires |configs| > 0
  {
    Group(configs[0], configs[0], seq(NShards, _ => Shard(map[], Normal)), map[])
  }

  ghost predicate Init(configs: Configs, w: World)
    requires |configs| > 0
  {
    && (forall g | g in w.states :: w.states[g] == [Fresh(configs)])
    && w.changes == {} && w.migrations == {} && w.cleanups == {}
    && w.accepted == seq(NShards, _ => [])
  }

  ghost predicate WorldOk(w: World) {
    && |w.accepted| == NShards
    && forall g | g in w.states :: |w.states[g]| > 0 && forall k | 0 <= k < |w.states[g]| :: GroupOk(w.states[g][k])
  }

  ghost function Now(w: World, g: int): (gr: Group)
    requires WorldOk(w) && g in w.states
    ensures GroupOk(gr)
  {
    w.states[g][|w.states[g]| - 1]
  }

  ghost function Moved(w: World, g: int, gr: Group): World
    requires g in w.states
  {
    w.(states := w.states[g := w.states[g] + [gr]])
  }

  datatype Action =
    | ClientOp(op: Op)                                  // a client's command is applied
    | FetchConfig(k: nat)                               // a leader asks for the next configuration
    | ApplyConfig(num: nat)
    | PullShards(k: nat, from: int, j: nat)             // a leader fetches the shards it waits for
    | ApplyMigration(content: ShardData, order: seq<nat>)
    | AskCleanup(k: nat, from: int, j: nat)             // a leader asks the old owner to clean up
    | ConfirmCleanup(k: nat, from: int)                 // and has its own group do so
    | ApplyCleanup(num: nat, ids: seq<nat>)

  /** What `from`, in its state `j`, answers to the question of `g`, in its state `k`, for the shards it awaits. */
  ghost function Answer(w: World, g: int, k: nat, from: int, j: nat): (Err, ShardData)
    requires WorldOk(w) && g in w.states && k < |w.states[g]| && from in w.states && j < |w.states[from]|
  {
    var r := w.states[g][k];
    GetShardsData(w.states[from][j], r.current.num, ShardsByStatus(r, MoveIn, from, NShards))
  }

  ghost predicate Can(configs: Configs, w: World, g: int, a: Action)
    requires WorldOk(w)
  {
    && g in w.states
    && match a
       case ClientOp(op) => true
       case FetchConfig(k) => k < |w.states[g]| && AllNormal(w.states[g][k])
         && w.states[g][k].current.num + 1 < |configs|
       case ApplyConfig(num) => Change(g, num) in w.changes && num < |configs| && |configs[num].shards| == NShards
       case PullShards(k, from, j) =>
         && k < |w.states[g]| && from != 0 && from in w.states && j < |w.states[from]|
         && ShardsByStatus(w.states[g][k], MoveIn, from, NShards) != []
         && Answer(w, g, k, from, j).0 == OK
       case ApplyMigration(content, order) => Migration(g, content) in w.migrations && IsOrder(order, content.data)
       case AskCleanup(k, from, j) =>
         && k < |w.states[g]| && from != 0 && from in w.states && j < |w.states[from]|
         && ShardsByStatus(w.states[g][k], GC, from, NShards) != []
         && w.states[from][j].current.num <= w.states[g][k].current.num
       case ConfirmCleanup(k, from) =>
         k < |w.states[g]| && from != 0 && ShardsByStatus(w.states[g][k], GC, from, NShards) != []
       case ApplyCleanup(num, ids) => Cleanup(g, num, ids) in w.cleanups && Within(ids, NShards)
  }

  ghost function After(configs: Configs, w: World, g: int, a: Action): World
    requires WorldOk(w) && Can(configs, w, g, a)
  {
    var gr := Now(w, g);
    match a
    case ClientOp(op) =>
      var w' := Moved(w, g, ApplyClientOperation(g, gr, op).0);
      if Accepts(g, gr, op) then
        var i := Key2Shard(op.key);
        w'.(accepted := w.accepted[i := w.accepted[i] + [WriteOf(op)]])
      else w'
    case FetchConfig(k) => w.(changes := w.changes + {Change(g, w.states[g][k].current.num + 1)})
    case ApplyConfig(num) => Moved(w, g, ApplyNewConfig(g, gr, configs[num]).0)
    case PullShards(k, from, j) =>
      w.(migrations := w.migrations + {Migration(g, Answer(w, g, k, from, j).1)})
    case ApplyMigration(content, order) => Moved(w, g, ApplyShardMigration(gr, content, order))
    case AskCleanup(k, from, j) =>
      var r := w.states[g][k];
      w.(cleanups := w.cleanups + {Cleanup(from, r.current.num, ShardsByStatus(r, GC, from, NShards))})
    case ConfirmCleanup(k, from) =>
      var r := w.states[g][k];
      w.(cleanups := w.cleanups + {Cleanup(g, r.current.num, ShardsByStatus(r, GC, from, NShards))})
    case ApplyCleanup(num, ids) => Moved(w, g, ApplyShardGC(gr, num, ids))
  }

  ghost predicate Next(configs: Configs, w: World, w': World) {
    exists g, a :: WorldOk(w) && Can(configs, w, g, a) && w' == After(configs, w, g, a)
  }

  /** A run of the sharded store. */
  ghost predicate IsRun(configs: Configs, run: seq<World>) {
    && |run| > 0 && ConfigsOk(configs, run[0].states.Keys) && Init(configs, run[0])
    && forall n | 0 <= n < |run| - 1 :: Next(configs, run[n], run[n + 1])
  }

  /** A run under any configurations. */
  ghost predicate IsAnyRun(configs: Configs, run: seq<World>) {
    && |run| > 0 && ConfigsKnown(configs, run[0].states.Keys) && Init(configs, run[0])
    && forall n | 0 <= n < |run| - 1 :: Next(configs, run[n], run[n + 1])
  }
}
