/** Which configurations are safe for the whole store: those that give every shard left to nobody back to its
    last owner, and no others. */
module ShardExact {
  import opened Collections
  import opened MigrationCore
  import opened MigrationGaps
  import opened ShardGroup
  import opened ShardProtocol
  import opened ShardBatches
  import opened ShardTheorems
  import opened ShardGaps
  import MigrationExact

  /** Whenever a group serves a shard it has exactly the accepted writes. */
  ghost predicate ServersAreCurrent(configs: Configs, gids: set<int>) {
    forall w: World, g: int, i: nat | Reachable(configs, gids, w) && WorldOk(w) && g in w.states && i < NShards
      && ServesShard(w, g, i) :: Now(w, g).shards[i].kv == Fold(w.accepted[i])
  }

  // ---- Groups at rest, or in the middle of their moves ----

  type Pairs = set<(int, int)>          // moves by new and old owner

  function Before(m: nat): nat {
    if m == 0 then 0 else m - 1
  }

  /** The status of shard `x` at group `q` in configuration `m` while the moves `todo` are under way. */
  ghost function StatusAt(configs: Configs, m: nat, todo: Pairs, q: int, x: nat): Status
    requires Numbered(configs) && m < |configs| && x < NShards
  {
    var o, h := configs[Before(m)].shards[x], configs[m].shards[x];
    if o == 0 || h == 0 || o == h || (h, o) !in todo then Normal
    else if q == h then MoveIn
    else if q == o then MoveOut
    else Normal
  }

  /** The only data: those of one shard at one group. */
  datatype Mark = Mark(g: int, i: nat, kv: Data)

  function KvAt(mark: Mark, q: int, x: nat): Data {
    if q == mark.g && x == mark.i then mark.kv else map[]
  }

  ghost predicate GroupIs(configs: Configs, m: nat, todo: Pairs, mark: Mark, q: int, gr: Group)
    requires Numbered(configs) && m < |configs|
  {
    && GroupOk(gr) && gr.current == configs[m] && gr.prev == configs[Before(m)]
    && (mark.kv == map[] ==> gr.dup == map[])
    && forall x: nat | x < NShards :: gr.shards[x] == Shard(KvAt(mark, q, x), StatusAt(configs, m, todo, q, x))
  }

  ghost predicate Standing(configs: Configs, gids: set<int>, w: World, m: nat, todo: Pairs, mark: Mark)
    requires Numbered(configs) && m < |configs|
  {
    && Reachable(configs, gids, w) && WorldOk(w) && w.states.Keys == gids
    && forall q | q in gids :: GroupIs(configs, m, todo, mark, q, Now(w, q))
  }

  // ---- The next configuration ----

  ghost function AllPairs(gids: set<int>): Pairs {
    set h, o | h in gids && o in gids :: (h, o)
  }

  lemma GroupAdvances(configs: Configs, gids: set<int>, m: nat, mark: Mark, q: int, gr: Group)
    requires ConfigsKnown(configs, gids) && Numbered(configs) && m + 1 < |configs| && q in gids
    requires GroupIs(configs, m, {}, mark, q, gr)
    ensures GroupIs(configs, m + 1, AllPairs(gids), mark, q, ApplyNewConfig(q, gr, configs[m + 1]).0)
  {
    hide ConfigsKnown;
    var gr', all := ApplyNewConfig(q, gr, configs[m + 1]).0, AllPairs(gids);
    forall x: nat | x < NShards
      ensures gr'.shards[x] == Shard(KvAt(mark, q, x), StatusAt(configs, m + 1, all, q, x))
    {
      OwnersKnown(configs, gids, m, x);
      OwnersKnown(configs, gids, m + 1, x);
      var o, h := configs[m].shards[x], configs[m + 1].shards[x];
      if o != 0 && h != 0 {
        assert (h, o) in all;
      }
    }
  }

  ghost predicate Owned(configs: Configs, gids: set<int>, m: nat, x: nat)
    requires Numbered(configs) && m < |configs| && x < NShards
  {
    configs[m].shards[x] == 0 || configs[m].shards[x] in gids
  }

  lemma OwnersKnown(configs: Configs, gids: set<int>, m: nat, x: nat)
    requires ConfigsKnown(configs, gids) && Numbered(configs) && m < |configs| && x < NShards
    ensures Owned(configs, gids, m, x) && 0 !in gids
  {
    assert OwnersOf(configs, x)[m] == configs[m].shards[x];
  }

  /** The groups of `left` have yet to take configuration `m + 1`. */
  lemma {:induction false} AllAdvance(configs: Configs, gids: set<int>, w: World, m: nat, mark: Mark, left: set<int>)
    returns (w': World)
    requires ConfigsKnown(configs, gids) && Numbered(configs) && m + 1 < |configs| && left <= gids
    requires Reachable(configs, gids, w) && WorldOk(w) && w.states.Keys == gids
    requires forall q | q in gids :: if q in left then GroupIs(configs, m, {}, mark, q, Now(w, q))
                                     else GroupIs(configs, m + 1, AllPairs(gids), mark, q, Now(w, q))
    ensures Standing(configs, gids, w', m + 1, AllPairs(gids), mark) && w'.accepted == w.accepted
    decreases left
  {
    hide Reachable, GroupIs, ApplyNewConfig, WorldOk, ConfigsKnown;
    if left == {} {
      w' := w;
    } else {
      NotEmpty(left);
      var q :| q in left;
      RestIsNormal(configs, m, mark, q, Now(w, q));
      var next := TakesConfig(configs, gids, w, q);
      GroupAdvances(configs, gids, m, mark, q, Now(w, q));
      w' := AllAdvance(configs, gids, next, m, mark, left - {q});
    }
  }

  lemma RestIsNormal(configs: Configs, m: nat, mark: Mark, q: int, gr: Group)
    requires Numbered(configs) && m < |configs| && GroupIs(configs, m, {}, mark, q, gr)
    ensures AllNormal(gr) && gr.current.num == m
  {
  }

  // ---- One move ----

  /** The shards that go from `o` to `h` at `m`. */
  ghost predicate Goes(configs: Configs, m: nat, h: int, o: int, x: nat)
    requires Numbered(configs) && m < |configs|
  {
    x < NShards && configs[m].shards[x] == h && configs[Before(m)].shards[x] == o
  }

  ghost predicate IdsAre(configs: Configs, m: nat, h: int, o: int, ids: seq<nat>)
    requires Numbered(configs) && m < |configs|
  {
    Within(ids, NShards) && Distinct(ids) && forall x: nat :: x in ids <==> Goes(configs, m, h, o, x)
  }

  /** A group with the shards of one move in another status. */
  ghost predicate GroupWith(configs: Configs, m: nat, todo: Pairs, mark: Mark, q: int, h: int, o: int, st: Status,
      gr: Group)
    requires Numbered(configs) && m < |configs|
  {
    && GroupOk(gr) && gr.current == configs[m] && gr.prev == configs[Before(m)]
    && (mark.kv == map[] ==> gr.dup == map[])
    && forall x: nat | x < NShards ::
         gr.shards[x] == Shard(KvAt(mark, q, x),
                               if Goes(configs, m, h, o, x) then st else StatusAt(configs, m, todo, q, x))
  }

  lemma AwaitedIds(configs: Configs, m: nat, todo: Pairs, mark: Mark, h: int, o: int, gr: Group)
    requires Numbered(configs) && m < |configs| && GroupIs(configs, m, todo, mark, h, gr)
    requires (h, o) in todo && h != 0 && o != 0 && h != o
    ensures IdsAre(configs, m, h, o, ShardsByStatus(gr, MoveIn, o, NShards))
  {
  }

  lemma CleanIds(configs: Configs, m: nat, todo: Pairs, mark: Mark, h: int, o: int, gr: Group)
    requires Numbered(configs) && m < |configs| && GroupWith(configs, m, todo, mark, h, h, o, GC, gr)
    ensures IdsAre(configs, m, h, o, ShardsByStatus(gr, GC, o, NShards))
  {
  }

  /** The new owner takes the data, which are empty. */
  lemma Takes(configs: Configs, m: nat, todo: Pairs, mark: Mark, h: int, o: int, gr: Group, d: ShardData, ids: seq<nat>)
    requires Numbered(configs) && m < |configs| && GroupIs(configs, m, todo, mark, h, gr)
             && IdsAre(configs, m, h, o, ids)
    requires (h, o) in todo && h != 0 && o != 0 && h != o
    requires d.num == m && d.data.Keys == IdSet(ids) && forall x | x in d.data :: d.data[x] == map[]
    requires mark.kv == map[] ==> d.dup == map[]
    ensures IsOrder(ids, d.data)
    ensures GroupWith(configs, m, todo, mark, h, h, o, GC, ApplyShardMigration(gr, d, ids))
  {
    hide TakeShards;
    forall x: nat | x < NShards
      ensures TakeShards(gr.shards, d.data, ids)[x] == if x in ids then Shard(gr.shards[x].kv, GC) else gr.shards[x]
    {
      TakeShardsAt(gr.shards, d.data, ids, x);
      TakeAll(gr.shards, d.data, ids, x);
      if x in ids {
        assert gr.shards[x].kv + map[] == gr.shards[x].kv;
      }
    }
  }

  lemma Cleaned(shards: seq<Shard>, ids: seq<nat>, x: nat)
    requires Within(ids, |shards|) && Distinct(ids) && x < |shards|
    requires forall k | 0 <= k < |ids| :: shards[ids[k]].status == GC || shards[ids[k]].status == MoveOut
    ensures CleanShards(shards, ids)[x] == if x in ids then CleanShard(shards[x]) else shards[x]
  {
    hide CleanShards;
    CleanShardsAt(shards, ids, x);
    CleanAll(shards, ids, x);
  }

  /** The new owner cleans up. */
  lemma NewOwnerCleans(configs: Configs, m: nat, todo: Pairs, mark: Mark, h: int, o: int, gr: Group, ids: seq<nat>)
    requires Numbered(configs) && m < |configs| && GroupWith(configs, m, todo, mark, h, h, o, GC, gr)
    requires IdsAre(configs, m, h, o, ids)
    ensures GroupIs(configs, m, todo - {(h, o)}, mark, h, ApplyShardGC(gr, m, ids))
  {
    hide CleanShards;
    forall x: nat | x < NShards
      ensures CleanShards(gr.shards, ids)[x] == Shard(KvAt(mark, h, x), StatusAt(configs, m, todo - {(h, o)}, h, x))
    {
      Cleaned(gr.shards, ids, x);
    }
  }

  /** The old owner cleans up shards that hold nothing. */
  lemma OldOwnerCleans(configs: Configs, m: nat, todo: Pairs, mark: Mark, h: int, o: int, gr: Group, ids: seq<nat>)
    requires Numbered(configs) && m < |configs| && GroupIs(configs, m, todo, mark, o, gr)
    requires IdsAre(configs, m, h, o, ids) && (h, o) in todo && h != 0 && o != 0 && h != o
    requires Goes(configs, m, h, o, mark.i) && mark.g == o ==> mark.kv == map[]
    ensures GroupIs(configs, m, todo - {(h, o)}, mark, o, ApplyShardGC(gr, m, ids))
  {
    hide CleanShards;
    forall k | 0 <= k < |ids| ensures gr.shards[ids[k]].status == MoveOut {
      assert ids[k] in ids && Goes(configs, m, h, o, ids[k]);
    }
    forall x: nat | x < NShards
      ensures CleanShards(gr.shards, ids)[x] == Shard(KvAt(mark, o, x), StatusAt(configs, m, todo - {(h, o)}, o, x))
    {
      Cleaned(gr.shards, ids, x);
    }
  }

  /** No other group is concerned. */
  lemma OthersStay(configs: Configs, m: nat, todo: Pairs, mark: Mark, q: int, h: int, o: int, gr: Group)
    requires Numbered(configs) && m < |configs| && GroupIs(configs, m, todo, mark, q, gr) && q != h && q != o
    ensures GroupIs(configs, m, todo - {(h, o)}, mark, q, gr)
  {
  }

  /** Without shards to move there is nothing to do. */
  lemma NothingToMove(configs: Configs, m: nat, todo: Pairs, mark: Mark, q: int, h: int, o: int, gr: Group)
    requires Numbered(configs) && m < |configs| && GroupIs(configs, m, todo, mark, q, gr)
    requires h == o || h == 0 || o == 0 || forall x: nat | x < NShards :: !Goes(configs, m, h, o, x)
    ensures GroupIs(configs, m, todo - {(h, o)}, mark, q, gr)
  {
    forall x: nat | x < NShards
      ensures StatusAt(configs, m, todo - {(h, o)}, q, x) == StatusAt(configs, m, todo, q, x)
    {
      assert h == o || h == 0 || o == 0 || !Goes(configs, m, h, o, x);
    }
  }

  lemma MovedGroup(w: World, g: int, gr: Group)
    requires WorldOk(w) && g in w.states && GroupOk(gr)
    ensures WorldOk(Moved(w, g, gr)) && Now(Moved(w, g, gr), g) == gr && Moved(w, g, gr).states.Keys == w.states.Keys
    ensures forall q | q in w.states && q != g :: Now(Moved(w, g, gr), q) == Now(w, q)
  {
  }

  /** What the old owner answers: no data, as long as the marked ones are not among them. */
  lemma Answers(configs: Configs, m: nat, todo: Pairs, mark: Mark, h: int, o: int, gr: Group, ids: seq<nat>)
    requires Numbered(configs) && m < |configs| && GroupIs(configs, m, todo, mark, o, gr)
             && IdsAre(configs, m, h, o, ids)
    requires Goes(configs, m, h, o, mark.i) && mark.g == o ==> mark.kv == map[]
    ensures var (err, d) := GetShardsData(gr, m, ids);
            && err == OK && d.num == m && d.data.Keys == IdSet(ids) && (forall x | x in d.data :: d.data[x] == map[])
            && (mark.kv == map[] ==> d.dup == map[])
  {
  }

  /** The new owner fetches and takes the shards of a move. */
  lemma Fetches(configs: Configs, gids: set<int>, w: World, m: nat, todo: Pairs, mark: Mark, h: int, o: int)
    returns (w': World)
    requires Numbered(configs) && m < |configs| && Standing(configs, gids, w, m, todo, mark) && h in gids && o in gids
    requires (h, o) in todo && h != 0 && o != 0 && h != o && exists x: nat :: x < NShards && Goes(configs, m, h, o, x)
    requires Goes(configs, m, h, o, mark.i) && mark.g == o ==> mark.kv == map[]
    ensures Reachable(configs, gids, w') && WorldOk(w') && w'.states.Keys == gids && w'.accepted == w.accepted
    ensures GroupWith(configs, m, todo, mark, h, h, o, GC, Now(w', h))
    ensures forall q | q in gids && q != h :: Now(w', q) == Now(w, q)
  {
    hide Reachable, GroupWith, GroupIs, ApplyShardMigration, IsOrder, GetShardsData;
    var gh, go := Now(w, h), Now(w, o);
    assert GroupIs(configs, m, todo, mark, h, gh) && GroupIs(configs, m, todo, mark, o, go);
    IsOk(configs, m, todo, mark, h, gh);
    IsOk(configs, m, todo, mark, o, go);
    var ids := ShardsByStatus(gh, MoveIn, o, NShards);
    AwaitedIds(configs, m, todo, mark, h, o, gh);
    var some: nat :| some < NShards && Goes(configs, m, h, o, some);
    assert some in ids;
    var d := GetShardsData(go, m, ids).1;
    Answers(configs, m, todo, mark, h, o, go, ids);
    var pull := PullShards(|w.states[h]| - 1, o, |w.states[o]| - 1);
    Extend(configs, gids, w, h, pull);
    var pulled := ShardProtocol.After(configs, w, h, pull);
    assert WorldOk(pulled) && Migration(h, d) in pulled.migrations;
    Takes(configs, m, todo, mark, h, o, gh, d, ids);
    Extend(configs, gids, pulled, h, ApplyMigration(d, ids));
    w' := ShardProtocol.After(configs, pulled, h, ApplyMigration(d, ids));
    WithOk(configs, m, todo, mark, h, o, ApplyShardMigration(gh, d, ids));
    MovedGroup(pulled, h, ApplyShardMigration(gh, d, ids));
  }

  lemma WithOk(configs: Configs, m: nat, todo: Pairs, mark: Mark, h: int, o: int, gr: Group)
    requires Numbered(configs) && m < |configs| && GroupWith(configs, m, todo, mark, h, h, o, GC, gr)
    ensures GroupOk(gr) && gr.current == configs[m]
  {
  }

  /** It has both sides clean up. */
  lemma CleansUp(configs: Configs, gids: set<int>, w: World, m: nat, todo: Pairs, mark: Mark, h: int, o: int)
    returns (w': World)
    requires Numbered(configs) && m < |configs| && Reachable(configs, gids, w) && WorldOk(w) && w.states.Keys == gids
    requires h in gids && o in gids && (h, o) in todo && h != 0 && o != 0 && h != o
    requires exists x: nat :: x < NShards && Goes(configs, m, h, o, x)
    requires Goes(configs, m, h, o, mark.i) && mark.g == o ==> mark.kv == map[]
    requires GroupWith(configs, m, todo, mark, h, h, o, GC, Now(w, h)) && GroupIs(configs, m, todo, mark, o, Now(w, o))
    ensures Reachable(configs, gids, w') && WorldOk(w') && w'.states.Keys == gids && w'.accepted == w.accepted
    ensures GroupIs(configs, m, todo - {(h, o)}, mark, h, Now(w', h))
    ensures GroupIs(configs, m, todo - {(h, o)}, mark, o, Now(w', o))
    ensures forall q | q in gids && q != h && q != o :: Now(w', q) == Now(w, q)
  {
    hide Reachable, GroupWith, GroupIs, ApplyShardGC;
    var gh, go := Now(w, h), Now(w, o);
    WithOk(configs, m, todo, mark, h, o, gh);
    IsOk(configs, m, todo, mark, o, go);
    var ids := ShardsByStatus(gh, GC, o, NShards);
    CleanIds(configs, m, todo, mark, h, o, gh);
    var some: nat :| some < NShards && Goes(configs, m, h, o, some);
    assert some in ids;
    var k := |w.states[h]| - 1;
    var ask := AskCleanup(k, o, |w.states[o]| - 1);
    Extend(configs, gids, w, h, ask);
    var asked := ShardProtocol.After(configs, w, h, ask);
    assert WorldOk(asked) && Cleanup(o, m, ids) in asked.cleanups;
    Extend(configs, gids, asked, h, ConfirmCleanup(k, o));
    var told := ShardProtocol.After(configs, asked, h, ConfirmCleanup(k, o));
    assert WorldOk(told) && Cleanup(o, m, ids) in told.cleanups && Cleanup(h, m, ids) in told.cleanups;
    var go', gh' := ApplyShardGC(go, m, ids), ApplyShardGC(gh, m, ids);
    OldOwnerCleans(configs, m, todo, mark, h, o, go, ids);
    IsOk(configs, m, todo - {(h, o)}, mark, o, go');
    Extend(configs, gids, told, o, ApplyCleanup(m, ids));
    var half := ShardProtocol.After(configs, told, o, ApplyCleanup(m, ids));
    MovedGroup(told, o, go');
    NewOwnerCleans(configs, m, todo, mark, h, o, gh, ids);
    IsOk(configs, m, todo - {(h, o)}, mark, h, gh');
    Extend(configs, gids, half, h, ApplyCleanup(m, ids));
    w' := ShardProtocol.After(configs, half, h, ApplyCleanup(m, ids));
    MovedGroup(half, h, gh');
  }

  lemma IsOk(configs: Configs, m: nat, todo: Pairs, mark: Mark, q: int, gr: Group)
    requires Numbered(configs) && m < |configs| && GroupIs(configs, m, todo, mark, q, gr)
    ensures GroupOk(gr) && gr.current == configs[m]
  {
  }

  /** The marked data are not on their way at `m`. */
  ghost predicate Stays(configs: Configs, m: nat, mark: Mark)
    requires Numbered(configs) && m < |configs|
  {
    mark.kv == map[] || (mark.i < NShards && (configs[Before(m)].shards[mark.i] == 0 || configs[m].shards[mark.i] == 0))
  }

  /** One move after the other is carried out. */
  lemma {:induction false} AllSettle(configs: Configs, gids: set<int>, w: World, m: nat, todo: Pairs, mark: Mark)
    returns (w': World)
    requires Numbered(configs) && m < |configs| && Standing(configs, gids, w, m, todo, mark) && todo <= AllPairs(gids)
    requires Stays(configs, m, mark)
    ensures Standing(configs, gids, w', m, {}, mark) && w'.accepted == w.accepted
    decreases todo
  {
    hide Reachable, GroupIs, GroupWith;
    if todo == {} {
      w' := w;
    } else {
      var pair :| pair in todo;
      var (h, o) := pair;
      var next := w;
      if h != 0 && o != 0 && h != o && exists x: nat :: x < NShards && Goes(configs, m, h, o, x) {
        next := Fetches(configs, gids, w, m, todo, mark, h, o);
        next := CleansUp(configs, gids, next, m, todo, mark, h, o);
        forall q | q in gids && q != h && q != o ensures GroupIs(configs, m, todo - {(h, o)}, mark, q, Now(next, q)) {
          OthersStay(configs, m, todo, mark, q, h, o, Now(w, q));
        }
      } else {
        forall q | q in gids ensures GroupIs(configs, m, todo - {(h, o)}, mark, q, Now(next, q)) {
          NothingToMove(configs, m, todo, mark, q, h, o, Now(w, q));
        }
      }
      w' := AllSettle(configs, gids, next, m, todo - {(h, o)}, mark);
    }
  }

  /** All groups go on to configuration `m` together. */
  lemma {:induction false} Drive(configs: Configs, gids: set<int>, w: World, j: nat, m: nat, mark: Mark)
    returns (w': World)
    requires ConfigsKnown(configs, gids) && Numbered(configs) && j <= m < |configs|
             && Standing(configs, gids, w, j, {}, mark)
    requires forall n: nat | j < n <= m :: Stays(configs, n, mark)
    ensures Standing(configs, gids, w', m, {}, mark) && w'.accepted == w.accepted
  {
    hide Reachable, GroupIs, ConfigsKnown;
    if j == m {
      w' := w;
    } else {
      w' := Drive(configs, gids, w, j, m - 1, mark);
      w' := AllAdvance(configs, gids, w', m - 1, mark, gids);
      w' := AllSettle(configs, gids, w', m, AllPairs(gids), mark);
    }
  }

  // ---- Giving away is not safe ----

  lemma Unwritten(configs: Configs, gids: set<int>, mark: Mark) returns (w: World)
    requires ConfigsKnown(configs, gids) && Numbered(configs) && mark.kv == map[]
    ensures Standing(configs, gids, w, 0, {}, mark) && w.accepted == seq(NShards, _ => [])
  {
    hide Reachable, KnownOwners;
    w := Begins(configs, gids);
    forall q | q in gids ensures GroupIs(configs, 0, {}, mark, q, Now(w, q)) {
      assert Now(w, q) == BlankGroup(configs, 0);
    }
  }

  /** For the other groups it makes no difference what data one group has. */
  lemma ElsewhereSame(configs: Configs, j: nat, g: int, i: nat, kv: Data, q: int, gr: Group)
    requires Numbered(configs) && j < |configs| && GroupIs(configs, j, {}, Mark(g, i, map[]), q, gr) && q != g
    ensures GroupIs(configs, j, {}, Mark(g, i, kv), q, gr)
  {
  }

  /** The owner of an untouched shard accepts a write. */
  lemma Written(configs: Configs, gids: set<int>, w: World, j: nat, g: int, op: Op) returns (w': World)
    requires Numbered(configs) && j < |configs| && g in gids && op.opType != OpGet
    requires Standing(configs, gids, w, j, {}, Mark(g, Key2Shard(op.key), map[]))
    requires configs[j].shards[Key2Shard(op.key)] == g && w.accepted == seq(NShards, _ => [])
    ensures Standing(configs, gids, w', j, {}, Mark(g, Key2Shard(op.key), Put(map[], WriteOf(op))))
    ensures w'.accepted[Key2Shard(op.key)] == [WriteOf(op)]
  {
    hide Reachable, GroupIs, ApplyClientOperation, Accepts, Put, Key2Shard, Numbered;
    var i, gr := Key2Shard(op.key), Now(w, g);
    var gr' := ApplyClientOperation(g, gr, op).0;
    WrittenGroup(configs, j, g, gr, op);
    Extend(configs, gids, w, g, ClientOp(op));
    w' := ShardProtocol.After(configs, w, g, ClientOp(op));
    MovedGroup(w, g, gr');
    assert w.accepted[i] + [WriteOf(op)] == [WriteOf(op)];
    forall q | q in gids && q != g ensures GroupIs(configs, j, {}, Mark(g, i, Put(map[], WriteOf(op))), q, Now(w', q)) {
      ElsewhereSame(configs, j, g, i, Put(map[], WriteOf(op)), q, Now(w, q));
    }
  }

  lemma WrittenGroup(configs: Configs, j: nat, g: int, gr: Group, op: Op)
    requires Numbered(configs) && j < |configs| && op.opType != OpGet && configs[j].shards[Key2Shard(op.key)] == g
    requires GroupIs(configs, j, {}, Mark(g, Key2Shard(op.key), map[]), g, gr)
    ensures Accepts(g, gr, op) && GroupOk(ApplyClientOperation(g, gr, op).0)
    ensures GroupIs(configs, j, {}, Mark(g, Key2Shard(op.key), Put(map[], WriteOf(op))), g,
                    ApplyClientOperation(g, gr, op).0)
  {
    OneWrite(WriteOf(op));
  }

  /** For all configurations that give a shard away after a gap, and every write to that shard: a run of the
      whole store after which the new owner serves the shard without a write that was accepted. */
  lemma GivingAwayLoses(configs: Configs, gids: set<int>, k: nat, op: Op) returns (w: World)
    requires ConfigsKnown(configs, gids) && op.opType != OpGet && GivenAway(OwnersOf(configs, Key2Shard(op.key)), k)
    ensures Reachable(configs, gids, w) && WorldOk(w) && w.accepted[Key2Shard(op.key)] == [WriteOf(op)]
    ensures var i, h := Key2Shard(op.key), OwnersOf(configs, Key2Shard(op.key))[k];
            h in w.states && ServesShard(w, h, i) && Now(w, h).shards[i].kv != Fold(w.accepted[i])
  {
    hide Reachable, GroupIs, ConfigsKnown, Put, LastOwner;
    var i := Key2Shard(op.key);
    var own := OwnersOf(configs, i);
    KnownFacts(configs, gids, i);
    var g, h := LastOwner(own, k - 1), own[k];
    var j := MigrationExact.LastTenure(own, k - 1);
    w := Unwritten(configs, gids, Mark(g, i, map[]));
    w := Drive(configs, gids, w, 0, j, Mark(g, i, map[]));
    w := Written(configs, gids, w, j, g, op);
    var mark := Mark(g, i, Put(map[], WriteOf(op)));
    forall n: nat | j < n <= k ensures Stays(configs, n, mark) {
      assert own[n] == configs[n].shards[i] && own[n - 1] == configs[n - 1].shards[i];
    }
    w := Drive(configs, gids, w, j, k, mark);
    OneWrite(WriteOf(op));
    Serving(configs, k, mark, h, Now(w, h));
  }

  lemma KnownFacts(configs: Configs, gids: set<int>, i: nat)
    requires ConfigsKnown(configs, gids) && i < NShards
    ensures Numbered(configs) && KnownOwners(OwnersOf(configs, i), gids)
    ensures |OwnersOf(configs, i)| == |configs|
    ensures forall m | 0 <= m < |configs| :: OwnersOf(configs, i)[m] == configs[m].shards[i]
  {
    hide KnownOwners;
  }

  lemma Serving(configs: Configs, k: nat, mark: Mark, h: int, gr: Group)
    requires Numbered(configs) && k < |configs| && GroupIs(configs, k, {}, mark, h, gr) && mark.i < NShards
             && h != mark.g
    ensures gr.current == configs[k] && gr.shards[mark.i] == Shard(map[], Normal)
  {
  }

  /** Some key of a shard. */
  function KeyOf(i: nat): (key: string)
    requires i < NShards
    ensures Key2Shard(key) == i
  {
    [(i + 50) as char]
  }

  lemma RunsUnder(configs: Configs, gids: set<int>, w: World, g: int, i: nat)
    requires ConfigsOk(configs, gids) && Reachable(configs, gids, w)
    requires WorldOk(w) && g in w.states && i < NShards && ServesShard(w, g, i)
    ensures Now(w, g).shards[i].kv == Fold(w.accepted[i])
  {
    hide ConfigsOk, ConfigsKnown, Init, WorldOk, ServesShard, Fold;
    var run: seq<World> :| IsAnyRun(configs, run) && run[0].states.Keys == gids && run[|run| - 1] == w;
    assert IsRun(configs, run);
    ServerHasAllWrites(configs, run, |run| - 1, i, g);
  }

  /** The store is safe under its configurations if and only if every shard that is left to nobody goes back to
      the group that had it. */
  lemma SafeConfigs(configs: Configs, gids: set<int>)
    requires ConfigsKnown(configs, gids)
    ensures ServersAreCurrent(configs, gids) <==> ConfigsOk(configs, gids)
  {
    hide Reachable, ConfigsKnown, ServesShard, Fold, GivenAway;
    if ConfigsOk(configs, gids) {
      forall w: World, g: int, i: nat | Reachable(configs, gids, w) && WorldOk(w) && g in w.states && i < NShards
        && ServesShard(w, g, i) ensures Now(w, g).shards[i].kv == Fold(w.accepted[i])
      {
        RunsUnder(configs, gids, w, g, i);
      }
    } else {
      var i: nat :| i < NShards && !ReturnsOk(OwnersOf(configs, i));
      var k: nat :| GivenAway(OwnersOf(configs, i), k);
      var w := GivingAwayLoses(configs, gids, k, Op(KeyOf(i), "", OpPut, 0, 1));
    }
  }
}
