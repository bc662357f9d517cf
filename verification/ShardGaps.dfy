/** A shard that is given away after a gap, in the sharded store: every group that ever owned all shards, and
    lost them to nobody before another got them, may go on serving next to its successor. */
module ShardGaps {
  import opened MigrationCore
  import opened MigrationGaps
  import opened ShardGroup
  import opened ShardProtocol
  import opened ShardTheorems
  import Controller = ShardController
  import Levelling

  /** Some run of the groups `gids` ends in `w`. */
  ghost predicate Reachable(configs: Configs, gids: set<int>, w: World) {
    exists run: seq<World> :: IsAnyRun(configs, run) && run[0].states.Keys == gids && run[|run| - 1] == w
  }

  lemma Extend(configs: Configs, gids: set<int>, w: World, g: int, a: Action)
    requires Reachable(configs, gids, w) && WorldOk(w) && Can(configs, w, g, a)
    ensures Reachable(configs, gids, ShardProtocol.After(configs, w, g, a))
  {
    hide ConfigsKnown, Init, Can, ShardProtocol.After, WorldOk;
    var w' := ShardProtocol.After(configs, w, g, a);
    var run: seq<World> :| IsAnyRun(configs, run) && run[0].states.Keys == gids && run[|run| - 1] == w;
    var run' := run + [w'];
    forall n | 0 <= n < |run'| - 1 ensures Next(configs, run'[n], run'[n + 1]) {
      if n < |run| - 1 {
        assert Next(configs, run[n], run[n + 1]);
      } else {
        assert WorldOk(w) && Can(configs, w, g, a);
      }
    }
    assert IsAnyRun(configs, run') && run'[0].states.Keys == gids && run'[|run'| - 1] == w';
  }

  /** A group at rest that has no data. */
  function BlankGroup(configs: Configs, m: nat): Group
    requires m < |configs|
  {
    Group(configs[m], configs[if m == 0 then 0 else m - 1], seq(NShards, _ => Shard(map[], Normal)), map[])
  }

  /** Every shard belongs to `g` in configuration `m`. */
  ghost predicate AllOwnedBy(configs: Configs, m: nat, g: int) {
    m < |configs| && |configs[m].shards| == NShards && forall i | 0 <= i < NShards :: configs[m].shards[i] == g
  }

  /** A group at rest hears of the next configuration and applies it; the other groups are not concerned. */
  lemma TakesConfig(configs: Configs, gids: set<int>, w: World, g: int) returns (w': World)
    requires Reachable(configs, gids, w) && WorldOk(w) && g in w.states && AllNormal(Now(w, g))
    requires Now(w, g).current.num + 1 < |configs| && |configs[Now(w, g).current.num + 1].shards| == NShards
    ensures Reachable(configs, gids, w') && WorldOk(w') && w'.states.Keys == w.states.Keys && w'.accepted == w.accepted
    ensures Now(w', g) == ApplyNewConfig(g, Now(w, g), configs[Now(w, g).current.num + 1]).0
    ensures forall h | h in w.states && h != g :: Now(w', h) == Now(w, h)
  {
    hide Reachable, AllNormal, ApplyNewConfig;
    var num := Now(w, g).current.num + 1;
    var fetch := FetchConfig(|w.states[g]| - 1);
    Extend(configs, gids, w, g, fetch);
    var told := ShardProtocol.After(configs, w, g, fetch);
    assert WorldOk(told);
    Extend(configs, gids, told, g, ApplyConfig(num));
    w' := ShardProtocol.After(configs, told, g, ApplyConfig(num));
    StaysGroup(g, Now(w, g), configs[num]);
  }

  lemma StaysGroup(g: int, gr: Group, config: Config)
    requires GroupOk(gr) && |config.shards| == NShards
    ensures GroupOk(ApplyNewConfig(g, gr, config).0)
  {
  }

  /** For a group that neither gives nor gets a shard from another, nothing but the configuration changes. */
  lemma BlankStays(configs: Configs, m: nat, g: int, from: int, to: int)
    requires m + 1 < |configs| && Numbered(configs)
    requires AllOwnedBy(configs, m, from) && AllOwnedBy(configs, m + 1, to)
    requires g != 0 && (from == 0 || to == 0 || (from != g && to != g))
    ensures ApplyNewConfig(g, BlankGroup(configs, m), configs[m + 1]).0 == BlankGroup(configs, m + 1)
  {
    var gr := ApplyNewConfig(g, BlankGroup(configs, m), configs[m + 1]).0;
    assert gr.shards == BlankGroup(configs, m + 1).shards;
  }

  /** All shards go to `g` in configuration 1, to nobody from configuration 2 on, and to `h` in configuration `k`. */
  ghost predicate Gap(configs: Configs, g: int, h: int, k: nat) {
    && 2 < k < |configs| && g != 0 && h != 0 && g != h && Numbered(configs)
    && AllOwnedBy(configs, 0, 0) && AllOwnedBy(configs, 1, g) && AllOwnedBy(configs, k, h)
    && forall m | 1 < m < k :: AllOwnedBy(configs, m, 0)
  }

  /** The successor goes through the configurations up to `m`, without hearing of any data. */
  lemma {:induction false} SuccessorTakes(configs: Configs, gids: set<int>, w: World, g: int, h: int, k: nat, m: nat)
    returns (w': World)
    requires Gap(configs, g, h, k) && m <= k && Reachable(configs, gids, w) && WorldOk(w)
    requires g in w.states && h in w.states && Now(w, h) == BlankGroup(configs, 0)
    ensures Reachable(configs, gids, w') && WorldOk(w') && w'.states.Keys == w.states.Keys && w'.accepted == w.accepted
    ensures Now(w', h) == BlankGroup(configs, m) && Now(w', g) == Now(w, g)
  {
    hide Reachable, ApplyNewConfig, AllOwnedBy, WorldOk;
    if m == 0 {
      w' := w;
    } else {
      var before := SuccessorTakes(configs, gids, w, g, h, k, m - 1);
      BlankAt(configs, m - 1);
      w' := TakesConfig(configs, gids, before, h);
      BlankStays(configs, m - 1, h, OwnerAt(g, h, k, m - 1), OwnerAt(g, h, k, m));
    }
  }

  function OwnerAt(g: int, h: int, k: nat, m: nat): int {
    if m == 1 then g else if m == k then h else 0
  }

  lemma BlankAt(configs: Configs, m: nat)
    requires m < |configs| && Numbered(configs)
    ensures AllNormal(BlankGroup(configs, m)) && BlankGroup(configs, m).current.num == m
  {
  }

  lemma Begins(configs: Configs, gids: set<int>) returns (w: World)
    requires ConfigsKnown(configs, gids)
    ensures Reachable(configs, gids, w) && WorldOk(w) && w.states.Keys == gids && w.accepted == seq(NShards, _ => [])
    ensures forall g | g in gids :: Now(w, g) == BlankGroup(configs, 0)
  {
    hide KnownOwners;
    w := World(map g | g in gids :: [Fresh(configs)], {}, {}, {}, seq(NShards, _ => []));
    assert w.states.Keys == gids;
    assert IsAnyRun(configs, [w]) && [w][0].states.Keys == gids && [w][|[w]| - 1] == w;
  }

  /** The owner serves a write on an untouched shard. */
  lemma OwnerWrites(configs: Configs, gids: set<int>, w: World, g: int, op: Op) returns (w': World)
    requires Reachable(configs, gids, w) && WorldOk(w) && g in w.states && AllOwnedBy(configs, 1, g)
             && op.opType != OpGet
    requires Now(w, g) == BlankGroup(configs, 1) && w.accepted == seq(NShards, _ => [])
    ensures Reachable(configs, gids, w') && WorldOk(w') && w'.states.Keys == w.states.Keys
    ensures forall h | h in w.states && h != g :: Now(w', h) == Now(w, h)
    ensures var i := Key2Shard(op.key);
            && w'.accepted[i] == [WriteOf(op)] && ServesShard(w', g, i)
            && Now(w', g).shards[i].kv == Put(map[], WriteOf(op))
  {
    hide Reachable;
    Extend(configs, gids, w, g, ClientOp(op));
    w' := ShardProtocol.After(configs, w, g, ClientOp(op));
    assert [] + [WriteOf(op)] == [WriteOf(op)];
  }

  /** Both groups serve the shard, and the successor lacks the write. */
  ghost predicate Forked(w: World, g: int, h: int, i: nat, write: Write)
    requires i < NShards
  {
    && WorldOk(w) && g in w.states && h in w.states && w.accepted[i] == [write]
    && ServesShard(w, g, i) && Now(w, g).shards[i].kv == Fold(w.accepted[i])
    && ServesShard(w, h, i) && Now(w, h).shards[i].kv != Fold(w.accepted[i])
  }

  /** After every such gap, however long, and for every write: both groups come to serve the shard at the same
      time, and the later one without the write. */
  lemma GapForks(configs: Configs, gids: set<int>, g: int, h: int, k: nat, op: Op) returns (w: World)
    requires ConfigsKnown(configs, gids) && Gap(configs, g, h, k) && g in gids && h in gids && op.opType != OpGet
    ensures Reachable(configs, gids, w) && Forked(w, g, h, Key2Shard(op.key), WriteOf(op))
  {
    hide Reachable, ApplyNewConfig, WorldOk, ConfigsKnown, Put;
    w := Begins(configs, gids);
    BlankAt(configs, 0);
    w := TakesConfig(configs, gids, w, g);
    BlankStays(configs, 0, g, 0, g);
    w := OwnerWrites(configs, gids, w, g, op);
    w := SuccessorTakes(configs, gids, w, g, h, k, k);
    OneWrite(WriteOf(op));
  }

  // ---- The controller makes such gaps ----

  /** What the groups see of the controller's configurations. */
  function Seen(configs: seq<Controller.Config>): Configs {
    seq(|configs|, m requires 0 <= m < |configs| => Config(configs[m].num, configs[m].shards))
  }

  /** One group joins, leaves, and another joins. */
  function InTurn(g: int, servers: seq<string>, h: int, servers': seq<string>): seq<Controller.Change> {
    [Controller.JoinGroups(map[g := servers]), Controller.LeaveGroups([g]), Controller.JoinGroups(map[h := servers'])]
  }

  lemma TurnGroups(configs: seq<Controller.Config>, g: int, servers: seq<string>, h: int, servers': seq<string>)
    requires Controller.IsHistory(configs, InTurn(g, servers, h, servers')) && g != 0 && h != 0 && g != h
    ensures configs[1].groups == map[g := servers] && configs[2].groups == map[]
            && configs[3].groups == map[h := servers']
  {
    hide Levelling.Rounds, Controller.AreListings, Levelling.Done, Levelling.ListsOk;
    var changes := InTurn(g, servers, h, servers');
    assert Controller.Changed(configs[0], changes[0], configs[0 + 1]);
    assert Controller.Changed(configs[1], changes[1], configs[1 + 1]);
    assert Controller.Changed(configs[2], changes[2], configs[2 + 1]);
    assert configs[2].groups == map[];
  }

  /** Every such history of the controller has the gap. */
  lemma TurnsLeaveGap(configs: seq<Controller.Config>, g: int, servers: seq<string>, h: int, servers': seq<string>)
    requires Controller.IsHistory(configs, InTurn(g, servers, h, servers')) && g != 0 && h != 0 && g != h
    ensures ConfigsKnown(Seen(configs), {g, h}) && Gap(Seen(configs), g, h, 3)
  {
    hide Controller.Changed;
    TurnGroups(configs, g, servers, h, servers');
    forall m | 0 <= m < 4
      ensures configs[m].num == m && |configs[m].shards| == NShards && AllOwnedBy(Seen(configs), m, OwnerAt(g, h, 3, m))
    {
      Controller.HistoryOk(configs, InTurn(g, servers, h, servers'), m);
      assert g in configs[1].groups && h in configs[3].groups && configs[0].groups == map[];
      assert m == 0 || m == 1 || m == 2 || m == 3;
    }
    var seen := Seen(configs);
    assert AllOwnedBy(seen, 0, 0) && AllOwnedBy(seen, 1, g) && AllOwnedBy(seen, 2, 0) && AllOwnedBy(seen, 3, h);
  }

  lemma JoinIsChange(c: Controller.Config, g: int, servers: seq<string>, c': Controller.Config,
      trace: seq<Levelling.Lists>)
    requires c'.num == c.num + 1 && |c.shards| == |c'.shards| == Controller.NShards && g != 0
    requires Controller.IsJoin(c, map[g := servers], c', trace)
    ensures Controller.Changed(c, Controller.JoinGroups(map[g := servers]), c') && c'.groups != map[]
  {
    hide Levelling.Rounds, Controller.AreListings, Levelling.Done, Levelling.ListsOk;
    assert g in c'.groups;
  }

  /** The controller can be brought to do so. */
  method TakeTurns(g: int, servers: seq<string>, h: int, servers': seq<string>)
    returns (csm: Controller.CtrlerStateMachine)
    requires g != 0 && h != 0 && g != h
    ensures Controller.IsHistory(csm.configs, InTurn(g, servers, h, servers'))
  {
    hide Controller.IsJoin, Controller.IsLeave, Controller.LeaveKeeps, Controller.MovesFewest, Controller.Gids;
    csm := new Controller.CtrlerStateMachine();
    ghost var trace := csm.Join(map[g := servers]);
    JoinIsChange(csm.configs[0], g, servers, csm.configs[1], trace);
    csm.Leave([g]);
    assert Controller.Changed(csm.configs[1], Controller.LeaveGroups([g]), csm.configs[2]);
    trace := csm.Join(map[h := servers']);
    JoinIsChange(csm.configs[2], h, servers', csm.configs[3], trace);
  }

  /** One group joins, leaves, and another joins: for every write to the first, the second comes to serve the
      written shard without it, next to the first. */
  lemma TurnsFork(configs: seq<Controller.Config>, g: int, servers: seq<string>, h: int, servers': seq<string>, op: Op)
    returns (w: World)
    requires Controller.IsHistory(configs, InTurn(g, servers, h, servers')) && g != 0 && h != 0 && g != h
             && op.opType != OpGet
    ensures Reachable(Seen(configs), {g, h}, w) && Forked(w, g, h, Key2Shard(op.key), WriteOf(op))
  {
    hide Reachable, Forked, ConfigsKnown, Gap, Controller.IsHistory;
    TurnsLeaveGap(configs, g, servers, h, servers');
    w := GapForks(Seen(configs), {g, h}, g, h, 3, op);
  }

  // ---- Which histories of the controller are safe ----

  /** The assignment under the last configuration with groups, up to `m`. */
  function LastShards(configs: seq<Controller.Config>, m: nat): seq<int>
    requires m < |configs|
  {
    if configs[m].groups != map[] || m == 0 then configs[m].shards else LastShards(configs, m - 1)
  }

  /** A join after the last group has left gives every shard to the group that had it. */
  ghost predicate Restores(configs: seq<Controller.Config>, m: nat) {
    0 < m < |configs| && configs[m - 1].groups == map[] && configs[m].groups != map[] ==>
      LastShards(configs, m - 1) == Controller.Unowned() || LastShards(configs, m - 1) == configs[m].shards
  }

  ghost predicate GroupsKnown(configs: seq<Controller.Config>, gids: set<int>) {
    0 !in gids && forall m | 0 <= m < |configs| :: configs[m].groups.Keys <= gids
  }

  lemma {:induction false} LastShardsOwn(configs: seq<Controller.Config>, changes: seq<Controller.Change>, m: nat,
      i: nat)
    requires Controller.IsHistory(configs, changes) && m < |configs| && i < NShards
    ensures |LastShards(configs, m)| == NShards
    ensures LastOwner(OwnersOf(Seen(configs), i), m) == LastShards(configs, m)[i]
    ensures LastShards(configs, m)[i] == 0 ==> LastShards(configs, m) == Controller.Unowned()
  {
    hide Controller.Changed;
    Controller.HistoryOk(configs, changes, m);
    if m == 0 {
      assert configs[0].shards == Controller.Unowned();
    } else if configs[m].groups == map[] {
      LastShardsOwn(configs, changes, m - 1, i);
    }
  }

  lemma SeenKnown(configs: seq<Controller.Config>, changes: seq<Controller.Change>, gids: set<int>)
    requires Controller.IsHistory(configs, changes) && GroupsKnown(configs, gids)
    ensures ConfigsKnown(Seen(configs), gids)
  {
    hide Controller.Changed;
    forall m | 0 <= m < |configs| ensures configs[m].num == m && Controller.ConfigOk(configs[m]) {
      Controller.HistoryOk(configs, changes, m);
    }
  }

  /** A shard is given away where the controller's groups come back and the shard's last owner does not get it. */
  lemma GivenAwayWhen(configs: seq<Controller.Config>, changes: seq<Controller.Change>, m: nat, i: nat)
    requires Controller.IsHistory(configs, changes) && 0 < m < |configs| && i < NShards
    ensures var last := LastShards(configs, m - 1);
            && |last| == |configs[m].shards| == NShards
            && (GivenAway(OwnersOf(Seen(configs), i), m) <==>
                  configs[m - 1].groups == map[] && configs[m].groups != map[]
                  && last != Controller.Unowned() && last[i] != configs[m].shards[i])
  {
    hide Controller.IsHistory, LastOwner, LastShards;
    Controller.HistoryOk(configs, changes, m - 1);
    Controller.HistoryOk(configs, changes, m);
    LastShardsOwn(configs, changes, m - 1, i);
  }

  lemma RestoresOne(configs: seq<Controller.Config>, changes: seq<Controller.Change>, m: nat)
    requires Controller.IsHistory(configs, changes) && 0 < m < |configs|
    ensures Restores(configs, m) <==> forall i: nat | i < NShards :: !GivenAway(OwnersOf(Seen(configs), i), m)
  {
    hide Controller.IsHistory, LastOwner, LastShards, GivenAway, OwnersOf, Seen;
    GivenAwayWhen(configs, changes, m, 0);
    var last := LastShards(configs, m - 1);
    forall i: nat | i < NShards
      ensures GivenAway(OwnersOf(Seen(configs), i), m) <==>
                configs[m - 1].groups == map[] && configs[m].groups != map[]
                && last != Controller.Unowned() && last[i] != configs[m].shards[i]
    {
      GivenAwayWhen(configs, changes, m, i);
    }
    if last != configs[m].shards {
      assert exists i: nat :: i < NShards && last[i] != configs[m].shards[i];
    }
  }

  /** The controller's configurations are safe for the groups if and only if every join that follows the
      departure of the last group restores the assignment of before. */
  lemma SafeHistories(configs: seq<Controller.Config>, changes: seq<Controller.Change>, gids: set<int>)
    requires Controller.IsHistory(configs, changes) && GroupsKnown(configs, gids)
    ensures ConfigsKnown(Seen(configs), gids)
    ensures ConfigsOk(Seen(configs), gids) <==> forall m: nat :: Restores(configs, m)
  {
    hide Controller.IsHistory, ConfigsKnown, GivenAway, LastShards, OwnersOf, Seen;
    SeenKnown(configs, changes, gids);
    var seen := Seen(configs);
    if ConfigsOk(seen, gids) {
      forall m: nat | 0 < m < |configs| ensures Restores(configs, m) {
        forall i: nat | i < NShards ensures !GivenAway(OwnersOf(seen, i), m) {
          assert ReturnsOk(OwnersOf(seen, i));
        }
        RestoresOne(configs, changes, m);
      }
    }
    if forall m: nat :: Restores(configs, m) {
      forall i: nat, m: nat | i < NShards ensures !GivenAway(OwnersOf(seen, i), m) {
        if 0 < m < |configs| {
          assert Restores(configs, m);
          RestoresOne(configs, changes, m);
        } else {
          OutOfRange(configs, i, m);
        }
      }
    }
  }

  lemma OutOfRange(configs: seq<Controller.Config>, i: nat, m: nat)
    requires !(0 < m < |configs|)
    ensures !GivenAway(OwnersOf(Seen(configs), i), m)
  {
  }
}
