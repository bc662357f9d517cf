/** What every reachable state of the sharded store satisfies. */
module ShardSafety {
  import opened MigrationCore
  import opened MigrationGaps
  import opened ShardGroup
  import opened ShardProtocol
  import opened ShardProjection
  import MigrationMoves
  import MigrationSafety

  ghost predicate ShardOk(configs: Configs, w: World, i: nat)
    requires WorldOk(w) && i < NShards
  {
    exists tok: nat :: Inv(HoldersOf(configs, i), Proj(w, i), tok)
  }

  ghost predicate AllAt(configs: Configs, w: World) {
    forall g, k: nat | g in w.states && k < |w.states[g]| :: GroupAt(configs, w.states[g][k])
  }

  /** A change was proposed from a state in which nothing was moving. */
  ghost predicate ChangeOk(w: World, ch: Change) {
    && ch.to in w.states
    && exists k: nat ::
         && k < |w.states[ch.to]| && w.states[ch.to][k].current.num + 1 == ch.num
         && AllNormal(w.states[ch.to][k])
  }

  ghost predicate WorldInv(configs: Configs, w: World) {
    && WorldOk(w) && ConfigsOk(configs, w.states.Keys) && AllAt(configs, w)
    && (forall ch | ch in w.changes :: ChangeOk(w, ch))
    && forall i: nat | i < NShards :: ShardOk(configs, w, i)
  }

  // ---- From one shard back to the group ----

  /** Within one configuration, a shard that was normal stays so. */
  lemma StaysNormal(configs: Configs, w: World, g: int, k: nat, i: nat)
    requires WorldOk(w) && i < NShards && ShardOk(configs, w, i) && g in w.states && k < |w.states[g]|
    ensures w.states[g][k].current.num <= Now(w, g).current.num
    ensures w.states[g][k].current.num == Now(w, g).current.num && w.states[g][k].shards[i].status == Normal ==>
              Now(w, g).shards[i].status == Normal
  {
    hide CellsOk, HolderOk, AllKept, MessagesOk, AllReached, HoldersOf, SeqIds, MigsOf, GcsOf, CellOk;
    var s := Proj(w, i);
    var tok :| Inv(HoldersOf(configs, i), s, tok);
    ProjCur(w, i, g);
    assert GroupPastOk(HoldersOf(configs, i), s, g);
    assert s.past[g][k] == CellOf(w.states[g][k], i);
    assert PastOk(HoldersOf(configs, i), s, g, s.past[g][k]);
  }

  /** A configuration change takes effect only when no shard is moving. */
  lemma ChangeIsSafe(configs: Configs, w: World, g: int, num: nat)
    requires WorldInv(configs, w) && Change(g, num) in w.changes && Now(w, g).current.num + 1 == num
    ensures AllNormal(Now(w, g))
  {
    hide ShardOk, ConfigsOk, AllAt;
    assert ChangeOk(w, Change(g, num));
    var k: nat :| k < |w.states[g]| && w.states[g][k].current.num + 1 == num && AllNormal(w.states[g][k]);
    forall i: nat | i < NShards ensures Now(w, g).shards[i].status == Normal {
      StaysNormal(configs, w, g, k, i);
    }
  }

  /** What an earlier state of a group says about a shard. */
  lemma PastCell(configs: Configs, w: World, g: int, k: nat, i: nat)
    requires WorldOk(w) && i < NShards && ShardOk(configs, w, i) && g in w.states && k < |w.states[g]|
    ensures CellOk(HoldersOf(configs, i), g, CellOf(w.states[g][k], i))
  {
    hide CellsOk, HolderOk, AllKept, MessagesOk, AllReached, HoldersOf, SeqIds, MigsOf, GcsOf, CellOk;
    var s := Proj(w, i);
    var tok :| Inv(HoldersOf(configs, i), s, tok);
    ProjCur(w, i, g);
    assert GroupPastOk(HoldersOf(configs, i), s, g);
    assert s.past[g][k] == CellOf(w.states[g][k], i);
    assert PastOk(HoldersOf(configs, i), s, g, s.past[g][k]);
  }

  // ---- Steps ----

  lemma StepShard(configs: Configs, w: World, g: int, i: nat, a: Step, w': World)
    requires WorldOk(w) && WorldOk(w') && i < NShards && ShardOk(configs, w, i) && GroupsOk(Proj(w, i))
             && g in Proj(w, i).past
    requires ReturnsOk(OwnersOf(configs, i)) && 0 !in w.states
    requires CanStep(OwnersOf(configs, i), Proj(w, i), g, a)
    requires Proj(w', i) == MigrationCore.After(OwnersOf(configs, i), Proj(w, i), g, a)
    ensures ShardOk(configs, w', i)
  {
    hide Inv, OwnersOf, PastOf, MigsOf, GcsOf, CanStep, MigrationCore.After, ReturnsOk, LastOwners;
    assert 0 !in Proj(w, i).past by { SameGroups(w, i); }
    SameStep(OwnersOf(configs, i), Proj(w, i), g, a);
    var tok: nat :| Inv(HoldersOf(configs, i), Proj(w, i), tok);
    var tok' := MigrationMoves.StepInv(HoldersOf(configs, i), Proj(w, i), tok, g, a);
  }

  lemma SameGroups(w: World, i: nat)
    requires WorldOk(w) && i < NShards
    ensures Proj(w, i).past.Keys == w.states.Keys
  {
  }

  lemma ShardStep(configs: Configs, w: World, g: int, a: Action, i: nat)
    requires WorldInv(configs, w) && Can(configs, w, g, a) && i < NShards
    ensures WorldOk(ShardProtocol.After(configs, w, g, a)) && ShardOk(configs, ShardProtocol.After(configs, w, g, a), i)
  {
    hide ShardOk, Proj, OwnersOf, CellOf, AllNormal, ChangeOk, KnownOwners, ReturnsOk, IsOrder, ApplyClientOperation,
      ApplyShardMigration, ApplyShardGC,
      ApplyNewConfig, CanStep, MigrationCore.After;
    var w' := ShardProtocol.After(configs, w, g, a);
    assert ShardOk(configs, w, i);
    ProjCur(w, i, g);
    assert GroupAt(configs, Now(w, g));
    var st: Step;
    match a {
      case ClientOp(op) =>
        st := ClientStep(configs, w, g, op, i);
      case FetchConfig(k) =>
        SameProj(w, w', i);
        st := Nothing;
        NothingStep(configs, w, g, i);
      case ApplyConfig(num) =>
        if Now(w, g).current.num + 1 == num {
          ChangeIsSafe(configs, w, g, num);
        }
        st := ConfigStep(configs, w, g, num, i);
      case PullShards(k, from, j) =>
        PullReady(configs, w, g, k, i);
        st := PullStep(configs, w, g, k, from, j, i);
      case ApplyMigration(d, order) =>
        st := MigrationStep(configs, w, g, d, order, i);
      case AskCleanup(k, from, j) =>
        st := OrderStep(configs, w, g, k, from, from, i);
      case ConfirmCleanup(k, from) =>
        st := OrderStep(configs, w, g, k, from, g, i);
      case ApplyCleanup(num, ids) =>
        st := CleanupStep(configs, w, g, num, ids, i);
    }
    NoGroupZero(configs, w);
    StepShard(configs, w, g, i, st, w');
  }

  lemma NoGroupZero(configs: Configs, w: World)
    requires ConfigsOk(configs, w.states.Keys)
    ensures 0 !in w.states
  {
    hide ReturnsOk;
    assert KnownOwners(OwnersOf(configs, 0), w.states.Keys);
  }

  lemma SameProj(w: World, w': World, i: nat)
    requires WorldOk(w) && i < NShards && w' == w.(changes := w'.changes)
    ensures WorldOk(w') && Proj(w', i) == Proj(w, i)
  {
  }

  lemma NothingStep(configs: Configs, w: World, g: int, i: nat)
    requires WorldOk(w) && i < NShards && GroupsOk(Proj(w, i)) && g in Proj(w, i).past
    ensures CanStep(OwnersOf(configs, i), Proj(w, i), g, Nothing)
    ensures MigrationCore.After(OwnersOf(configs, i), Proj(w, i), g, Nothing) == Proj(w, i)
  {
  }

  lemma PullReady(configs: Configs, w: World, g: int, k: nat, i: nat)
    requires WorldInv(configs, w) && g in w.states && k < |w.states[g]| && i < NShards
    ensures GroupAt(configs, w.states[g][k]) && KnownOwners(OwnersOf(configs, i), w.states.Keys)
    ensures w.states[g][k].current.num == 0 ==> w.states[g][k].shards[i].status != MoveIn
  {
    hide KnownOwners, ReturnsOk, OwnersOf, SeqIds, ShardOk;
    assert ShardOk(configs, w, i);
    PastCell(configs, w, g, k, i);
  }

  /** The states of the groups only get more, all of them under the controller's configurations. */
  lemma StepStates(configs: Configs, w: World, g: int, a: Action)
    requires WorldInv(configs, w) && Can(configs, w, g, a)
    ensures var w' := ShardProtocol.After(configs, w, g, a);
            && w'.states.Keys == w.states.Keys && AllAt(configs, w')
            && forall h | h in w.states :: w.states[h] <= w'.states[h]
  {
    hide ShardOk, KnownOwners, ReturnsOk, IsOrder, ChangeOk, TakeShards, CleanShards, ShardsByStatus, MergeTables;
    var w' := ShardProtocol.After(configs, w, g, a);
    assert w'.states.Keys == w.states.Keys;
    assert GroupAt(configs, Now(w, g));
    forall h, k: nat | h in w'.states && k < |w'.states[h]| ensures GroupAt(configs, w'.states[h][k]) {
      if k < |w.states[h]| {
        assert GroupAt(configs, w.states[h][k]);
      }
    }
  }

  lemma StepChanges(configs: Configs, w: World, g: int, a: Action, ch: Change)
    requires WorldInv(configs, w) && Can(configs, w, g, a) && ch in ShardProtocol.After(configs, w, g, a).changes
    requires var w' := ShardProtocol.After(configs, w, g, a);
             w'.states.Keys == w.states.Keys && forall h | h in w.states :: w.states[h] <= w'.states[h]
    ensures ChangeOk(ShardProtocol.After(configs, w, g, a), ch)
  {
    hide ShardOk, ConfigsOk, AllAt, AllNormal, ApplyClientOperation, ApplyShardMigration, ApplyShardGC, ApplyNewConfig,
      ShardsByStatus, IsOrder;
    var w' := ShardProtocol.After(configs, w, g, a);
    if ch in w.changes {
      assert ChangeOk(w, ch);
      var k: nat :| k < |w.states[ch.to]| && w.states[ch.to][k].current.num + 1 == ch.num
        && AllNormal(w.states[ch.to][k]);
      assert w'.states[ch.to][k] == w.states[ch.to][k];
    }
  }

  lemma StepInv(configs: Configs, w: World, g: int, a: Action)
    requires WorldInv(configs, w) && Can(configs, w, g, a)
    ensures WorldInv(configs, ShardProtocol.After(configs, w, g, a))
  {
    hide ShardOk, ConfigsOk, AllAt, ChangeOk, ShardProtocol.After, Can;
    StepStates(configs, w, g, a);
    ShardStep(configs, w, g, a, 0);
    forall i: nat | i < NShards ensures ShardOk(configs, ShardProtocol.After(configs, w, g, a), i) {
      ShardStep(configs, w, g, a, i);
    }
    forall ch | ch in ShardProtocol.After(configs, w, g, a).changes
      ensures ChangeOk(ShardProtocol.After(configs, w, g, a), ch)
    {
      StepChanges(configs, w, g, a, ch);
    }
  }

  lemma StartInv(configs: Configs, w: World)
    requires ConfigsOk(configs, w.states.Keys) && Init(configs, w)
    ensures WorldInv(configs, w)
  {
    hide KnownOwners, ReturnsOk, LastOwners, OwnersOk, Inv;
    assert WorldOk(w);
    forall i: nat | i < NShards ensures ShardOk(configs, w, i) {
      var s := Proj(w, i);
      forall g | g in s.past ensures s.past[g] == [Cell(0, Normal, map[], map[])] {
        assert w.states[g] == [Fresh(configs)];
        assert CellOf(Fresh(configs), i) == Cell(0, Normal, map[], map[]);
      }
      assert s.past.Keys == w.states.Keys;
      LastOwnersOk(OwnersOf(configs, i), w.states.Keys);
      MigrationSafety.Start(HoldersOf(configs, i), s);
    }
  }

  lemma {:induction false} RunInv(configs: Configs, run: seq<World>, n: nat)
    requires IsRun(configs, run) && n < |run|
    ensures WorldInv(configs, run[n])
  {
    hide WorldInv, ConfigsOk, Init;
    if n == 0 {
      StartInv(configs, run[0]);
    } else {
      RunInv(configs, run, n - 1);
      assert Next(configs, run[n - 1], run[n - 1 + 1]);
      var g, a :| WorldOk(run[n - 1]) && Can(configs, run[n - 1], g, a)
        && run[n] == ShardProtocol.After(configs, run[n - 1], g, a);
      StepInv(configs, run[n - 1], g, a);
    }
  }
}
