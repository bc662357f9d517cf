/** The group's server: fields that commands update in place, proved to do what `ShardGroup` says. */
module ShardServer {
  import opened Collections
  import opened MigrationCore
  import opened ShardGroup

  class MemoryKVStateMachine {
    var kv: Data
    var status: Status

    constructor ()
      ensures kv == map[] && status == Normal
    {
      kv, status := map[], Normal;
    }

    method Get(key: string) returns (value: string, err: Err)
      ensures value == MigrationCore.Get(kv, key) && err == if key in kv then OK else ErrNoKey
    {
      if key in kv {
        return kv[key], OK;
      }
      return "", ErrNoKey;
    }

    method Put(key: string, value: string) returns (err: Err)
      modifies this`kv
      ensures kv == old(kv)[key := value] && err == OK
    {
      kv := kv[key := value];
      return OK;
    }

    method Append(key: string, value: string) returns (err: Err)
      modifies this`kv
      ensures kv == old(kv)[key := MigrationCore.Get(old(kv), key) + value] && err == OK
    {
      kv := kv[key := (if key in kv then kv[key] else "") + value];
      return OK;
    }

    method CopyData() returns (copy: Data)
      ensures copy == kv
    {
      copy := map[];
      copy := CopyInto(copy, kv);
      assert map[] + kv == kv;
    }
  }

  /** Store every pair of `data`, whatever the order the map is walked in. */
  method CopyInto(kv: Data, data: Data) returns (r: Data)
    ensures r == kv + data
  {
    r := kv;
    var left := data.Keys;
    while left != {}
      invariant left <= data.Keys
      invariant r.Keys == kv.Keys + (data.Keys - left)
      invariant forall k | k in r :: r[k] == if k in data && k !in left then data[k] else if k in kv then kv[k]
                else r[k]
      decreases left
    {
      var k :| k in left;
      r := r[k := data[k]];
      left := left - {k};
    }
  }

  /** Keep the later entry for every client, whatever the order the table is walked in. */
  method MergeInto(table: DupTable, other: DupTable) returns (r: DupTable)
    ensures r == MergeTables(table, other)
  {
    hide MergeTables;
    r := table;
    var left := other.Keys;
    while left != {}
      invariant left <= other.Keys
      invariant r.Keys == table.Keys + (other.Keys - left)
      invariant forall c | c in table && (c !in other || c in left) :: r[c] == table[c]
      invariant forall c | c in other && c !in left :: r[c] == Later(table, other, c)
      decreases left
    {
      NotEmpty(left);
      var c :| c in left;
      if c !in r || r[c].seqId < other[c].seqId {
        r := r[c := other[c]];
      }
      left := left - {c};
    }
    MergedAt(table, other, r);
  }

  ghost function Later(a: DupTable, b: DupTable, c: Client): LastOperation
    requires c in b
  {
    if c !in a || a[c].seqId < b[c].seqId then b[c] else a[c]
  }

  lemma MergedAt(a: DupTable, b: DupTable, r: DupTable)
    requires r.Keys == a.Keys + b.Keys && forall c | c in r :: r[c] == if c in b then Later(a, b, c) else a[c]
    ensures r == MergeTables(a, b)
  {
    var m := MergeTables(a, b);
    assert forall c: Client :: c in m <==> c in r;
    assert forall c: Client | c in m :: m[c] == r[c];
  }

  lemma TakeNext(shards: seq<Shard>, data: map<nat, Data>, keys: seq<nat>, k: nat)
    requires Covers(data, keys, |shards|) && k < |keys|
    ensures Covers(data, keys[k..], |shards|) && Covers(data, keys[k + 1..], |shards|)
    ensures var i := keys[k];
            TakeShards(shards, data, keys[k..]) ==
            if shards[i].status == MoveIn then TakeShards(shards[i := Shard(shards[i].kv + data[i], GC)], data,
                                                          keys[k + 1..]) else shards
  {
    assert keys[k..][0] == keys[k] && keys[k..][1..] == keys[k + 1..];
  }

  lemma TakeEnd(shards: seq<Shard>, data: map<nat, Data>, keys: seq<nat>)
    ensures TakeShards(shards, data, keys[|keys|..]) == shards
  {
    assert keys[|keys|..] == [];
  }

  lemma ByStatusNone(gr: Group, status: Status)
    requires GroupOk(gr)
    ensures OwnerTable(map[], gr, status, 0)
  {
  }

  /** The table of shards by earlier owner, after the first `i` shards. */
  ghost predicate OwnerTable(m: map<int, seq<nat>>, gr: Group, status: Status, i: nat)
    requires GroupOk(gr) && i <= NShards
  {
    forall from :: (from in m <==> from != 0 && ShardsByStatus(gr, status, from, i) != [])
                   && (from in m ==> m[from] == ShardsByStatus(gr, status, from, i))
  }

  lemma TableSkip(m: map<int, seq<nat>>, gr: Group, status: Status, i: nat)
    requires GroupOk(gr) && i < NShards && OwnerTable(m, gr, status, i)
             && (gr.shards[i].status != status || gr.prev.shards[i] == 0)
    ensures OwnerTable(m, gr, status, i + 1)
  {
    forall from | from != 0 ensures ShardsByStatus(gr, status, from, i + 1) == ShardsByStatus(gr, status, from, i) {
    }
  }

  lemma TableAdd(m: map<int, seq<nat>>, gr: Group, status: Status, i: nat)
    requires GroupOk(gr) && i < NShards && OwnerTable(m, gr, status, i) && gr.shards[i].status == status
             && gr.prev.shards[i] != 0
    ensures var gid := gr.prev.shards[i]; OwnerTable(m[gid := (if gid in m then m[gid] else []) + [i]], gr, status,
                                                     i + 1)
  {
    var gid := gr.prev.shards[i];
    assert ShardsByStatus(gr, status, gid, i + 1) == ShardsByStatus(gr, status, gid, i) + [i];
    forall from | from != gid ensures ShardsByStatus(gr, status, from, i + 1) == ShardsByStatus(gr, status, from, i) {
    }
  }

  /** A snapshot of a group: its shards, table and configurations; none if nothing was saved. */
  datatype Snapshot = NoSnapshot | Saved(group: Group)

  class ShardKV {
    const gid: int
    var shards: seq<MemoryKVStateMachine>
    var duplicateTable: DupTable
    var currentConfig: Config
    var prevConfig: Config

    ghost predicate Valid()
      reads this
    {
      && |shards| == |currentConfig.shards| == |prevConfig.shards| == NShards
      && forall i, j | 0 <= i < j < NShards :: shards[i] != shards[j]
    }

    ghost function ShardAt(i: nat): Shard
      requires i < |shards|
      reads this, shards
    {
      Shard(shards[i].kv, shards[i].status)
    }

    ghost function Shards(): (r: seq<Shard>)
      reads this, shards
      ensures |r| == |shards| && forall i | 0 <= i < |r| :: r[i] == ShardAt(i)
    {
      seq(|shards|, i requires 0 <= i < |shards| reads this, shards => ShardAt(i))
    }

    /** The state of the group that the fields hold. */
    ghost function Abs(): Group
      reads this, shards
    {
      Group(currentConfig, prevConfig, Shards(), duplicateTable)
    }

    /** Start with empty shards, or from a snapshot of the group. */
    constructor (gid: int, config: Config, snapshot: Snapshot)
      requires |config.shards| == NShards && (snapshot.Saved? ==> GroupOk(snapshot.group))
      ensures this.gid == gid && Valid()
      ensures Abs() == if snapshot.Saved? then snapshot.group
                       else Group(config, config, seq(NShards, _ => Shard(map[], Normal)), map[])
    {
      this.gid := gid;
      duplicateTable := map[];
      currentConfig, prevConfig := config, config;
      shards := [];
      new;
      RestoreFromSnapshot(snapshot);
    }

    /** One machine for each shard, in place of those there were. */
    method Rebuild(content: seq<Shard>)
      requires |content| == NShards
      modifies this`shards
      ensures |shards| == NShards && Distinct(shards) && Shards() == content
    {
      var made: seq<MemoryKVStateMachine> := [];
      while |made| < NShards
        invariant |made| <= NShards && fresh(made) && Distinct(made)
        invariant forall i | 0 <= i < |made| :: made[i].kv == content[i].kv && made[i].status == content[i].status
        modifies {}
        decreases NShards - |made|
      {
        var m := new MemoryKVStateMachine();
        m.kv, m.status := content[|made|].kv, content[|made|].status;
        made := made + [m];
      }
      shards := made;
    }

    /** What the disk or a snapshot message brings; without data, shards that are not there yet start empty. */
    method RestoreFromSnapshot(snapshot: Snapshot)
      requires |currentConfig.shards| == |prevConfig.shards| == NShards && (shards == [] || Valid())
      requires snapshot.Saved? ==> GroupOk(snapshot.group)
      modifies this
      ensures Valid()
      ensures Abs() == if snapshot.Saved? then snapshot.group
                       else if old(shards) == [] then old(Abs()).(shards := seq(NShards, _ => Shard(map[], Normal)))
                       else old(Abs())
    {
      if snapshot.NoSnapshot? {
        if shards == [] {
          Rebuild(seq(NShards, _ => Shard(map[], Normal)));
        }
      } else {
        Rebuild(snapshot.group.shards);
        duplicateTable := snapshot.group.dup;
        currentConfig, prevConfig := snapshot.group.current, snapshot.group.prev;
        assert Shards() == snapshot.group.shards;
      }
    }

    /** Set one shard's fields. */
    method Update(i: nat, kv: Data, status: Status)
      requires Valid() && i < NShards
      modifies shards[i]
      ensures Valid() && Shards() == old(Shards())[i := Shard(kv, status)]
    {
      shards[i].kv, shards[i].status := kv, status;
      assert forall j | 0 <= j < NShards :: j != i ==> shards[j] != shards[i];
    }

    /** Put a new, empty machine in place of one shard's. */
    method Renew(i: nat)
      requires Valid() && i < NShards
      modifies this`shards
      ensures Valid() && fresh(shards[i]) && Shards() == old(Shards())[i := Shard(map[], Normal)]
      ensures forall j | 0 <= j < NShards && j != i :: shards[j] == old(shards[j])
    {
      var m := new MemoryKVStateMachine();
      shards := shards[i := m];
    }

    method MatchGroup(key: string) returns (b: bool)
      requires Valid()
      ensures b == ShardGroup.MatchGroup(gid, Abs(), key)
    {
      var shard := Key2Shard(key);
      var status := shards[shard].status;
      return currentConfig.shards[shard] == gid && (status == Normal || status == GC);
    }

    method RequestDuplicated(client: Client, seqId: int) returns (b: bool)
      ensures b == ShardGroup.RequestDuplicated(duplicateTable, client, seqId)
    {
      return client in duplicateTable && seqId <= duplicateTable[client].seqId;
    }

    method ApplyToStateMachine(op: Op, i: nat) returns (reply: OpReply)
      requires Valid() && i < NShards
      modifies shards[i]
      ensures Valid() && Shards() == old(Shards())[i := ApplyToShard(old(Shards())[i], op).0]
      ensures reply == ApplyToShard(old(Shards())[i], op).1
    {
      assert forall j | 0 <= j < NShards :: j != i ==> shards[j] != shards[i];
      var value, err := "", OK;
      match op.opType {
        case OpGet => value, err := shards[i].Get(op.key);
        case OpPut => err := shards[i].Put(op.key, op.value);
        case OpAppend => err := shards[i].Append(op.key, op.value);
      }
      return OpReply(value, err);
    }

    method ApplyClientOperation(op: Op) returns (reply: OpReply)
      requires Valid()
      modifies this`duplicateTable, shards
      ensures Valid() && (Abs(), reply) == ShardGroup.ApplyClientOperation(gid, old(Abs()), op)
    {
      hide ApplyToShard;
      var matches := MatchGroup(op.key);
      if matches {
        var duplicated := RequestDuplicated(op.clientId, op.seqId);
        if op.opType != OpGet && duplicated {
          reply := duplicateTable[op.clientId].reply;
        } else {
          var i := Key2Shard(op.key);
          reply := ApplyToStateMachine(op, i);
          ghost var after := Shards();
          if op.opType != OpGet {
            duplicateTable := duplicateTable[op.clientId := LastOperation(op.seqId, reply)];
          }
          assert Shards() == after;
        }
      } else {
        reply := OpReply("", ErrWrongGroup);
      }
    }

    method ApplyNewConfig(newConfig: Config) returns (err: Err)
      requires Valid() && |newConfig.shards| == NShards
      modifies this`prevConfig, this`currentConfig, shards
      ensures Valid() && (Abs(), err) == ShardGroup.ApplyNewConfig(gid, old(Abs()), newConfig)
    {
      if currentConfig.num + 1 == newConfig.num {
        ghost var before := Shards();
        var i := 0;
        while i < NShards
          invariant 0 <= i <= NShards && Valid() && |before| == NShards
          invariant forall j | 0 <= j < NShards ::
            Shards()[j] == if j < i then before[j].(status :=
                                                    NewStatus(gid, currentConfig.shards[j], newConfig.shards[j],
                                                    before[j].status)) else before[j]
          modifies shards
        {
          ghost var here := Shards();
          var from, to := currentConfig.shards[i], newConfig.shards[i];
          if from != gid && to == gid {
            if from != 0 {
              Update(i, shards[i].kv, MoveIn);
            }
          }
          if from == gid && to != gid {
            if to != 0 {
              Update(i, shards[i].kv, MoveOut);
            }
          }
          assert Shards() == here[i := here[i].(status := NewStatus(gid, from, to, here[i].status))];
          i := i + 1;
        }
        prevConfig := currentConfig;
        currentConfig := newConfig;
        err := OK;
        assert Shards() == ShardGroup.ApplyNewConfig(gid, old(Abs()), newConfig).0.shards;
      } else {
        err := ErrWrongConfig;
      }
    }

    /** The order in which the arrived shards are walked is arbitrary; the first that is not awaited ends it. */
    method ApplyShardMigration(d: ShardData) returns (err: Err, ghost order: seq<nat>)
      requires Valid() && forall i | i in d.data :: i < NShards
      modifies this`duplicateTable, shards
      ensures Valid() && IsOrder(order, d.data) && Abs() == ShardGroup.ApplyShardMigration(old(Abs()), d, order)
              && err == ErrWrongConfig
    {
      hide TakeShards, MergeTables;
      var keys := KeysOf(d.data);
      order := keys;
      assert forall k | 0 <= k < |keys| :: keys[k] in keys;
      assert IsOrder(order, d.data);
      if d.num == currentConfig.num {
        var k := 0;
        assert keys[0..] == keys;
        while k < |keys|
          invariant 0 <= k <= |keys| && Valid()
          invariant TakeShards(Shards(), d.data, keys[k..]) == TakeShards(old(Shards()), d.data, keys)
          modifies shards
        {
          var i := keys[k];
          TakeNext(Shards(), d.data, keys, k);
          if shards[i].status == MoveIn {
            var kv := CopyInto(shards[i].kv, d.data[i]);
            Update(i, kv, GC);
          } else {
            break;
          }
          k := k + 1;
        }
        if k == |keys| {
          TakeEnd(Shards(), d.data, keys);
        }
        ghost var after := Shards();
        assert after == TakeShards(old(Shards()), d.data, keys);
        duplicateTable := MergeInto(duplicateTable, d.dup);
        assert Shards() == after;
      }
      err := ErrWrongConfig;
    }

    method ApplyShardGC(num: nat, ids: seq<nat>) returns (err: Err)
      requires Valid() && Within(ids, NShards)
      modifies this`shards, shards
      ensures Valid() && Abs() == ShardGroup.ApplyShardGC(old(Abs()), num, ids) && err == OK
    {
      if num == currentConfig.num {
        var k := 0;
        assert ids[0..] == ids;
        while k < |ids|
          invariant 0 <= k <= |ids| && Valid()
          invariant CleanShards(Shards(), ids[k..]) == CleanShards(old(Shards()), ids)
          invariant forall i | 0 <= i < NShards :: shards[i] == old(shards)[i] || fresh(shards[i])
          modifies this`shards, shards
        {
          var i := ids[k];
          assert ids[k..][0] == i && ids[k..][1..] == ids[k + 1..];
          if shards[i].status == GC {
            Update(i, shards[i].kv, Normal);
          } else if shards[i].status == MoveOut {
            Renew(i);
          } else {
            break;
          }
          k := k + 1;
        }
        assert k == |ids| ==> ids[k..] == [];
      }
      err := OK;
    }

    /** The shards with a status, by the group that owned them before; shards that nobody owned are left out. */
    method GetShardByStatus(status: Status) returns (gidToShards: map<int, seq<nat>>)
      requires Valid()
      ensures OwnerTable(gidToShards, Abs(), status, NShards)
    {
      hide ShardsByStatus, OwnerTable;
      ghost var gr := Abs();
      gidToShards := map[];
      assert OwnerTable(gidToShards, gr, status, 0) by { ByStatusNone(gr, status); }
      var i := 0;
      while i < NShards
        invariant 0 <= i <= NShards && OwnerTable(gidToShards, gr, status, i)
      {
        assert shards[i].status == gr.shards[i].status && prevConfig == gr.prev;
        if shards[i].status != status || prevConfig.shards[i] == 0 {
          TableSkip(gidToShards, gr, status, i);
        } else {
          TableAdd(gidToShards, gr, status, i);
        }
        if shards[i].status == status {
          var gid := prevConfig.shards[i];
          if gid != 0 {
            ghost var next := gidToShards[gid := (if gid in gidToShards then gidToShards[gid] else []) + [i]];
            if gid !in gidToShards {
              gidToShards := gidToShards[gid := []];
            }
            gidToShards := gidToShards[gid := gidToShards[gid] + [i]];
            assert gidToShards == next;
          }
        }
        i := i + 1;
      }
    }

    /** Copies of the asked shards and of the table, unless this server does not lead or its group is behind. */
    method GetShardsData(isLeader: bool, num: nat, ids: seq<nat>) returns (err: Err, d: ShardData)
      requires Valid() && Within(ids, NShards)
      ensures (err, d) == if isLeader then ShardGroup.GetShardsData(Abs(), num, ids)
                          else (ErrWrongLeader, ShardData(num, map[], map[]))
    {
      if !isLeader {
        return ErrWrongLeader, ShardData(num, map[], map[]);
      }
      if currentConfig.num < num {
        return ErrNotReady, ShardData(num, map[], map[]);
      }
      var data: map<nat, Data> := map[];
      var k := 0;
      while k < |ids|
        invariant 0 <= k <= |ids| && (forall i :: i in data <==> i in ids[..k])
        invariant forall i | i in data :: i < NShards && data[i] == Shards()[i].kv
      {
        assert ids[..k + 1] == ids[..k] + [ids[k]];
        var copy := shards[ids[k]].CopyData();
        data := data[ids[k] := copy];
        k := k + 1;
      }
      assert ids[..k] == ids;
      assert data == ShardGroup.GetShardsData(Abs(), num, ids).1.data;
      return OK, ShardData(num, data, duplicateTable);
    }
  }
}
