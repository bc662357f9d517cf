/** One replica group of the sharded store: what each committed command does to its state. */
module ShardGroup {
  import opened Collections
  import opened MigrationCore

  const NShards: nat := 10

  function Key2Shard(key: string): (i: nat)
    ensures i < NShards
  {
    if |key| > 0 then (key[0] as int) % NShards else 0
  }

  /** The shard of a key depends on its first character only: characters spread over the shards in turn. */
  lemma FirstCharacter(key: string, c: char, d: char, rest: string)
    ensures |key| > 0 ==> Key2Shard(key) == Key2Shard([key[0]]) == key[0] as int % 10
    ensures d as int == c as int + 1 ==> Key2Shard([d] + rest) == (Key2Shard([c]) + 1) % NShards
    ensures Key2Shard("") == 0
  {
  }

  datatype Config = Config(num: nat, shards: seq<int>)

  datatype Err = OK | ErrNoKey | ErrWrongGroup | ErrWrongConfig | ErrNotReady | ErrWrongLeader

  datatype OpType = OpGet | OpPut | OpAppend

  datatype Op = Op(key: string, value: string, opType: OpType, clientId: Client, seqId: int)

  datatype OpReply = OpReply(value: string, err: Err)

  datatype LastOperation = LastOperation(seqId: int, reply: OpReply)

  type DupTable = map<Client, LastOperation>

  datatype Shard = Shard(kv: Data, status: Status)

  datatype Group = Group(current: Config, prev: Config, shards: seq<Shard>, dup: DupTable)

  ghost predicate GroupOk(gr: Group) {
    |gr.shards| == |gr.current.shards| == |gr.prev.shards| == NShards
  }

  // ---- Client operations ----

  predicate MatchGroup(gid: int, gr: Group, key: string)
    requires GroupOk(gr)
  {
    var i := Key2Shard(key);
    gr.current.shards[i] == gid && (gr.shards[i].status == Normal || gr.shards[i].status == GC)
  }

  predicate RequestDuplicated(dup: DupTable, client: Client, seqId: int) {
    client in dup && seqId <= dup[client].seqId
  }

  function WriteOf(op: Op): Write {
    Write(op.clientId, op.seqId, op.key, op.value, op.opType == OpAppend)
  }

  /** The state machine of one shard. */
  function ApplyToShard(sh: Shard, op: Op): (Shard, OpReply) {
    match op.opType
    case OpGet => (sh, if op.key in sh.kv then OpReply(sh.kv[op.key], OK) else OpReply("", ErrNoKey))
    case OpPut => (sh.(kv := sh.kv[op.key := op.value]), OpReply("", OK))
    case OpAppend => (sh.(kv := sh.kv[op.key := Get(sh.kv, op.key) + op.value]), OpReply("", OK))
  }

  function ApplyClientOperation(gid: int, gr: Group, op: Op): (Group, OpReply)
    requires GroupOk(gr)
  {
    if !MatchGroup(gid, gr, op.key) then (gr, OpReply("", ErrWrongGroup))
    else if op.opType != OpGet && RequestDuplicated(gr.dup, op.clientId, op.seqId) then (gr, gr.dup[op.clientId].reply)
    else
      var i := Key2Shard(op.key);
      var (sh, reply) := ApplyToShard(gr.shards[i], op);
      (gr.(shards := gr.shards[i := sh],
           dup := if op.opType == OpGet then gr.dup else gr.dup[op.clientId := LastOperation(op.seqId, reply)]), reply)
  }

  /** The operation is a write that takes effect. */
  predicate Accepts(gid: int, gr: Group, op: Op)
    requires GroupOk(gr)
  {
    op.opType != OpGet && MatchGroup(gid, gr, op.key) && !RequestDuplicated(gr.dup, op.clientId, op.seqId)
  }

  // ---- Configuration changes ----

  function NewStatus(gid: int, from: int, to: int, st: Status): Status {
    if from == gid && to != gid && to != 0 then MoveOut
    else if from != gid && to == gid && from != 0 then MoveIn
    else st
  }

  function ApplyNewConfig(gid: int, gr: Group, config: Config): (Group, Err)
    requires GroupOk(gr) && |config.shards| == NShards
  {
    if gr.current.num + 1 == config.num then
      (Group(config, gr.current,
             seq(NShards, i requires 0 <= i < NShards =>
               gr.shards[i].(status := NewStatus(gid, gr.current.shards[i], config.shards[i], gr.shards[i].status))),
             gr.dup), OK)
    else (gr, ErrWrongConfig)
  }

  /** A configuration is taken exactly if it is the next one. Then a shard that comes from another group is awaited,
      one that goes to another group is to be handed over, and no data change; otherwise nothing changes. */
  lemma ConfigTakenWhen(gid: int, gr: Group, config: Config, i: nat)
    requires GroupOk(gr) && |config.shards| == NShards && i < NShards && gid != 0
    ensures var (gr', err) := ApplyNewConfig(gid, gr, config);
            var from, to := gr.current.shards[i], config.shards[i];
            && (err == OK <==> config.num == gr.current.num + 1) && (err != OK ==> err == ErrWrongConfig && gr' == gr)
            && (err == OK ==> gr'.current == config && gr'.prev == gr.current && gr'.dup == gr.dup)
            && gr'.shards[i].kv == gr.shards[i].kv
            && (err == OK && to == gid && from != gid && from != 0 ==> gr'.shards[i].status == MoveIn)
            && (err == OK && from == gid && to != gid && to != 0 ==> gr'.shards[i].status == MoveOut)
            && (from == to || from == 0 || to == 0 || (from != gid && to != gid) ==>
                  gr'.shards[i].status == gr.shards[i].status)
  {
  }

  predicate AllNormal(gr: Group) {
    forall i | 0 <= i < |gr.shards| :: gr.shards[i].status == Normal
  }

  // ---- Migration ----

  /** The shards of one earlier owner that have a status, among the first `n`. */
  function ShardsByStatus(gr: Group, status: Status, from: int, n: nat): (ids: seq<nat>)
    requires GroupOk(gr) && n <= NShards
    ensures Within(ids, n)
    ensures forall i: nat :: i in ids <==> i < n && gr.shards[i].status == status && gr.prev.shards[i] == from
    ensures forall i, j | 0 <= i < j < |ids| :: ids[i] < ids[j]
  {
    if n == 0 then []
    else if gr.shards[n - 1].status == status && gr.prev.shards[n - 1] == from then
      ShardsByStatus(gr, status, from, n - 1) + [n - 1]
    else ShardsByStatus(gr, status, from, n - 1)
  }

  datatype ShardData = ShardData(num: nat, data: map<nat, Data>, dup: DupTable)

  /** What a group answers when asked for shards; nothing while it is behind. */
  function GetShardsData(gr: Group, num: nat, ids: seq<nat>): (Err, ShardData)
    requires GroupOk(gr) && Within(ids, NShards)
  {
    if gr.current.num < num then (ErrNotReady, ShardData(num, map[], map[]))
    else (OK, ShardData(num, map i | i in ids :: gr.shards[i].kv, gr.dup))
  }

  /** A group answers exactly when it has reached the asked configuration, with what its shards hold; while it is
      behind it hands out nothing. */
  lemma AnswersWhenReached(gr: Group, num: nat, ids: seq<nat>)
    requires GroupOk(gr) && Within(ids, NShards)
    ensures var (err, d) := GetShardsData(gr, num, ids);
            && (err == OK <==> num <= gr.current.num) && (err != OK ==> err == ErrNotReady && d.data == map[])
            && (err == OK ==> forall i: nat :: i in d.data <==> i in ids)
            && (err == OK ==> d.num == num && d.dup == gr.dup && forall i | i in d.data :: d.data[i] == gr.shards[i].kv)
  {
  }

  ghost predicate Covers(data: map<nat, Data>, order: seq<nat>, n: nat) {
    forall k | 0 <= k < |order| :: order[k] in data && order[k] < n
  }

  ghost predicate Within(ids: seq<nat>, n: nat) {
    forall k | 0 <= k < |ids| :: ids[k] < n
  }

  /** Walk over the arrived shards in some order; the first that is not awaited ends it. */
  function TakeShards(shards: seq<Shard>, data: map<nat, Data>, order: seq<nat>): (r: seq<Shard>)
    requires Covers(data, order, |shards|)
    ensures |r| == |shards|
    decreases order
  {
    if order == [] then shards
    else
      var i := order[0];
      if shards[i].status == MoveIn then
        TakeShards(shards[i := Shard(shards[i].kv + data[i], GC)], data, order[1..])
      else shards
  }

  function MergeTables(a: DupTable, b: DupTable): DupTable {
    map c | c in a.Keys + b.Keys :: if c in b && (c !in a || a[c].seqId < b[c].seqId) then b[c] else a[c]
  }

  /** Of two tables, each client keeps the entry with the larger number, the first table's on a tie. */
  lemma MergedEntries(a: DupTable, b: DupTable, c: Client)
    ensures var m := MergeTables(a, b);
            && (c in m <==> c in a || c in b)
            && (c in a && (c !in b || b[c].seqId <= a[c].seqId) ==> m[c] == a[c])
            && (c in b && (c !in a || a[c].seqId < b[c].seqId) ==> m[c] == b[c])
  {
  }

  ghost predicate IsOrder(order: seq<nat>, data: map<nat, Data>) {
    && Covers(data, order, NShards) && (forall i | i in data :: i in order)
    && Distinct(order)
  }

  function ApplyShardMigration(gr: Group, d: ShardData, order: seq<nat>): Group
    requires GroupOk(gr) && IsOrder(order, d.data)
  {
    if d.num == gr.current.num then
      gr.(shards := TakeShards(gr.shards, d.data, order), dup := MergeTables(gr.dup, d.dup))
    else gr
  }

  // ---- Cleaning up ----

  function CleanShards(shards: seq<Shard>, ids: seq<nat>): (r: seq<Shard>)
    requires Within(ids, |shards|)
    ensures |r| == |shards|
    decreases ids
  {
    if ids == [] then shards
    else
      var i := ids[0];
      if shards[i].status == GC then CleanShards(shards[i := shards[i].(status := Normal)], ids[1..])
      else if shards[i].status == MoveOut then CleanShards(shards[i := Shard(map[], Normal)], ids[1..])
      else shards
  }

  function ApplyShardGC(gr: Group, num: nat, ids: seq<nat>): Group
    requires GroupOk(gr) && Within(ids, NShards)
  {
    if num == gr.current.num then gr.(shards := CleanShards(gr.shards, ids)) else gr
  }

  // ---- Shard by shard ----

  /** A walk leaves a shard alone or takes it, which it does only if it was awaited. */
  lemma {:induction false} TakeShardsAt(shards: seq<Shard>, data: map<nat, Data>, order: seq<nat>, i: nat)
    requires Covers(data, order, |shards|) && i < |shards|
    requires Distinct(order)
    ensures var sh := TakeShards(shards, data, order)[i];
            sh == shards[i] || (i in order && i in data && shards[i].status == MoveIn
                                && sh == Shard(shards[i].kv + data[i], GC))
    decreases order
  {
    if order != [] && shards[order[0]].status == MoveIn {
      var k := order[0];
      assert k !in order[1..];
      TakeShardsAt(shards[k := Shard(shards[k].kv + data[k], GC)], data, order[1..], i);
      if i == k {
        TakeShardsElse(shards[k := Shard(shards[k].kv + data[k], GC)], data, order[1..], i);
      }
    }
  }

  lemma {:induction false} TakeShardsElse(shards: seq<Shard>, data: map<nat, Data>, order: seq<nat>, i: nat)
    requires Covers(data, order, |shards|) && i < |shards| && i !in order
    ensures TakeShards(shards, data, order)[i] == shards[i]
    decreases order
  {
    if order != [] && shards[order[0]].status == MoveIn {
      var k := order[0];
      TakeShardsElse(shards[k := Shard(shards[k].kv + data[k], GC)], data, order[1..], i);
    }
  }

  /** Cleaning leaves a shard alone, or ends its move. */
  ghost function CleanShard(sh: Shard): Shard {
    Shard(if sh.status == MoveOut then map[] else sh.kv, Normal)
  }

  lemma {:induction false} CleanShardsAt(shards: seq<Shard>, ids: seq<nat>, i: nat)
    requires Within(ids, |shards|) && i < |shards|
    ensures var sh := CleanShards(shards, ids)[i];
            sh == shards[i] || (i in ids && (shards[i].status == GC || shards[i].status == MoveOut)
                                && sh == CleanShard(shards[i]))
    decreases ids
  {
    if ids != [] && (shards[ids[0]].status == GC || shards[ids[0]].status == MoveOut) {
      var k := ids[0];
      CleanShardsAt(shards[k := CleanShard(shards[k])], ids[1..], i);
    }
  }
}
