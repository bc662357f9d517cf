/** The replicated key/value server: whatever mix of commands, repeated commands, snapshots and restarts it
    goes through, it holds the deduplicated effect of the committed log. */
module KvServer {
  import opened MigrationCore
  import opened ShardGroup

  /** What a snapshot holds: the store and the duplicate table. */
  datatype Content = Content(kv: Data, dup: DupTable)

  function Empty(): Content {
    Content(map[], map[])
  }

  predicate IsWrite(op: Op) {
    op.opType != OpGet
  }

  function ApplyToStore(kv: Data, op: Op): (Data, OpReply) {
    match op.opType
    case OpGet => (kv, if op.key in kv then OpReply(kv[op.key], OK) else OpReply("", ErrNoKey))
    case OpPut => (kv[op.key := op.value], OpReply("", OK))
    case OpAppend => (kv[op.key := Get(kv, op.key) + op.value], OpReply("", OK))
  }

  /** One command. */
  function ApplyCommand(c: Content, op: Op): (Content, OpReply) {
    if IsWrite(op) && RequestDuplicated(c.dup, op.clientId, op.seqId) then (c, c.dup[op.clientId].reply)
    else
      var (kv, reply) := ApplyToStore(c.kv, op);
      (Content(kv, if IsWrite(op) then c.dup[op.clientId := LastOperation(op.seqId, reply)] else c.dup), reply)
  }

  /** The first `n` commands of the log, one after the other. */
  function Replay(log: seq<Op>, n: nat): Content
    requires n <= |log|
  {
    if n == 0 then Empty() else ApplyCommand(Replay(log, n - 1), log[n - 1]).0
  }

  // ---- What replaying computes ----

  /** A write with a larger number than all earlier writes of its client. */
  ghost predicate IsFresh(log: seq<Op>, i: nat)
    requires i < |log|
  {
    IsWrite(log[i]) && forall j | 0 <= j < i && IsWrite(log[j]) && log[j].clientId == log[i].clientId ::
      log[j].seqId < log[i].seqId
  }

  /** The writes that are not repetitions. */
  ghost function FreshWrites(log: seq<Op>, n: nat): seq<Write>
    requires n <= |log|
  {
    if n == 0 then [] else FreshWrites(log, n - 1) + (if IsFresh(log, n - 1) then [WriteOf(log[n - 1])] else [])
  }

  /** The table holds the largest number of each client's writes. */
  ghost predicate TableOf(dup: DupTable, log: seq<Op>, n: nat)
    requires n <= |log|
  {
    && (forall i | 0 <= i < n && IsWrite(log[i]) :: RequestDuplicated(dup, log[i].clientId, log[i].seqId))
    && (forall c | c in dup :: exists i | 0 <= i < n ::
        IsWrite(log[i]) && log[i].clientId == c && log[i].seqId == dup[c].seqId)
  }

  lemma FreshOrKnown(dup: DupTable, log: seq<Op>, n: nat)
    requires n < |log| && TableOf(dup, log, n) && IsWrite(log[n])
    ensures IsFresh(log, n) <==> !RequestDuplicated(dup, log[n].clientId, log[n].seqId)
  {
    var op := log[n];
    if !RequestDuplicated(dup, op.clientId, op.seqId) {
      forall j | 0 <= j < n && IsWrite(log[j]) && log[j].clientId == op.clientId ensures log[j].seqId < op.seqId {
        assert RequestDuplicated(dup, log[j].clientId, log[j].seqId);
      }
    }
  }

  lemma TableStep(c: Content, log: seq<Op>, n: nat)
    requires n < |log| && TableOf(c.dup, log, n)
    ensures TableOf(ApplyCommand(c, log[n]).0.dup, log, n + 1)
  {
    hide ApplyToStore;
    var dup, op := ApplyCommand(c, log[n]).0.dup, log[n];
    forall i | 0 <= i < n + 1 && IsWrite(log[i]) ensures RequestDuplicated(dup, log[i].clientId, log[i].seqId) {
      if i < n {
        assert RequestDuplicated(c.dup, log[i].clientId, log[i].seqId);
      }
    }
    forall k | k in dup ensures exists i | 0 <= i < n + 1 ::
      IsWrite(log[i]) && log[i].clientId == k && log[i].seqId == dup[k].seqId
    {
      if k in c.dup && dup[k] == c.dup[k] {
        var i :| 0 <= i < n && IsWrite(log[i]) && log[i].clientId == k && log[i].seqId == c.dup[k].seqId;
        assert 0 <= i < n + 1;
      } else {
        assert 0 <= n < n + 1 && IsWrite(log[n]) && log[n].clientId == k;
      }
    }
  }

  /** Replaying the log makes the store of its fresh writes, and a table of each client's largest number. */
  lemma {:induction false} ReplayIsDeduplicated(log: seq<Op>, n: nat)
    requires n <= |log|
    ensures Replay(log, n).kv == Fold(FreshWrites(log, n)) && TableOf(Replay(log, n).dup, log, n)
  {
    hide Fold, IsFresh, Put;
    if n == 0 {
      assert Fold([]) == map[] by { FoldNone(); }
    } else {
      ReplayIsDeduplicated(log, n - 1);
      var c, op := Replay(log, n - 1), log[n - 1];
      TableStep(c, log, n - 1);
      if IsWrite(op) {
        FreshOrKnown(c.dup, log, n - 1);
        FoldMore(FreshWrites(log, n - 1), WriteOf(op));
        PutOf(c.kv, op);
      } else {
        assert !IsFresh(log, n - 1) by { ReadNotFresh(log, n - 1); }
        assert FreshWrites(log, n - 1) + [] == FreshWrites(log, n - 1);
      }
      if !IsFresh(log, n - 1) {
        assert FreshWrites(log, n - 1) + [] == FreshWrites(log, n - 1);
      }
    }
  }

  lemma FoldNone()
    ensures Fold([]) == map[]
  {
  }

  lemma PutOf(kv: Data, op: Op)
    requires IsWrite(op)
    ensures ApplyToStore(kv, op).0 == Put(kv, WriteOf(op))
  {
  }

  lemma ReadNotFresh(log: seq<Op>, i: nat)
    requires i < |log| && !IsWrite(log[i])
    ensures !IsFresh(log, i)
  {
  }

  ghost predicate FromLog(log: seq<Op>, n: nat, w: Write)
    requires n <= |log|
  {
    exists i | 0 <= i < n :: IsWrite(log[i]) && WriteOf(log[i]) == w
  }

  /** No write of a client takes effect twice. */
  lemma {:induction false} FreshOnce(log: seq<Op>, n: nat)
    requires n <= |log|
    ensures OncePerClient(FreshWrites(log, n))
    ensures forall k | 0 <= k < |FreshWrites(log, n)| :: FromLog(log, n, FreshWrites(log, n)[k])
  {
    if n > 0 {
      FreshOnce(log, n - 1);
      var before, after := FreshWrites(log, n - 1), FreshWrites(log, n);
      forall k | 0 <= k < |after| ensures FromLog(log, n, after[k]) {
        if k < |before| {
          assert FromLog(log, n - 1, before[k]);
          var i :| 0 <= i < n - 1 && IsWrite(log[i]) && WriteOf(log[i]) == before[k];
          assert 0 <= i < n;
        } else {
          assert 0 <= n - 1 < n && WriteOf(log[n - 1]) == after[k];
        }
      }
      forall k | 0 <= k < |before| && before[k].client == log[n - 1].clientId && IsFresh(log, n - 1)
        ensures before[k].seqId < log[n - 1].seqId
      {
        assert FromLog(log, n - 1, before[k]);
        var i :| 0 <= i < n - 1 && IsWrite(log[i]) && WriteOf(log[i]) == before[k];
      }
    }
  }

  // ---- Repetition ----

  ghost function ApplyAll(c: Content, ops: seq<Op>): Content {
    if ops == [] then c else ApplyCommand(ApplyAll(c, ops[..|ops| - 1]), ops[|ops| - 1]).0
  }

  lemma KnownChangesNothing(c: Content, op: Op)
    requires !IsWrite(op) || RequestDuplicated(c.dup, op.clientId, op.seqId)
    ensures ApplyCommand(c, op).0 == c
  {
  }

  /** Replaying commands that were applied already, in any order and any number of times, changes nothing. */
  lemma {:induction false} ReplayedAgain(log: seq<Op>, n: nat, ops: seq<Op>)
    requires n <= |log| && forall k | 0 <= k < |ops| :: ops[k] in log[..n]
    ensures ApplyAll(Replay(log, n), ops) == Replay(log, n)
  {
    hide Replay, ApplyCommand;
    if ops != [] {
      var r, op := ops[..|ops| - 1], ops[|ops| - 1];
      ReplayedAgain(log, n, r);
      ReplayIsDeduplicated(log, n);
      var i :| 0 <= i < n && log[i] == op;
      KnownChangesNothing(Replay(log, n), op);
    }
  }

  // ---- Replies ----

  /** A write of the key that is no repetition is among the first `n` commands. */
  ghost predicate Wrote(log: seq<Op>, n: nat, key: string)
    requires n <= |log|
  {
    exists j | 0 <= j < n :: IsFresh(log, j) && log[j].key == key
  }

  lemma {:induction false} WroteKeys(log: seq<Op>, n: nat, key: string)
    requires n <= |log|
    ensures key in Fold(FreshWrites(log, n)) <==> Wrote(log, n, key)
  {
    hide IsFresh, Put;
    if n == 0 {
      FoldNone();
    } else {
      WroteKeys(log, n - 1, key);
      if IsFresh(log, n - 1) {
        FoldMore(FreshWrites(log, n - 1), WriteOf(log[n - 1]));
        PutKey(Fold(FreshWrites(log, n - 1)), WriteOf(log[n - 1]), key);
        assert 0 <= n - 1 < n;
      } else {
        assert FreshWrites(log, n - 1) + [] == FreshWrites(log, n - 1);
      }
      if Wrote(log, n - 1, key) {
        var j :| 0 <= j < n - 1 && IsFresh(log, j) && log[j].key == key;
        assert 0 <= j < n;
      }
    }
  }

  lemma PutKey(kv: Data, w: Write, key: string)
    ensures key in Put(kv, w) <==> key in kv || key == w.key
  {
  }

  /** A read after the first `n` commands of the log returns the value that their fresh writes give its key, and OK
      exactly if one of them wrote the key. */
  lemma ReadAnswers(log: seq<Op>, n: nat, op: Op)
    requires n <= |log| && op.opType == OpGet
    ensures var reply := ApplyCommand(Replay(log, n), op).1;
            && reply.value == Get(Fold(FreshWrites(log, n)), op.key)
            && reply.err == (if Wrote(log, n, op.key) then OK else ErrNoKey)
  {
    hide Fold, IsFresh, FreshWrites;
    ReplayIsDeduplicated(log, n);
    WroteKeys(log, n, op.key);
  }

  /** `j` is the last write of the client among the first `n` commands that is no repetition. */
  ghost predicate LastFresh(log: seq<Op>, n: nat, client: Client, j: nat)
    requires n <= |log|
  {
    && j < n && IsFresh(log, j) && log[j].clientId == client
    && forall k | j < k < n && log[k].clientId == client :: !IsFresh(log, k)
  }

  /** The table remembers, for each client, the reply to its last write that was no repetition. */
  lemma {:induction false} TableRemembers(log: seq<Op>, n: nat, client: Client) returns (j: nat)
    requires n <= |log| && client in Replay(log, n).dup
    ensures LastFresh(log, n, client, j)
    ensures Replay(log, n).dup[client] == LastOperation(log[j].seqId, ApplyCommand(Replay(log, j), log[j]).1)
  {
    hide IsFresh, ApplyToStore, Fold, FreshWrites, TableOf;
    if n == 0 {
      assert false;
    } else {
      var c, op := Replay(log, n - 1), log[n - 1];
      ReplayIsDeduplicated(log, n - 1);
      if IsWrite(op) {
        FreshOrKnown(c.dup, log, n - 1);
      } else {
        ReadNotFresh(log, n - 1);
      }
      if IsFresh(log, n - 1) && op.clientId == client {
        j := n - 1;
      } else {
        j := TableRemembers(log, n - 1, client);
      }
    }
  }

  /** A write is answered OK; one that repeats a number or brings an earlier one gets, without any effect, the reply
      that the client's last fresh write got. */
  lemma WriteAnswers(log: seq<Op>, n: nat, op: Op)
    requires n <= |log| && IsWrite(op)
    ensures ApplyCommand(Replay(log, n), op).1 == OpReply("", OK)
    ensures RequestDuplicated(Replay(log, n).dup, op.clientId, op.seqId) ==>
              && ApplyCommand(Replay(log, n), op).0 == Replay(log, n)
              && exists j: nat :: LastFresh(log, n, op.clientId, j) && op.seqId <= log[j].seqId
                                  && ApplyCommand(Replay(log, n), op).1 == ApplyCommand(Replay(log, j), log[j]).1
    decreases n
  {
    hide LastFresh, Replay;
    if RequestDuplicated(Replay(log, n).dup, op.clientId, op.seqId) {
      var j := TableRemembers(log, n, op.clientId);
      LastIsWrite(log, n, op.clientId, j);
      WriteAnswers(log, j, log[j]);
    }
  }

  lemma LastIsWrite(log: seq<Op>, n: nat, client: Client, j: nat)
    requires n <= |log| && LastFresh(log, n, client, j)
    ensures j < n && IsWrite(log[j])
  {
  }

  // ---- The server ----

  /** The snapshot a message or the disk holds; none if nothing was saved. */
  datatype Snapshot = NoSnapshot | Saved(content: Content)

  class KVServer {
    var stateMachine: Data
    var duplicateTable: DupTable
    var lastApplied: nat
    ghost var reached: nat          // how much of the log the store includes

    ghost function Abs(): Content
      reads this
    {
      Content(stateMachine, duplicateTable)
    }

    /** The server holds the effect of the log up to `reached`; after a restart, `lastApplied` may be behind. */
    ghost predicate Valid(log: seq<Op>)
      reads this
    {
      lastApplied <= reached <= |log| && Abs() == Replay(log, reached)
    }

    /** Start, or restart, from what is on disk: `lastApplied` starts from 0 again. */
    constructor (snapshot: Snapshot, ghost log: seq<Op>, ghost index: nat)
      requires index <= |log| && (snapshot.NoSnapshot? ==> index == 0)
               && (snapshot.Saved? ==> snapshot.content == Replay(log, index))
      ensures Valid(log) && reached == index && lastApplied == 0
    {
      lastApplied := 0;
      stateMachine, duplicateTable := map[], map[];
      reached := index;
      new;
      RestoreFromSnapshot(snapshot);
    }

    method RestoreFromSnapshot(snapshot: Snapshot)
      modifies this`stateMachine, this`duplicateTable
      ensures Abs() == if snapshot.Saved? then snapshot.content else old(Abs())
    {
      if snapshot.Saved? {
        stateMachine, duplicateTable := snapshot.content.kv, snapshot.content.dup;
      }
    }

    method RequestDuplicated(clientId: Client, seqId: int) returns (b: bool)
      ensures b == ShardGroup.RequestDuplicated(duplicateTable, clientId, seqId)
    {
      return clientId in duplicateTable && seqId <= duplicateTable[clientId].seqId;
    }

    method ApplyToStateMachine(op: Op) returns (reply: OpReply)
      modifies this`stateMachine
      ensures (stateMachine, reply) == ApplyToStore(old(stateMachine), op)
    {
      match op.opType
      case OpGet =>
        reply := if op.key in stateMachine then OpReply(stateMachine[op.key], OK) else OpReply("", ErrNoKey);
      case OpPut =>
        stateMachine := stateMachine[op.key := op.value];
        reply := OpReply("", OK);
      case OpAppend =>
        var before := if op.key in stateMachine then stateMachine[op.key] else "";
        stateMachine := stateMachine[op.key := before + op.value];
        reply := OpReply("", OK);
    }

    /** The command at `index` arrives: the next one, or one that was delivered before. */
    method OnCommand(index: nat, op: Op, ghost log: seq<Op>) returns (applied: bool, reply: OpReply)
      requires Valid(log) && 0 < index <= |log| && index <= reached + 1 && op == log[index - 1]
      modifies this
      ensures Valid(log) && reached == (if index == old(reached) + 1 then index else old(reached))
      ensures applied == (index > old(lastApplied)) && lastApplied == (if applied then index else old(lastApplied))
      ensures applied ==> reply == ApplyCommand(old(Abs()), op).1
      ensures applied && IsWrite(op) ==> reply == OpReply("", OK)
      ensures applied && !IsWrite(op) ==>
                && reply.value == Get(Fold(FreshWrites(log, old(reached))), op.key)
                && reply.err == (if Wrote(log, old(reached), op.key) then OK else ErrNoKey)
    {
      hide ApplyToStore, Fold, FreshWrites, Wrote, IsFresh;
      if index <= lastApplied {
        return false, OpReply("", OK);
      }
      lastApplied := index;
      ghost var before := Abs();
      var duplicated := RequestDuplicated(op.clientId, op.seqId);
      if op.opType != OpGet && duplicated {
        reply := duplicateTable[op.clientId].reply;
      } else {
        reply := ApplyToStateMachine(op);
        if op.opType != OpGet {
          duplicateTable := duplicateTable[op.clientId := LastOperation(op.seqId, reply)];
        }
      }
      assert (Abs(), reply) == ApplyCommand(before, op);
      if IsWrite(op) {
        WriteAnswers(log, reached, op);
      } else {
        ReadAnswers(log, reached, op);
      }
      if index == reached + 1 {
        reached := index;
      } else {
        ReplayIsDeduplicated(log, reached);
        KnownChangesNothing(before, op);
      }
      applied := true;
    }

    /** A snapshot message for the log up to `index` arrives, with data or without. Without data the store
        stays as it is and `lastApplied` moves all the same: the server goes on holding the effect of the log
        exactly when it had reached `index` already. */
    method OnSnapshot(snapshot: Snapshot, index: nat, ghost log: seq<Op>)
      requires Valid(log) && index <= |log| && (snapshot.Saved? ==> snapshot.content == Replay(log, index))
      modifies this
      ensures lastApplied == index && reached == (if snapshot.Saved? then index else old(reached))
      ensures Abs() == Replay(log, reached)
      ensures Valid(log) <==> snapshot.Saved? || index <= old(reached)
    {
      RestoreFromSnapshot(snapshot);
      lastApplied := index;
      if snapshot.Saved? {
        reached := index;
      }
    }

    /** A snapshot is the content at the index it is made for. */
    method MakeSnapshot(ghost log: seq<Op>) returns (snapshot: Snapshot)
      requires Valid(log)
      ensures snapshot == Saved(Replay(log, reached))
    {
      return Saved(Content(stateMachine, duplicateTable));
    }
  }

  // ---- Whole runs ----

  /** What can happen to a server. */
  datatype Event =
    | Deliver(index: nat)
    | Install(index: nat)
    | InstallNothing(index: nat)      // a snapshot message without data
    | Restart(index: nat)

  /** `told` is the index up to which Raft has delivered; `reached` is how much of the log the store includes. */
  datatype Server = Server(content: Content, lastApplied: nat, told: nat, reached: nat)

  /** Commands arrive without gaps; snapshots and restarts bring back the content of some index. */
  ghost predicate Happens(log: seq<Op>, s: Server, e: Event, s': Server) {
    match e
    case Deliver(i) =>
      && 0 < i <= |log| && i <= s.told + 1
      && var told := if i == s.told + 1 then i else s.told;
         s' == if i <= s.lastApplied then s.(told := told)
               else Server(ApplyCommand(s.content, log[i - 1]).0, i, told, if i == s.reached + 1 then i else s.reached)
    case Install(i) => i <= |log| && s' == Server(Replay(log, i), i, i, i)
    case InstallNothing(i) => i <= |log| && s' == s.(lastApplied := i, told := i)
    case Restart(i) => i <= |log| && s' == Server(Replay(log, i), 0, i, i)
  }

  ghost predicate IsRun(log: seq<Op>, run: seq<Server>, events: seq<Event>) {
    && |run| == |events| + 1 && run[0] == Server(Empty(), 0, 0, 0)
    && forall k | 0 <= k < |events| :: Happens(log, run[k], events[k], run[k + 1])
  }

  /** The server holds the effect of the log up to `reached`, and Raft has not gone on without it. */
  ghost predicate Sound(log: seq<Op>, s: Server) {
    s.lastApplied <= s.reached && s.told <= s.reached <= |log| && s.content == Replay(log, s.reached)
  }

  /** A snapshot message without data is for a part of the log that the server has. */
  predicate Harmless(s: Server, e: Event) {
    e.InstallNothing? ==> e.index <= s.reached
  }

  /** Of all events, only a snapshot message without data that is ahead of the server does damage. */
  lemma DamageExactly(log: seq<Op>, s: Server, e: Event, s': Server)
    requires Sound(log, s) && Happens(log, s, e, s')
    ensures Sound(log, s') <==> Harmless(s, e)
  {
    hide ApplyCommand;
    if e.Deliver? && s.lastApplied < e.index <= s.reached {
      KnownStays(log, s.reached, e.index);
    }
  }

  /** In every run without such a message the store and the table are those of a prefix of the log, applied
      once: its fresh writes. */
  lemma {:induction false} RunsReplayTheLog(log: seq<Op>, run: seq<Server>, events: seq<Event>, k: nat)
    requires IsRun(log, run, events) && k < |run| && forall j | 0 <= j < k :: Harmless(run[j], events[j])
    ensures run[k].lastApplied <= run[k].reached <= |log| && run[k].content == Replay(log, run[k].reached)
            && Sound(log, run[k])
    ensures run[k].content.kv == Fold(FreshWrites(log, run[k].reached))
            && TableOf(run[k].content.dup, log, run[k].reached)
  {
    hide Fold, TableOf, ApplyCommand, FreshWrites, Happens;
    if k > 0 {
      RunsReplayTheLog(log, run, events, k - 1);
      assert Happens(log, run[k - 1], events[k - 1], run[k - 1 + 1]);
      DamageExactly(log, run[k - 1], events[k - 1], run[k]);
    }
    ReplayIsDeduplicated(log, run[k].reached);
  }

  lemma KnownStays(log: seq<Op>, n: nat, i: nat)
    requires 0 < i <= n <= |log|
    ensures ApplyCommand(Replay(log, n), log[i - 1]).0 == Replay(log, n)
  {
    ReplayIsDeduplicated(log, n);
    KnownChangesNothing(Replay(log, n), log[i - 1]);
  }

  // ---- What such a message skips ----

  ghost predicate DeliversUpTo(events: seq<Event>, i: nat) {
    forall k | 0 <= k < |events| :: events[k].Deliver? && events[k].index <= i
  }

  /** After a snapshot message without data for the log up to `i`, no command up to `i` is applied any more. */
  lemma {:induction false} CommandsSkipped(log: seq<Op>, s: Server, i: nat, run: seq<Server>, events: seq<Event>)
    requires |run| == |events| + 1 && Happens(log, s, InstallNothing(i), run[0]) && DeliversUpTo(events, i)
    requires forall k | 0 <= k < |events| :: Happens(log, run[k], events[k], run[k + 1])
    ensures run[|events|].content == s.content && run[|events|].lastApplied == i
  {
    hide ApplyCommand;
    if events != [] {
      var n := |events| - 1;
      CommandsSkipped(log, s, i, run[..n + 1], events[..n]);
      assert Happens(log, run[n], events[n], run[n + 1]);
    }
  }

  /** Skipping a stretch of the log leaves a trace exactly when there is a write in it that is no repetition. */
  lemma SkippingShows(log: seq<Op>, r: nat, i: nat)
    requires r <= i <= |log|
    ensures Replay(log, i) != Replay(log, r) <==> exists j :: r <= j < i && IsFresh(log, j)
  {
    hide Replay, IsFresh;
    if j :| r <= j < i && IsFresh(log, j) {
      FreshShows(log, r, i, j);
    } else {
      NothingFresh(log, r, i);
    }
  }

  lemma FreshShows(log: seq<Op>, r: nat, i: nat, j: nat)
    requires r <= j < i <= |log| && IsFresh(log, j)
    ensures Replay(log, i).dup != Replay(log, r).dup
  {
    hide Replay;
    ReplayIsDeduplicated(log, i);
    ReplayIsDeduplicated(log, r);
    var c, dup := log[j].clientId, Replay(log, r).dup;
    if c in dup {
      var k :| 0 <= k < r && IsWrite(log[k]) && log[k].clientId == c && log[k].seqId == dup[c].seqId;
    }
    assert RequestDuplicated(Replay(log, i).dup, c, log[j].seqId);
  }

  lemma {:induction false} NothingFresh(log: seq<Op>, r: nat, i: nat)
    requires r <= i <= |log| && forall j | r <= j < i :: !IsFresh(log, j)
    ensures Replay(log, i) == Replay(log, r)
    decreases i
  {
    hide IsFresh, ApplyCommand;
    if r < i {
      NothingFresh(log, r, i - 1);
      ReplayIsDeduplicated(log, i - 1);
      if IsWrite(log[i - 1]) {
        FreshOrKnown(Replay(log, i - 1).dup, log, i - 1);
      }
      KnownChangesNothing(Replay(log, i - 1), log[i - 1]);
    }
  }

  /** A server that is told `i` without data, ahead of what it has reached, and then gets every command up to
      `i`: it lacks their effect exactly when one of those it had not reached is a write that is no repetition. */
  lemma EmptySnapshotLoses(log: seq<Op>, s: Server, i: nat, run: seq<Server>, events: seq<Event>)
    requires Sound(log, s) && s.reached < i <= |log| && DeliversUpTo(events, i)
    requires |run| == |events| + 1 && Happens(log, s, InstallNothing(i), run[0])
    requires forall k | 0 <= k < |events| :: Happens(log, run[k], events[k], run[k + 1])
    ensures run[|events|].content != Replay(log, i) <==> exists j :: s.reached <= j < i && IsFresh(log, j)
  {
    hide Replay, IsFresh, Happens;
    CommandsSkipped(log, s, i, run, events);
    SkippingShows(log, s.reached, i);
  }

  /** For instance the first write of all. */
  lemma FirstWriteLost(op: Op) returns (run: seq<Server>)
    requires IsWrite(op)
    ensures IsRun([op], run, [InstallNothing(1), Deliver(1)])
    ensures run[2].lastApplied == 1 && run[2].content == Empty() && op.key in Replay([op], 1).kv
  {
    var s := Server(Empty(), 1, 1, 0);
    run := [Server(Empty(), 0, 0, 0), s, s];
    assert Replay([op], 0) == Empty();
  }
}
