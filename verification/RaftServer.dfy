/** A Raft peer as an object: its methods are the critical sections of the original, each shown to
    compute what RaftNode says of it. */
module RaftServer {
  import opened RaftTypes
  import opened RaftNode
  import opened RaftLogs

  /** Stable storage: what the last save wrote. */
  class Persister {
    var empty: bool
    var term: nat
    var votedFor: int
    var snapLastIdx: nat
    var snapLastTerm: nat
    var tailLog: seq<Entry>
    var snapshot: string
    ghost var full: Log

    ghost predicate Valid()
      reads this
    {
      !empty ==>
        && tailLog != []
        && snapLastIdx + |tailLog| == |full|
        && snapLastTerm == tailLog[0].term == full[snapLastIdx].term
        && tailLog[1..] == full[snapLastIdx + 1..]
    }

    ghost function Saved(): Disk
      reads this
    {
      if empty then Blank else Disk(term, votedFor, full, snapLastIdx)
    }
  }

  class Raft {
    const me: nat
    const n: nat
    const log: RaftLog
    const persister: Persister
    var role: Role
    var currentTerm: nat
    var votedFor: int
    var nextIndex: seq<int>
    var matchIndex: seq<nat>
    var commitIndex: nat
    var lastApplied: nat
    var standing: bool
    var votes: nat
    var waiting: set<nat>

    ghost predicate Valid()
      reads this, log, persister
    {
      && me < n
      && log.Valid() && persister.Valid() && log.snapLastIdx <= commitIndex
      && |nextIndex| == |matchIndex| == n
    }

    ghost function Abs(): Node
      reads this, log, persister
    {
      Node(role, currentTerm, votedFor, log.full, log.snapLastIdx, nextIndex, matchIndex, commitIndex, lastApplied,
           standing, votes, waiting, persister.Saved())
    }

    /** Make: start from what the persister holds, if anything. */
    constructor (n: nat, me: nat, persister: Persister)
      requires me < n && persister.Valid()
      ensures Valid() && fresh(log) && this.me == me && this.n == n && this.persister == persister
      ensures Abs() == FromDisk(persister.Saved(), n)
      ensures !persister.empty ==> log.snapshot == persister.snapshot
    {
      this.me, this.n, this.persister := me, n, persister;
      this.log := new RaftLog(InvalidIndex, InvalidTerm, "", [], [Dummy]);
      role, currentTerm, votedFor := Follower, 1, -1;
      nextIndex, matchIndex := seq(n, _ => 0), seq(n, _ => 0);
      commitIndex, lastApplied := 0, 0;
      standing, votes, waiting := false, 0, {};
      new;
      assert [Dummy] + [] == [Dummy];
      ReadPersist();
    }

    method ReadPersist()
      requires Valid() && commitIndex == lastApplied == 0 && log.snapLastIdx == 0
      requires currentTerm == 1 && votedFor == -1 && log.full == [Dummy]
      modifies this`currentTerm, this`votedFor, this`commitIndex, this`lastApplied, log
      ensures Valid() && Abs() == old(Abs()).(term := persister.Saved().term, votedFor := persister.Saved().votedFor,
                                              log := persister.Saved().log, snap := persister.Saved().snap,
                                              commit := persister.Saved().snap, applied := persister.Saved().snap)
      ensures !persister.empty ==> log.snapshot == persister.snapshot
    {
      if persister.empty {
        return;
      }
      currentTerm := persister.term;
      votedFor := persister.votedFor;
      log.snapLastIdx := persister.snapLastIdx;
      log.snapLastTerm := persister.snapLastTerm;
      log.tailLog := persister.tailLog;
      log.snapshot := persister.snapshot;
      log.full := persister.full;
      if log.snapLastIdx > commitIndex {
        commitIndex := log.snapLastIdx;
        lastApplied := log.snapLastIdx;
      }
    }

    method PersistLocked()
      requires Valid()
      modifies persister
      ensures Valid() && Abs() == Persist(old(Abs()))
      ensures !persister.empty && persister.snapshot == log.snapshot && persister.snapLastIdx == log.snapLastIdx
    {
      persister.empty := false;
      persister.term := currentTerm;
      persister.votedFor := votedFor;
      persister.snapLastIdx := log.snapLastIdx;
      persister.snapLastTerm := log.snapLastTerm;
      persister.tailLog := log.tailLog;
      persister.snapshot := log.snapshot;
      persister.full := log.full;
    }

    method BecomeFollowerLocked(term: nat)
      requires Valid()
      modifies this, persister
      ensures Valid() && Abs() == BecomeFollower(old(Abs()), term)
    {
      if term < currentTerm {
        return;
      }
      role := Follower;
      var shouldPersist := currentTerm != term;
      if term > currentTerm {
        votedFor := -1;
      }
      currentTerm := term;
      if shouldPersist {
        PersistLocked();
      }
    }

    method BecomeCandidateLocked()
      requires Valid()
      modifies this, persister
      ensures Valid() && Abs() == BecomeCandidate(old(Abs()), me)
    {
      hide RaftLog.Valid, Persister.Valid, Persister.Saved;
      if role == Leader {
        return;
      }
      currentTerm := currentTerm + 1;
      role := Candidate;
      votedFor := me;
      standing, votes, waiting := true, 0, {};
      PersistLocked();
    }

    method BecomeLeaderLocked()
      requires Valid()
      modifies this
      ensures Valid() && Abs() == BecomeLeader(old(Abs()))
    {
      if role != Candidate {
        return;
      }
      role := Leader;
      var peer := 0;
      while peer < n
        invariant 0 <= peer <= n && |nextIndex| == |matchIndex| == n
        invariant forall p | 0 <= p < peer :: nextIndex[p] == log.Size() && matchIndex[p] == 0
        modifies this`nextIndex, this`matchIndex
      {
        nextIndex := nextIndex[peer := log.Size()];
        matchIndex := matchIndex[peer := 0];
        peer := peer + 1;
      }
      ghost var size := log.Size();
      assert nextIndex == seq(n, _ => size);
      assert matchIndex == seq(n, _ => 0);
    }

    function ContextLostLocked(role: Role, term: nat): (lost: bool)
      reads this, log, persister
      ensures lost == ContextLost(Abs(), role, term)
    {
      !(currentTerm == term && this.role == role)
    }

    method Start(command: Command) returns (index: int, term: nat, isLeader: bool)
      requires Valid()
      modifies log, persister
      ensures Valid() && Abs() == Propose(old(Abs()), command)
      ensures isLeader == (role == Leader)
      ensures isLeader ==> index == LastIndex(log.full) && term == currentTerm
      ensures !isLeader ==> index == 0 && term == 0
    {
      if role != Leader {
        return 0, 0, false;
      }
      log.Append(Entry(currentTerm, true, command));
      PersistLocked();
      return log.Size() - 1, currentTerm, true;
    }

    // ---- Elections ----

    function IsMoreUpToDateLocked(candidateIndex: int, candidateTerm: nat): (r: bool)
      requires Valid()
      reads this, log, persister
      ensures r == MoreUpToDate(log.full, candidateIndex, candidateTerm)
    {
      var (lastIndex, lastTerm) := log.Last();
      if lastTerm != candidateTerm then lastTerm > candidateTerm else lastIndex > candidateIndex
    }

    method RequestVote(args: VoteArgs) returns (reply: VoteReply)
      requires Valid()
      modifies this, persister
      ensures Valid() && (Abs(), reply) == OnRequestVote(old(Abs()), args)
      ensures reply.term == old(currentTerm)
      ensures reply.granted <==>
                && (args.term > old(currentTerm) || (args.term == old(currentTerm) && old(votedFor) == -1))
                && !MoreUpToDate(log.full, args.lastIndex, args.lastTerm)
    {
      hide RaftLog.Valid, Persister.Valid, Persister.Saved;
      reply := VoteReply(currentTerm, false);
      if args.term < currentTerm {
        return;
      }
      if args.term > currentTerm {
        BecomeFollowerLocked(args.term);
      }
      if votedFor != -1 {
        return;
      }
      if IsMoreUpToDateLocked(args.lastIndex, args.lastTerm) {
        return;
      }
      reply := reply.(granted := true);
      votedFor := args.candidate;
      PersistLocked();
    }

    /** The election goroutine: the own vote is counted and every other peer is asked. */
    method RunElection(term: nat) returns (asked: set<nat>, args: VoteArgs)
      requires Valid()
      modifies this
      ensures Valid() && Abs() == StartElection(old(Abs()), me, term)
      ensures asked == if ContextLost(old(Abs()), Candidate, term) then {} else Peers(n) - {me}
      ensures args == VoteRequest(Abs(), me)
    {
      hide RaftLog.Valid, Persister.Valid, Persister.Saved, Peers;
      var (lastIdx, lastTerm) := log.Last();
      args := VoteArgs(currentTerm, me, lastIdx, lastTerm);
      if ContextLostLocked(Candidate, term) {
        return {}, args;
      }
      var count;
      asked, count := AskOthers(n, me);
      standing, votes, waiting := false, count, asked;
    }

    /** Every other peer is asked; the own vote counts. */
    static method AskOthers(n: nat, me: nat) returns (asked: set<nat>, votes: nat)
      requires me < n
      ensures asked == Peers(n) - {me} && votes == 1
    {
      hide Peers;
      asked, votes := {}, 0;
      var peer := 0;
      while peer < n
        invariant 0 <= peer <= n
        invariant votes == if me < peer then 1 else 0
        invariant forall p :: p in asked <==> 0 <= p < peer && p != me
      {
        if peer == me {
          votes := votes + 1;
        } else {
          asked := asked + {peer};
        }
        peer := peer + 1;
      }
      assert asked == Peers(n) - {me};
    }

    /** What the caller of one RequestVote does with the answer. */
    method HandleVoteReply(term: nat, peer: nat, reply: VoteReply)
      requires Valid()
      modifies this, persister
      ensures Valid() && Abs() == OnVoteReply(old(Abs()), term, peer, reply)
    {
      if reply.term > currentTerm {
        BecomeFollowerLocked(reply.term);
        return;
      }
      if ContextLostLocked(Candidate, term) {
        return;
      }
      waiting := waiting - {peer};
      if reply.granted {
        votes := votes + 1;
        if votes > n / 2 {
          BecomeLeaderLocked();
        }
      }
    }

    // ---- Replication ----

    /** Whether the log fits the call's `prevIndex`, and if not, the hint for the leader. */
    method CheckPrev(args: AppendArgs) returns (ok: bool, index: nat, term: nat)
      requires Valid()
      ensures ok ==> log.snapLastIdx <= args.prevIndex < |log.full|
      ensures ok <==> log.snapLastIdx <= args.prevIndex < |log.full| && log.full[args.prevIndex].term == args.prevTerm
      ensures ok || (index, term) == (
                if args.prevIndex >= |log.full| then (|log.full|, InvalidTerm)
                else if args.prevIndex < log.snapLastIdx then (log.snapLastIdx, log.full[log.snapLastIdx].term)
                else (FirstForFrom(log.full, log.snapLastIdx, log.full[args.prevIndex].term),
                      log.full[args.prevIndex].term))
    {
      hide FirstForFrom;
      if args.prevIndex >= log.Size() {
        return false, log.Size(), InvalidTerm;
      }
      if args.prevIndex < log.snapLastIdx {
        return false, log.snapLastIdx, log.snapLastTerm;
      }
      term := log.At(args.prevIndex).term;
      if term != args.prevTerm {
        index := log.FirstFor(term);
        return false, index, term;
      }
      return true, 0, 0;
    }

    /** Replace everything after `prevIndex` and follow the leader's commit index. */
    method TakeEntries(args: AppendArgs)
      requires Valid() && log.snapLastIdx <= args.prevIndex < |log.full|
      modifies this`commitIndex, log, persister
      ensures Valid()
      ensures Abs() == Persist(old(Abs()).(log := old(log.full)[..args.prevIndex + 1] + args.entries))
                         .(commit := if args.leaderCommit > old(commitIndex) then args.leaderCommit
                           else old(commitIndex))
    {
      log.AppendFrom(args.prevIndex, args.entries);
      PersistLocked();
      if args.leaderCommit > commitIndex {
        commitIndex := args.leaderCommit;
      }
    }

    method AppendEntries(args: AppendArgs) returns (reply: AppendReply)
      requires Valid()
      modifies this, log, persister
      ensures Valid() && (Abs(), reply) == OnAppend(old(Abs()), args)
      ensures reply.term == old(currentTerm)
    {
      hide FirstForFrom, Valid;
      reply := AppendReply(currentTerm, false, 0, 0);
      if args.term < currentTerm {
        return;
      }
      BecomeFollowerLocked(args.term);
      var ok, index, term := CheckPrev(args);
      if !ok {
        reply := reply.(conflictTerm := term, conflictIndex := index);
        return;
      }
      TakeEntries(args);
      reply := reply.(success := true);
    }

    /** The largest index a majority has matched. */
    method GetMajorityIndexLocked() returns (i: nat)
      requires Valid()
      ensures i == MajorityIndex(matchIndex)
      ensures forall m: nat :: m <= i <==> |Holders(matchIndex, m)| > n / 2
    {
      var tmpIndexes := Sort(matchIndex);
      SortSize(matchIndex);
      i := tmpIndexes[(n - 1) / 2];
      forall m: nat ensures m <= i <==> |Holders(matchIndex, m)| > n / 2 {
        MajorityIndexSpec(matchIndex, m);
      }
    }

    /** The call for one peer: the leader's whole log above the peer's `nextIndex`. */
    function CallFor(peer: nat): (m: AppendArgs)
      requires Valid() && peer < n && log.snapLastIdx <= nextIndex[peer] - 1 < log.Size()
      reads this, log, persister
      ensures CanSend(Abs(), peer) && m == MessageFor(Abs(), me, peer)
    {
      var prevIdx := nextIndex[peer] - 1;
      AppendArgs(currentTerm, me, peer, prevIdx, log.At(prevIdx).term, log.Tail(prevIdx + 1), commitIndex)
    }

    /** One replication round: the calls to make, and the peers that need the snapshot instead. */
    method StartReplication(term: nat) returns (ok: bool, calls: seq<AppendArgs>, installs: set<nat>)
      requires Valid()
      requires !ContextLost(Abs(), Leader, term) ==> forall p | 0 <= p < n :: nextIndex[p] <= log.Size()
      modifies this`nextIndex, this`matchIndex
      ensures Valid() && (Abs(), calls) == Replicate(old(Abs()), me, term)
      ensures ok == !ContextLost(old(Abs()), Leader, term)
      ensures forall p :: p in installs <==> ok && 0 <= p < n && p != me && nextIndex[p] - 1 < log.snapLastIdx
    {
      hide Persister.Valid, Persister.Saved, Messages;
      if ContextLostLocked(Leader, term) {
        return false, [], {};
      }
      matchIndex := matchIndex[me := log.Size() - 1];
      nextIndex := nextIndex[me := log.Size()];
      calls, installs := CallOthers();
      return true, calls, installs;
    }

    /** A call for each other peer, or a snapshot for one that needs entries below it. */
    method CallOthers() returns (calls: seq<AppendArgs>, installs: set<nat>)
      requires Valid() && forall p | 0 <= p < n :: nextIndex[p] <= log.Size()
      ensures calls == Messages(Abs(), me, n)
      ensures forall p :: p in installs <==> 0 <= p < n && p != me && nextIndex[p] - 1 < log.snapLastIdx
    {
      hide RaftLog.Valid, Persister.Valid, Persister.Saved;
      ghost var nd := Abs();
      calls, installs := [], {};
      var peer := 0;
      while peer < n
        invariant 0 <= peer <= n && calls == Messages(nd, me, peer)
        invariant forall p :: p in installs <==> 0 <= p < peer && p != me && nextIndex[p] - 1 < log.snapLastIdx
      {
        if peer != me {
          if nextIndex[peer] - 1 < log.snapLastIdx {
            installs := installs + {peer};
          } else {
            calls := calls + [CallFor(peer)];
          }
        }
        peer := peer + 1;
      }
    }

    /** Move the probe after a rejection; a late rejection must not move it forward. */
    method LowerProbe(peer: nat, reply: AppendReply)
      requires Valid() && peer < n
      modifies this`nextIndex
      ensures Valid() && nextIndex == old(nextIndex)[peer := NextProbe(old(Abs()), peer, reply)]
    {
      hide FirstForFrom;
      var prevIndex := nextIndex[peer];
      var next: int := reply.conflictIndex;
      if reply.conflictTerm != InvalidTerm {
        var firstIndex := log.FirstFor(reply.conflictTerm);
        if firstIndex != InvalidIndex {
          next := firstIndex;
        }
      }
      if next > prevIndex {
        next := prevIndex;
      }
      nextIndex := nextIndex[peer := next];
    }

    /** Record a success and commit what a majority has matched, if it is of this term. */
    method MarkMatched(peer: nat, end: nat)
      requires Valid() && peer < n && end < log.Size() && forall p | 0 <= p < n :: matchIndex[p] < log.Size()
      modifies this`matchIndex, this`nextIndex, this`commitIndex
      ensures Valid() && matchIndex == old(matchIndex)[peer := end] && nextIndex == old(nextIndex)[peer := end + 1]
      ensures var m := MajorityIndex(matchIndex);
              && m < |log.full|
              && commitIndex == if m > old(commitIndex) && log.full[m].term == currentTerm then m else old(commitIndex)
    {
      hide MajorityIndex, Holders;
      matchIndex := matchIndex[peer := end];
      nextIndex := nextIndex[peer := matchIndex[peer] + 1];
      var majorityMatched := GetMajorityIndexLocked();
      MajorityMember(matchIndex);
      if majorityMatched > commitIndex && log.At(majorityMatched).term == currentTerm {
        commitIndex := majorityMatched;
      }
    }

    /** What the caller of one AppendEntries does with the answer. */
    method HandleAppendReply(args: AppendArgs, reply: AppendReply)
      requires Valid() && args.to < n
      requires !ContextLost(Abs(), Leader, args.term) ==>
                 End(args) < log.Size() && forall p | 0 <= p < n :: matchIndex[p] < log.Size()
      modifies this, persister
      ensures Valid() && Abs() == OnAppendReply(old(Abs()), args, reply)
    {
      hide MajorityIndex, NextProbe;
      if reply.term > currentTerm {
        BecomeFollowerLocked(reply.term);
        return;
      }
      if ContextLostLocked(Leader, args.term) {
        return;
      }
      if !reply.success {
        LowerProbe(args.to, reply);
      } else {
        MarkMatched(args.to, End(args));
      }
    }

    // ---- The service ----

    /** The entries to deliver next, in index order. */
    method TakeCommitted() returns (entries: seq<Entry>)
      requires Valid()
      modifies this`lastApplied
      ensures Valid() && Abs() == ApplyEntries(old(Abs())) && entries == Pending(old(Abs()))
      ensures var from := if old(lastApplied) < log.snapLastIdx then log.snapLastIdx else old(lastApplied);
              var last := if commitIndex < |log.full| then commitIndex else |log.full| - 1;
              && |entries| == (if from < last then last - from else 0) && lastApplied == from + |entries|
              && forall k | 0 <= k < |entries| :: from + 1 + k <= commitIndex && entries[k] == log.full[from + 1 + k]
    {
      hide RaftLog.Valid, Persister.Valid, Persister.Saved;
      if lastApplied < log.snapLastIdx {
        lastApplied := log.snapLastIdx;
      }
      assert lastApplied == old(ApplyFrom(Abs()));
      entries := [];
      var start, end := lastApplied + 1, commitIndex;
      if end >= log.Size() {
        end := log.Size() - 1;
      }
      if start <= end {
        entries := log.Range(start, end);
      }
      lastApplied := lastApplied + |entries|;
    }

    method TakeSnapshot(index: nat, snapshot: string)
      requires Valid() && (index <= commitIndex ==> index < log.Size())
      modifies this, log, persister
      ensures Valid() && Abs() == Snapshot(old(Abs()), index)
      ensures if old(log.snapLastIdx) < index <= commitIndex then
                !persister.empty && log.snapshot == persister.snapshot == snapshot && persister.snapLastIdx == index
              else log.snapshot == old(log.snapshot) && persister.snapshot == old(persister.snapshot)
    {
      if index > commitIndex || index <= log.snapLastIdx {
        return;
      }
      log.DoSnapshot(index, snapshot);
      PersistLocked();
    }
  }
}
