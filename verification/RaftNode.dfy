/** One Raft peer as a value: its fields, what it keeps on disk, and what each handler computes
    from them. The log is the uncompacted sequence; `snap` is the index of the last snapshot. */
module RaftNode {
  import opened RaftTypes

  datatype Role = Follower | Candidate | Leader

  datatype Disk = Disk(term: nat, votedFor: int, log: Log, snap: nat)

  datatype Node = Node(
    role: Role,
    term: nat,
    votedFor: int,         // -1 for none
    log: Log,
    snap: nat,             // last index covered by the snapshot
    next: seq<int>,
    matched: seq<nat>,
    commit: nat,
    applied: nat,
    standing: bool,        // the goroutine of the current election has not run yet
    votes: nat,            // its vote counter
    waiting: set<nat>,     // peers whose answers it still waits for
    disk: Disk)

  datatype VoteArgs = VoteArgs(term: nat, candidate: nat, lastIndex: int, lastTerm: nat)
  datatype VoteReply = VoteReply(term: nat, granted: bool)
  datatype AppendArgs = AppendArgs(term: nat, leader: nat, to: nat, prevIndex: nat, prevTerm: nat,
                                   entries: seq<Entry>, leaderCommit: nat)
  datatype AppendReply = AppendReply(term: nat, success: bool, conflictIndex: nat, conflictTerm: nat)

  /** The index of the last entry a message carries. */
  function End(a: AppendArgs): nat {
    a.prevIndex + |a.entries|
  }

  /** What a peer with nothing on disk starts from. */
  const Blank: Disk := Disk(1, -1, [Dummy], 0)

  /** A peer that has just read its disk. */
  function FromDisk(d: Disk, n: nat): Node {
    Node(Follower, d.term, d.votedFor, d.log, d.snap, seq(n, _ => 0), seq(n, _ => 0), d.snap, d.snap, false, 0, {}, d)
  }

  function Fresh(n: nat): Node {
    FromDisk(Blank, n)
  }

  /** What holds of every peer on its own: there is a log, the snapshot is inside it, and the
      disk holds what must survive a crash. */
  ghost predicate NodeOk(nd: Node) {
    && nd.log != [] && nd.snap < |nd.log| && nd.snap <= nd.commit
    && |nd.next| == |nd.matched| > 0
    && nd.disk == Disk(nd.term, nd.votedFor, nd.log, nd.snap)
  }

  function Persist(nd: Node): Node {
    nd.(disk := Disk(nd.term, nd.votedFor, nd.log, nd.snap))
  }

  /** Start over from the disk. */
  function Restart(nd: Node): Node {
    FromDisk(nd.disk, |nd.next|)
  }

  predicate ContextLost(nd: Node, role: Role, term: nat) {
    !(nd.term == term && nd.role == role)
  }

  function BecomeFollower(nd: Node, t: nat): Node {
    if t < nd.term then nd
    else if t > nd.term then Persist(nd.(role := Follower, votedFor := -1, term := t))
    else nd.(role := Follower)
  }

  function BecomeCandidate(nd: Node, me: nat): Node {
    if nd.role == Leader then nd
    else Persist(nd.(role := Candidate, term := nd.term + 1, votedFor := me, standing := true, votes := 0,
                     waiting := {}))
  }

  function BecomeLeader(nd: Node): Node {
    if nd.role != Candidate then nd
    else nd.(role := Leader, next := seq(|nd.next|, _ => |nd.log|), matched := seq(|nd.next|, _ => 0))
  }

  // ---- Elections ----

  /** The election goroutine of `term`: count the own vote and ask every other peer. */
  function StartElection(nd: Node, me: nat, term: nat): Node {
    if ContextLost(nd, Candidate, term) then nd
    else nd.(standing := false, votes := 1, waiting := Peers(|nd.next|) - {me})
  }

  function VoteRequest(nd: Node, me: nat): VoteArgs
    requires nd.log != []
  {
    VoteArgs(nd.term, me, LastIndex(nd.log), LastTerm(nd.log))
  }

  function OnRequestVote(nd: Node, a: VoteArgs): (Node, VoteReply)
    requires nd.log != []
  {
    if a.term < nd.term then (nd, VoteReply(nd.term, false))
    else
      var nd1 := if a.term > nd.term then BecomeFollower(nd, a.term) else nd;
      if nd1.votedFor != -1 || MoreUpToDate(nd1.log, a.lastIndex, a.lastTerm)
      then (nd1, VoteReply(nd.term, false))
      else (Persist(nd1.(votedFor := a.candidate)), VoteReply(nd.term, true))
  }

  function OnVoteReply(nd: Node, term: nat, peer: nat, r: VoteReply): Node {
    if r.term > nd.term then BecomeFollower(nd, r.term)
    else if ContextLost(nd, Candidate, term) then nd
    else
      var nd1 := nd.(waiting := nd.waiting - {peer});
      if !r.granted then nd1
      else
        var nd2 := nd1.(votes := nd1.votes + 1);
        if nd2.votes > |nd.next| / 2 then BecomeLeader(nd2) else nd2
  }

  // ---- Replication ----

  function Propose(nd: Node, cmd: Command): Node {
    if nd.role != Leader then nd
    else Persist(nd.(log := nd.log + [Entry(nd.term, true, cmd)]))
  }

  /** The message for `peer`, unless the entries it needs are in the snapshot. */
  predicate CanSend(nd: Node, peer: nat)
    requires peer < |nd.next|
  {
    nd.snap <= nd.next[peer] - 1 < |nd.log|
  }

  function MessageFor(nd: Node, me: nat, peer: nat): AppendArgs
    requires peer < |nd.next| && CanSend(nd, peer)
  {
    var prev := nd.next[peer] - 1;
    AppendArgs(nd.term, me, peer, prev, nd.log[prev].term, nd.log[prev + 1..], nd.commit)
  }

  /** The messages of one replication round, peer by peer. */
  function Messages(nd: Node, me: nat, upTo: nat): seq<AppendArgs>
    requires upTo <= |nd.next|
  {
    if upTo == 0 then []
    else
      Messages(nd, me, upTo - 1) +
      (if upTo - 1 != me && CanSend(nd, upTo - 1) then [MessageFor(nd, me, upTo - 1)] else [])
  }

  /** One round of the replication ticker of `term`. */
  function Replicate(nd: Node, me: nat, term: nat): (Node, seq<AppendArgs>)
    requires nd.log != [] && me < |nd.next| == |nd.matched|
  {
    if ContextLost(nd, Leader, term) then (nd, [])
    else
      var nd1 := nd.(matched := nd.matched[me := |nd.log| - 1], next := nd.next[me := |nd.log|]);
      (nd1, Messages(nd1, me, |nd.next|))
  }

  function OnAppend(nd: Node, a: AppendArgs): (Node, AppendReply)
    requires nd.log != [] && nd.snap < |nd.log|
  {
    if a.term < nd.term then (nd, AppendReply(nd.term, false, 0, 0))
    else
      var nd1 := BecomeFollower(nd, a.term);
      if a.prevIndex >= |nd1.log| then (nd1, AppendReply(nd.term, false, |nd1.log|, InvalidTerm))
      else if a.prevIndex < nd1.snap then (nd1, AppendReply(nd.term, false, nd1.snap, nd1.log[nd1.snap].term))
      else if nd1.log[a.prevIndex].term != a.prevTerm then
        var t := nd1.log[a.prevIndex].term;
        (nd1, AppendReply(nd.term, false, FirstForFrom(nd1.log, nd1.snap, t), t))
      else
        var nd2 := Persist(nd1.(log := nd1.log[..a.prevIndex + 1] + a.entries));
        var nd3 := if a.leaderCommit > nd2.commit then nd2.(commit := a.leaderCommit) else nd2;
        (nd3, AppendReply(nd.term, true, 0, 0))
  }

  /** Where a rejected leader probes next. */
  function NextProbe(nd: Node, peer: nat, r: AppendReply): int
    requires peer < |nd.next|
  {
    var first := FirstForFrom(nd.log, nd.snap, r.conflictTerm);
    var wanted := if r.conflictTerm == InvalidTerm then r.conflictIndex
                  else if first != InvalidIndex then first
                  else r.conflictIndex;
    if wanted > nd.next[peer] then nd.next[peer] else wanted
  }

  function OnAppendReply(nd: Node, a: AppendArgs, r: AppendReply): Node
    requires a.to < |nd.next| == |nd.matched|
    requires !ContextLost(nd, Leader, a.term) ==>
               End(a) < |nd.log| && forall p | 0 <= p < |nd.matched| :: nd.matched[p] < |nd.log|
  {
    if r.term > nd.term then BecomeFollower(nd, r.term)
    else if ContextLost(nd, Leader, a.term) then nd
    else if !r.success then nd.(next := nd.next[a.to := NextProbe(nd, a.to, r)])
    else
      var nd1 := nd.(matched := nd.matched[a.to := End(a)], next := nd.next[a.to := End(a) + 1]);
      var m := MajorityIndex(nd1.matched);
      MajorityMember(nd1.matched);
      if m > nd1.commit && nd1.log[m].term == nd1.term then nd1.(commit := m) else nd1
  }

  // ---- The service ----

  function Min(a: int, b: int): int {
    if a < b then a else b
  }

  /** Where delivery to the service resumes, and how far it can go. */
  function ApplyFrom(nd: Node): nat {
    if nd.applied < nd.snap then nd.snap else nd.applied
  }

  function ApplyEnd(nd: Node): nat
    requires nd.log != []
  {
    Min(nd.commit, |nd.log| - 1)
  }

  /** The entries to deliver: committed, present and not delivered yet. */
  function Pending(nd: Node): seq<Entry>
    requires nd.log != []
  {
    if ApplyEnd(nd) <= ApplyFrom(nd) then [] else nd.log[ApplyFrom(nd) + 1..ApplyEnd(nd) + 1]
  }

  function ApplyEntries(nd: Node): Node
    requires nd.log != []
  {
    nd.(applied := ApplyFrom(nd) + |Pending(nd)|)
  }

  function Snapshot(nd: Node, index: nat): Node {
    if index > nd.commit || index <= nd.snap then nd
    else Persist(nd.(snap := index))
  }

  // ---- The majority index ----

  function Insert(x: nat, s: seq<nat>): seq<nat> {
    if s == [] || x <= s[0] then [x] + s else [s[0]] + Insert(x, s[1..])
  }

  function Sort(s: seq<nat>): seq<nat> {
    if s == [] then [] else Insert(s[0], Sort(s[1..]))
  }

  /** The median-low of the match indices. */
  function MajorityIndex(matched: seq<nat>): nat
    requires matched != []
  {
    SortSize(matched);
    Sort(matched)[(|matched| - 1) / 2]
  }

  ghost predicate Ascending(s: seq<nat>) {
    forall i, j | 0 <= i <= j < |s| :: s[i] <= s[j]
  }

  lemma {:induction false} InsertSame(x: nat, s: seq<nat>)
    ensures multiset(Insert(x, s)) == multiset(s) + multiset{x} && |Insert(x, s)| == |s| + 1
  {
    if s != [] && x > s[0] {
      InsertSame(x, s[1..]);
      assert s == [s[0]] + s[1..];
    }
  }

  lemma {:induction false} InsertAscends(x: nat, s: seq<nat>)
    requires Ascending(s)
    ensures Ascending(Insert(x, s)) && |Insert(x, s)| == |s| + 1
    ensures Insert(x, s)[0] == if s == [] || x <= s[0] then x else s[0]
  {
    if s != [] && x > s[0] {
      InsertAscends(x, s[1..]);
    }
  }

  lemma {:induction false} SortSpec(s: seq<nat>)
    ensures Ascending(Sort(s)) && multiset(Sort(s)) == multiset(s) && |Sort(s)| == |s|
  {
    if s != [] {
      SortSpec(s[1..]);
      InsertSame(s[0], Sort(s[1..]));
      InsertAscends(s[0], Sort(s[1..]));
      assert s == [s[0]] + s[1..];
    }
  }

  lemma SortSize(s: seq<nat>)
    ensures |Sort(s)| == |s|
  {
    SortSpec(s);
  }

  lemma MajorityMember(matched: seq<nat>)
    requires matched != []
    ensures exists p :: 0 <= p < |matched| && matched[p] == MajorityIndex(matched)
  {
    SortSpec(matched);
    assert MajorityIndex(matched) in multiset(Sort(matched));
    assert MajorityIndex(matched) in multiset(matched);
  }

  /** How many entries of `s` are at least `m`. */
  function CountAtLeast(s: seq<nat>, m: nat): (r: nat)
    ensures r <= |s|
  {
    if s == [] then 0 else (if s[0] >= m then 1 else 0) + CountAtLeast(s[1..], m)
  }

  lemma {:induction false} CountInsert(x: nat, s: seq<nat>, m: nat)
    ensures CountAtLeast(Insert(x, s), m) == CountAtLeast(s, m) + (if x >= m then 1 else 0)
  {
    if s != [] && x > s[0] {
      CountInsert(x, s[1..], m);
      assert Insert(x, s)[1..] == Insert(x, s[1..]);
    } else {
      assert Insert(x, s)[1..] == s;
    }
  }

  lemma {:induction false} CountSort(s: seq<nat>, m: nat)
    ensures CountAtLeast(Sort(s), m) == CountAtLeast(s, m)
  {
    if s != [] {
      CountInsert(s[0], Sort(s[1..]), m);
      CountSort(s[1..], m);
    }
  }

  /** In an ascending sequence, counting from position `k` on. */
  lemma {:induction false} CountAscending(s: seq<nat>, k: nat, m: nat)
    requires Ascending(s) && k < |s|
    ensures m <= s[k] ==> CountAtLeast(s, m) >= |s| - k
    ensures s[k] < m ==> CountAtLeast(s, m) <= |s| - k - 1
  {
    if k > 0 {
      CountAscending(s[1..], k - 1, m);
    } else if |s| > 1 {
      CountAscending(s[1..], 0, m);
    }
  }

  ghost function Holders(s: seq<nat>, m: nat): set<nat> {
    set p | p in Peers(|s|) && s[p] >= m
  }

  lemma {:induction false} CountHolders(s: seq<nat>, m: nat)
    ensures |Holders(s, m)| == CountAtLeast(s, m)
  {
    hide Peers;
    if s == [] {
      assert Holders(s, m) == {};
    } else {
      var r := s[..|s| - 1];
      CountHolders(r, m);
      CountLast(s, m);
      assert Holders(s, m) == Holders(r, m) + (if s[|s| - 1] >= m then {|s| - 1} else {});
    }
  }

  lemma {:induction false} CountLast(s: seq<nat>, m: nat)
    requires s != []
    ensures CountAtLeast(s, m) == CountAtLeast(s[..|s| - 1], m) + (if s[|s| - 1] >= m then 1 else 0)
  {
    if |s| > 1 {
      CountLast(s[1..], m);
      assert s[..|s| - 1][1..] == s[1..][..|s| - 2];
    }
  }

  /** The majority index is the largest index a majority of the peers has matched. */
  lemma MajorityIndexSpec(matched: seq<nat>, m: nat)
    requires matched != []
    ensures m <= MajorityIndex(matched) <==> |Holders(matched, m)| > |matched| / 2
  {
    SortSpec(matched);
    CountSort(matched, m);
    CountHolders(matched, m);
    CountAscending(Sort(matched), (|matched| - 1) / 2, m);
  }
}
