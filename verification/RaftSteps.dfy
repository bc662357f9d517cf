/** Every step of a peer, as steps of the core. */
module RaftSteps {
  import opened RaftTypes
  import opened RaftNode
  import opened RaftProtocol
  import opened RaftCore
  import opened RaftInvariant

  // ---- Terms ----

  /** The core after peer `v` aligned its term with `t`. */
  ghost function Aligned(c: Core, v: nat, t: nat): Core
    requires v < |c.terms|
  {
    if c.terms[v] < t then Bump(c, v, t) else c
  }

  lemma AlignedOk(c: Core, v: nat, t: nat)
    requires Basic(c) && v < |c.terms|
    ensures Basic(Aligned(c, v, t)) && Local(c, Aligned(c, v, t), v)
  {
    hide LogsOk, LeadersOk, AcksOk, BallotsOk;
    if c.terms[v] < t {
      BumpBasic(c, v, t);
      BumpLocal(c, v, t);
    } else {
      LocalRefl(c, v);
    }
  }

  lemma FollowerLinked(c: Core, v: nat, nd: Node, t: nat)
    requires Basic(c) && NodeLinked(c, v, nd) && nd.term <= t
    ensures NodeLinked(Aligned(c, v, t), v, BecomeFollower(nd, t))
  {
    hide LogsOk, LeadersOk, AcksOk;
  }

  // ---- Elections ----

  lemma TimeoutLinked(c: Core, v: nat, nd: Node)
    requires Basic(c) && NodeLinked(c, v, nd) && nd.role != Leader
    ensures CanStand(c, v) && NodeLinked(Stand(c, v), v, BecomeCandidate(nd, v))
  {
    hide LogsOk, AcksOk;
    var t := nd.term + 1;
    assert t in c.leader ==> LeaderOk(c, t);
  }

  lemma RunElectionLinked(c: Core, v: nat, nd: Node)
    requires Basic(c) && NodeLinked(c, v, nd)
    ensures NodeLinked(c, v, StartElection(nd, v, nd.term))
    ensures nd.role == Candidate ==> VoteReqLinked(c, VoteRequest(nd, v))
  {
    hide LogsOk, AcksOk, LeadersOk;
    if nd.role == Candidate {
      SubsetSize({v}, Won(c, nd.term, v, Peers(|nd.next|) - {v}));
    }
  }

  ghost function VotedCore(c: Core, v: nat, nd: Node, m: VoteArgs): Core
    requires nd.log != [] && v < |c.terms|
  {
    var c1 := Aligned(c, v, m.term);
    if OnRequestVote(nd, m).1.granted then Vote(c1, v, m.term, m.candidate) else c1
  }

  lemma CanVoteWhenGranted(c: Core, v: nat, nd: Node, m: VoteArgs)
    requires Basic(c) && NodeLinked(c, v, nd) && VoteReqLinked(c, m) && v != m.candidate
    requires OnRequestVote(nd, m).1.granted
    ensures CanVote(Aligned(c, v, m.term), v, m.term, m.candidate)
  {
    hide LogsOk, AcksOk, LeadersOk;
  }

  lemma VoteLinked(c: Core, v: nat, nd: Node, m: VoteArgs)
    requires Basic(c) && NodeLinked(c, v, nd) && VoteReqLinked(c, m) && v != m.candidate
    ensures var c' := VotedCore(c, v, nd, m);
            && Basic(c') && Local(c, c', v) && NodeLinked(c', v, OnRequestVote(nd, m).0)
            && VoteRepLinked(c', VoteRep(m.term, m.candidate, v, OnRequestVote(nd, m).1))
  {
    hide ShapeOk, LogsOk, AcksOk, LeadersOk, BallotsOk, VoteReqLinked, MoreUpToDate;
    var c1 := Aligned(c, v, m.term);
    AlignedOk(c, v, m.term);
    if m.term >= nd.term {
      FollowerLinked(c, v, nd, m.term);
    }
    if OnRequestVote(nd, m).1.granted {
      CanVoteWhenGranted(c, v, nd, m);
      VoteBasic(c1, v, m.term, m.candidate);
      VoteNode(c1, v, if m.term > nd.term then BecomeFollower(nd, m.term) else nd, m.candidate);
      LocalVote(c, c1, v, m.term, m.candidate);
    }
  }

  lemma LocalVote(c: Core, c1: Core, v: nat, t: nat, d: nat)
    requires Local(c, c1, v) && Basic(c1) && CanVote(c1, v, t, d)
    ensures Local(c, Vote(c1, v, t, d), v)
  {
    hide LogsOk, AcksOk, LeadersOk, BallotsOk, Local;
    VoteLocal(c1, v, t, d);
    LocalTrans(c, c1, Vote(c1, v, t, d), v);
  }

  lemma VoteNode(c: Core, v: nat, nd: Node, d: nat)
    requires Basic(c) && NodeLinked(c, v, nd) && CanVote(c, v, nd.term, d)
    ensures NodeLinked(Vote(c, v, nd.term, d), v, Persist(nd.(votedFor := d)))
  {
    hide LogsOk, AcksOk, LeadersOk, MoreUpToDate, Won;
    WonGrows(c, Vote(c, v, nd.term, d), nd.term, v, nd.waiting, nd.waiting);
  }

  // The candidate's side.

  ghost function CountedCore(c: Core, v: nat, nd: Node, term: nat, peer: nat, r: VoteReply): Core
    requires Basic(c) && NodeLinked(c, v, nd)
    requires r.granted ==> (term, peer) in c.ballots && c.ballots[(term, peer)] == v
    requires term == nd.term ==> peer in nd.waiting
  {
    if r.term > nd.term then Aligned(c, v, r.term)
    else if OnVoteReply(nd, term, peer, r).role == Leader && nd.role == Candidate then
      CanElectWhenCounted(c, v, nd, peer, r);
      Elect(c, v, nd.term, Won(c, nd.term, v, nd.waiting - {peer}))
    else c
  }

  lemma CountBallot(c: Core, v: nat, nd: Node, peer: nat)
    requires Basic(c) && NodeLinked(c, v, nd) && nd.role == Candidate && peer in nd.waiting
    requires (nd.term, peer) in c.ballots && c.ballots[(nd.term, peer)] == v
    ensures nd.votes + 1 <= |Won(c, nd.term, v, nd.waiting - {peer})|
  {
    hide LogsOk, AcksOk, LeadersOk;
    SubsetSize(Won(c, nd.term, v, nd.waiting) + {peer}, Won(c, nd.term, v, nd.waiting - {peer}));
  }

  lemma CanElectWhenCounted(c: Core, v: nat, nd: Node, peer: nat, r: VoteReply)
    requires Basic(c) && NodeLinked(c, v, nd) && nd.role == Candidate && peer in nd.waiting
    requires r.granted ==> (nd.term, peer) in c.ballots && c.ballots[(nd.term, peer)] == v
    requires r.term <= nd.term && OnVoteReply(nd, nd.term, peer, r).role == Leader
    ensures CanElect(c, v, nd.term, Won(c, nd.term, v, nd.waiting - {peer}))
  {
    hide LogsOk, AcksOk, LeadersOk, BallotsOk;
    var q := Won(c, nd.term, v, nd.waiting - {peer});
    CountBallot(c, v, nd, peer);
    if nd.term in c.leader {
      OneWinner(c, v, nd.term, q);
      assert false;
    }
  }

  lemma ElectNode(c: Core, v: nat, nd: Node, q: set<nat>)
    requires Basic(c) && NodeLinked(c, v, nd) && nd.role == Candidate && CanElect(c, v, nd.term, q)
    ensures NodeLinked(Elect(c, v, nd.term, q), v, BecomeLeader(nd))
  {
    hide LogsOk, AcksOk, LeadersOk, BallotsOk, IsQuorum;
  }

  lemma CountedLinked(c: Core, v: nat, nd: Node, term: nat, peer: nat, r: VoteReply)
    requires Basic(c) && NodeLinked(c, v, nd)
    requires r.granted ==> (term, peer) in c.ballots && c.ballots[(term, peer)] == v
    requires term == nd.term ==> peer in nd.waiting
    ensures var c' := CountedCore(c, v, nd, term, peer, r);
            Basic(c') && Local(c, c', v) && NodeLinked(c', v, OnVoteReply(nd, term, peer, r))
  {
    hide LogsOk, AcksOk, LeadersOk, BallotsOk, Local, Won, CanElect, Elect;
    var c' := CountedCore(c, v, nd, term, peer, r);
    LocalRefl(c, v);
    if r.term > nd.term {
      AlignedOk(c, v, r.term);
      FollowerLinked(c, v, nd, r.term);
    } else if !ContextLost(nd, Candidate, term) {
      WonGrows(c, c, nd.term, v, nd.waiting, nd.waiting - {peer});
      if r.granted {
        CountBallot(c, v, nd, peer);
        var nd1 := nd.(waiting := nd.waiting - {peer}, votes := nd.votes + 1);
        if nd1.votes > |nd.next| / 2 {
          var q := Won(c, nd.term, v, nd.waiting - {peer});
          CanElectWhenCounted(c, v, nd, peer, r);
          ElectBasic(c, v, nd.term, q);
          ElectLocal(c, v, nd.term, q);
          ElectNode(c, v, nd1, q);
        }
      }
    }
  }

  // ---- Replication: the leader ----

  lemma LeaderLog(c: Core, v: nat, nd: Node)
    requires Basic(c) && NodeLinked(c, v, nd) && nd.role == Leader
    ensures nd.term in c.leader && c.leader[nd.term] == v && c.leaderLog[nd.term] == nd.log
    ensures CanAppend(c, nd.term) && CanSelfAck(c, nd.term)
    ensures |c.initLog[nd.term]| <= |nd.log|
  {
    hide LogsOk, AcksOk, BallotsOk;
    assert LeaderOk(c, nd.term);
  }

  ghost function ProposedCore(c: Core, v: nat, nd: Node, cmd: Command): Core
    requires Basic(c) && NodeLinked(c, v, nd)
  {
    if nd.role == Leader then
      LeaderLog(c, v, nd);
      Append(c, nd.term, Entry(nd.term, true, cmd))
    else c
  }

  lemma ProposedLinked(c: Core, v: nat, nd: Node, cmd: Command)
    requires Basic(c) && NodeLinked(c, v, nd)
    ensures var c' := ProposedCore(c, v, nd, cmd);
            Basic(c') && Local(c, c', v) && NodeLinked(c', v, Propose(nd, cmd))
  {
    hide LogsOk, AcksOk, BallotsOk, LeadersOk, Local;
    LocalRefl(c, v);
    if nd.role == Leader {
      LeaderLog(c, v, nd);
      var e := Entry(nd.term, true, cmd);
      AppendBasic(c, nd.term, e);
      AppendLocal(c, nd.term, e);
    }
  }

  ghost function ReplicatedCore(c: Core, v: nat, nd: Node): Core
    requires Basic(c) && NodeLinked(c, v, nd)
  {
    if nd.role == Leader then
      LeaderLog(c, v, nd);
      SelfAck(c, nd.term)
    else c
  }

  lemma {:induction false} MessagesSpec(nd: Node, me: nat, upTo: nat, k: nat)
    requires upTo <= |nd.next| && k < |Messages(nd, me, upTo)|
    ensures exists p: nat ::
              && p < |nd.next| && p != me && CanSend(nd, p)
              && Messages(nd, me, upTo)[k] == MessageFor(nd, me, p)
  {
    if k < |Messages(nd, me, upTo - 1)| {
      MessagesSpec(nd, me, upTo - 1, k);
    }
  }

  lemma MessageLinked(c: Core, v: nat, nd: Node, p: nat)
    requires Basic(c) && NodeLinked(c, v, nd) && nd.role == Leader
    requires p < |nd.next| && p != v && CanSend(nd, p)
    ensures AppendLinked(c, MessageFor(nd, v, p)) && End(MessageFor(nd, v, p)) == |nd.log| - 1
  {
    hide LogsOk, AcksOk, BallotsOk, LeadersOk;
    LeaderLog(c, v, nd);
    var m := MessageFor(nd, v, p);
    assert nd.log[m.prevIndex + 1..] == nd.log[m.prevIndex + 1..End(m) + 1];
  }

  lemma ReplicatedLinked(c: Core, v: nat, nd: Node)
    requires Basic(c) && NodeLinked(c, v, nd)
    ensures var c' := ReplicatedCore(c, v, nd);
            && Basic(c') && Local(c, c', v) && NodeLinked(c', v, Replicate(nd, v, nd.term).0)
            && forall m | m in Replicate(nd, v, nd.term).1 ::
                 nd.role == Leader && m.term == nd.term && AppendLinked(c', m) && End(m) == |nd.log| - 1
  {
    hide LogsOk, AcksOk, BallotsOk, LeadersOk, Local, AppendLinked;
    LocalRefl(c, v);
    if nd.role == Leader {
      LeaderLog(c, v, nd);
      SelfAckBasic(c, nd.term);
      SelfAckLocal(c, nd.term);
      var c' := SelfAck(c, nd.term);
      var nd1 := Replicate(nd, v, nd.term).0;
      assert NodeLinked(c', v, nd1) by { SelfAckNode(c, v, nd); }
      forall m | m in Replicate(nd, v, nd.term).1
        ensures m.term == nd.term && AppendLinked(c', m) && End(m) == |nd.log| - 1
      {
        var k :| 0 <= k < |Messages(nd1, v, |nd.next|)| && Messages(nd1, v, |nd.next|)[k] == m;
        MessagesSpec(nd1, v, |nd.next|, k);
        var p: nat :| p < |nd1.next| && p != v && CanSend(nd1, p) && m == MessageFor(nd1, v, p);
        MessageLinked(c', v, nd1, p);
      }
    }
  }

  lemma SelfAckNode(c: Core, v: nat, nd: Node)
    requires Basic(c) && NodeLinked(c, v, nd) && nd.role == Leader && CanSelfAck(c, nd.term)
    ensures NodeLinked(SelfAck(c, nd.term), v, Replicate(nd, v, nd.term).0)
  {
    hide LogsOk, BallotsOk, LeadersOk, Messages;
    LeaderLog(c, v, nd);
  }

  // ---- Replication: the follower ----

  /** An accepted message makes the follower's log the leader's log up to its end. */
  lemma AcceptedLog(c: Core, log: Log, bound: int, m: AppendArgs)
    requires ShapeOk(c) && LogsOk(c) && LogOk(c.leaderLog, log, bound) && AppendLinked(c, m)
    requires m.prevIndex < |log| && log[m.prevIndex].term == m.prevTerm
    ensures log[..m.prevIndex + 1] + m.entries == c.leaderLog[m.term][..End(m) + 1]
  {
    hide Rooted;
    var l := c.leaderLog[m.term];
    RootedMatch(c.leaderLog, log, l, m.prevIndex);
    assert l[..End(m) + 1] == l[..m.prevIndex + 1] + l[m.prevIndex + 1..End(m) + 1];
  }

  lemma LogFacts(leaderLog: map<nat, Log>, log: Log, bound: int)
    requires LogOk(leaderLog, log, bound)
    ensures SortedTerms(log) && log != [] && log[0] == Dummy
    ensures forall k | 0 < k < |log| :: log[k].term > 0
  {
  }

  predicate Accepts(nd: Node, m: AppendArgs)
    requires nd.log != [] && nd.snap < |nd.log|
  {
    OnAppend(nd, m).1.success
  }

  ghost function AppendedCore(c: Core, v: nat, nd: Node, m: AppendArgs): Core
    requires Basic(c) && NodeLinked(c, v, nd) && AppendLinked(c, m) && m.to == v
  {
    if m.term < nd.term then c
    else if Accepts(nd, m) then
      CanAcceptWhenLinked(c, v, m);
      Accept(Aligned(c, v, m.term), v, m.term, End(m))
    else Aligned(c, v, m.term)
  }

  lemma CanAcceptWhenLinked(c: Core, v: nat, m: AppendArgs)
    requires ShapeOk(c) && v < |c.terms| && c.terms[v] <= m.term && AppendLinked(c, m) && m.to == v
    ensures CanAccept(Aligned(c, v, m.term), v, m.term, End(m))
  {
  }

  lemma RejectionOk(c: Core, v: nat, nd: Node, m: AppendArgs)
    requires Basic(c) && NodeLinked(c, v, nd) && AppendLinked(c, m) && nd.term <= m.term
    requires !Accepts(nd, m)
    ensures OnAppend(nd, m).1.conflictIndex >= 1
  {
    hide AcksOk, BallotsOk, LeadersOk, LogOk, SortedTerms, FirstForFrom;
    LogFacts(c.leaderLog, nd.log, nd.term);
    LogFacts(c.leaderLog, c.leaderLog[m.term], m.term);
    FirstForFromSpec(nd.log, nd.snap, if m.prevIndex < |nd.log| then nd.log[m.prevIndex].term else 0);
  }

  lemma LogOfNode(c: Core, v: nat, nd: Node)
    requires Basic(c) && NodeLinked(c, v, nd)
    ensures ShapeOk(c) && LogsOk(c) && LogOk(c.leaderLog, nd.log, c.terms[v])
  {
    hide LogOk, AcksOk, BallotsOk, LeadersOk;
  }

  lemma AlignedSame(c: Core, v: nat, t: nat)
    requires v < |c.terms|
    ensures Aligned(c, v, t).leaderLog == c.leaderLog && Aligned(c, v, t).acked == c.acked
            && Aligned(c, v, t).leader == c.leader
  {
  }

  lemma AppendedLinked(c: Core, v: nat, nd: Node, m: AppendArgs)
    requires Basic(c) && NodeLinked(c, v, nd) && AppendLinked(c, m) && m.to == v
    ensures var c' := AppendedCore(c, v, nd, m);
            Basic(c') && Local(c, c', v) && NodeLinked(c', v, OnAppend(nd, m).0)
  {
    hide AcksOk, BallotsOk, LeadersOk, LogsOk, Local, AppendLinked, CanAccept, Accept, Aligned, FirstForFrom;
    hide CandidateLinked, LeaderLinked, BallotLinked;
    LocalRefl(c, v);
    if m.term >= nd.term {
      var c1 := Aligned(c, v, m.term);
      AlignedOk(c, v, m.term);
      FollowerLinked(c, v, nd, m.term);
      if Accepts(nd, m) {
        CanAcceptWhenLinked(c, v, m);
        AcceptBasic(c1, v, m.term, End(m));
        AcceptLocal(c1, v, m.term, End(m));
        LocalTrans(c, c1, Accept(c1, v, m.term, End(m)), v);
        AcceptShape(nd, m);
        AcceptedLog(c, nd.log, c.terms[v], m) by { LogOfNode(c, v, nd); }
        AcceptNode(c1, v, BecomeFollower(nd, m.term), End(m), OnAppend(nd, m).0.commit)
          by { AlignedSame(c, v, m.term); }
        AlignedSame(c, v, m.term);
      }
    }
  }

  lemma AcceptNode(c: Core, v: nat, nd: Node, end: nat, commit: nat)
    requires NodeLinked(c, v, nd) && nd.role == Follower && CanAccept(c, v, nd.term, end)
    requires nd.snap <= end && nd.snap <= commit
    ensures var nd' := Persist(nd.(log := c.leaderLog[nd.term][..end + 1])).(commit := commit);
            NodeLinked(Accept(c, v, nd.term, end), v, nd')
  {
  }

  /** What an accepting follower becomes. */
  lemma AcceptShape(nd: Node, m: AppendArgs)
    requires nd.log != [] && nd.snap < |nd.log| && nd.term <= m.term && Accepts(nd, m)
    ensures var nd1 := BecomeFollower(nd, m.term);
            && nd.snap <= m.prevIndex < |nd.log| && nd.log[m.prevIndex].term == m.prevTerm
            && OnAppend(nd, m).0 == Persist(nd1.(log := nd.log[..m.prevIndex + 1] + m.entries))
                                      .(commit := if m.leaderCommit > nd.commit then m.leaderCommit else nd.commit)
  {
    hide FirstForFrom;
  }

  lemma AppendedReply(c: Core, v: nat, nd: Node, m: AppendArgs)
    requires Basic(c) && NodeLinked(c, v, nd) && AppendLinked(c, m) && m.to == v
    ensures var c' := AppendedCore(c, v, nd, m);
            AppendRepLinked(c', AppendRep(m, OnAppend(nd, m).1))
  {
    hide AcksOk, BallotsOk, LeadersOk, LogsOk, AppendLinked, FirstForFrom;
    var c' := AppendedCore(c, v, nd, m);
    assert Evolves(c, c') by { AppendedLinked(c, v, nd, m); }
    AppendStays(c, c', m);
    if m.term >= nd.term && !Accepts(nd, m) {
      RejectionOk(c, v, nd, m);
    }
  }

  // ---- Replication: the leader hears back ----

  /** The indices a leader uses for a reply to its own current-term call are in its log. */
  lemma ReplyInBounds(c: Core, v: nat, nd: Node, r: AppendRep)
    requires Basic(c) && NodeLinked(c, v, nd) && AppendRepLinked(c, r) && r.args.leader == v
    ensures r.args.to < |nd.next| == |nd.matched|
    ensures !ContextLost(nd, Leader, r.args.term) ==>
              && End(r.args) < |nd.log|
              && (forall p | 0 <= p < |nd.matched| :: nd.matched[p] < |nd.log|)
  {
    hide LogsOk, AcksOk, BallotsOk, LeadersOk;
    if !ContextLost(nd, Leader, r.args.term) {
      LeaderLog(c, v, nd);
    }
  }

  predicate Commits(nd: Node, nd': Node) {
    nd.role == Leader && nd'.role == Leader && nd.commit != nd'.commit
  }

  ghost function Replied(c: Core, v: nat, nd: Node, r: AppendRep): Node
    requires Basic(c) && NodeLinked(c, v, nd) && AppendRepLinked(c, r) && r.args.leader == v
  {
    ReplyInBounds(c, v, nd, r);
    OnAppendReply(nd, r.args, r.reply)
  }

  ghost function RepliedCore(c: Core, v: nat, nd: Node, r: AppendRep): Core
    requires Basic(c) && NodeLinked(c, v, nd) && AppendRepLinked(c, r) && r.args.leader == v
  {
    var nd' := Replied(c, v, nd, r);
    if r.reply.term > nd.term then Aligned(c, v, r.reply.term)
    else if Commits(nd, nd') then Commit(c, nd.term, nd'.commit, Holders(nd'.matched, nd'.commit))
    else c
  }

  lemma ProbeInRange(nd: Node, peer: nat, r: AppendReply)
    requires peer < |nd.next| && 1 <= nd.next[peer] && r.conflictIndex >= 1
    ensures 1 <= NextProbe(nd, peer, r) <= nd.next[peer]
  {
    hide FirstForFrom;
  }

  lemma MatchedLinked(c: Core, v: nat, nd: Node, m: AppendArgs)
    requires Basic(c) && NodeLinked(c, v, nd) && nd.role == Leader && m.to < |nd.next|
    requires End(m) < |nd.log| && End(m) <= Acked(c, nd.term, m.to)
    ensures NodeLinked(c, v, nd.(matched := nd.matched[m.to := End(m)], next := nd.next[m.to := End(m) + 1]))
  {
    hide LogsOk, AcksOk, BallotsOk, LeadersOk;
  }

  lemma CanCommitMajority(c: Core, v: nat, nd: Node)
    requires Basic(c) && NodeLinked(c, v, nd) && nd.role == Leader && nd.matched != []
    requires 0 < MajorityIndex(nd.matched) < |nd.log| && nd.log[MajorityIndex(nd.matched)].term == nd.term
    ensures CanCommit(c, nd.term, MajorityIndex(nd.matched), Holders(nd.matched, MajorityIndex(nd.matched)))
  {
    hide LogsOk, AcksOk, BallotsOk, LeadersOk, MajorityIndex;
    var i := MajorityIndex(nd.matched);
    MajorityIndexSpec(nd.matched, i);
    LeaderLog(c, v, nd);
  }

  lemma RejectedLinked(c: Core, v: nat, nd: Node, r: AppendRep)
    requires Basic(c) && NodeLinked(c, v, nd) && nd.role == Leader && r.args.to < |nd.next|
    requires r.reply.conflictIndex >= 1
    ensures NodeLinked(c, v, nd.(next := nd.next[r.args.to := NextProbe(nd, r.args.to, r.reply)]))
  {
    hide LogsOk, AcksOk, BallotsOk, LeadersOk, NextProbe;
    ProbeInRange(nd, r.args.to, r.reply);
  }

  lemma CommittedLinked(c: Core, v: nat, nd: Node)
    requires Basic(c) && NodeLinked(c, v, nd) && nd.role == Leader && nd.matched != []
    requires nd.commit < MajorityIndex(nd.matched) < |nd.log| && nd.log[MajorityIndex(nd.matched)].term == nd.term
    ensures var i := MajorityIndex(nd.matched);
            var c' := Commit(c, nd.term, i, Holders(nd.matched, i));
            Basic(c') && Local(c, c', v) && NodeLinked(c', v, nd.(commit := i))
  {
    hide ShapeOk, LogsOk, AcksOk, BallotsOk, LeadersOk, Local, MajorityIndex, CanCommit, Holders;
    var i := MajorityIndex(nd.matched);
    CanCommitMajority(c, v, nd);
    CommitBasic(c, nd.term, i, Holders(nd.matched, i));
    CommitLocal(c, nd.term, i, Holders(nd.matched, i), v);
    CommitNode(c, v, nd, i, Holders(nd.matched, i));
  }

  lemma RepliedLinked(c: Core, v: nat, nd: Node, r: AppendRep)
    requires Basic(c) && NodeLinked(c, v, nd) && AppendRepLinked(c, r) && r.args.leader == v
    ensures var c' := RepliedCore(c, v, nd, r);
            Basic(c') && Local(c, c', v) && NodeLinked(c', v, Replied(c, v, nd, r))
  {
    hide Basic, Local, AppendLinked, MajorityIndex, Holders, NextProbe, Commit;
    hide BallotLinked, LeaderLinked, CandidateLinked;
    ReplyInBounds(c, v, nd, r);
    LocalRefl(c, v);
    if r.reply.term > nd.term {
      AlignedOk(c, v, r.reply.term);
      FollowerLinked(c, v, nd, r.reply.term);
    } else if !ContextLost(nd, Leader, r.args.term) {
      if !r.reply.success {
        RejectedLinked(c, v, nd, r);
      } else {
        var m := r.args;
        var nd1 := nd.(matched := nd.matched[m.to := End(m)], next := nd.next[m.to := End(m) + 1]);
        MatchedLinked(c, v, nd, m);
        MajorityMember(nd1.matched);
        if MajorityIndex(nd1.matched) > nd1.commit && nd1.log[MajorityIndex(nd1.matched)].term == nd1.term {
          CommittedLinked(c, v, nd1);
        }
      }
    }
  }

  lemma CommitNode(c: Core, v: nat, nd: Node, i: nat, q: set<nat>)
    requires NodeLinked(c, v, nd) && nd.role == Leader && nd.commit < i
    ensures NodeLinked(Commit(c, nd.term, i, q), v, nd.(commit := i))
  {
  }

  // ---- Steps that leave the core alone ----

  lemma QuietLinked(c: Core, v: nat, nd: Node)
    requires Basic(c) && NodeLinked(c, v, nd)
    ensures NodeLinked(c, v, ApplyEntries(nd)) && NodeLinked(c, v, Restart(nd))
    ensures forall i | 0 <= i < |nd.log| :: NodeLinked(c, v, Snapshot(nd, i))
  {
    hide LogsOk, AcksOk, BallotsOk, LeadersOk, Won;
  }
}
