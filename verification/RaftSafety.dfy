/** Safety of every run of a cluster: election safety and log matching whatever the network does;
    leader completeness and state machine safety when no accepted call ends before an acknowledged one. */
module RaftSafety {
  import opened RaftTypes
  import opened RaftNode
  import opened RaftProtocol
  import opened RaftCore
  import opened RaftCompleteness
  import opened RaftInvariant
  import opened RaftSteps
  import opened RaftKeeping

  // ---- One step ----

  /** The acting peer and the message it handles fit the core. */
  ghost predicate ActorLinked(c: Core, s: State, a: Action)
    requires Requested(s, a)
  {
    && NodeLinked(c, Actor(s, a), s.nodes[Actor(s, a)])
    && match a
       case ReceiveVote(_, m) => VoteReqLinked(c, m)
       case ReceiveVoteReply(r) => VoteRepLinked(c, r)
       case ReceiveAppend(k) => AppendLinked(c, s.sent[k])
       case ReceiveAppendReply(r) => AppendRepLinked(c, r)
       case _ => true
  }

  lemma LinkedActor(c: Core, s: State, a: Action)
    requires Linked(c, s) && Requested(s, a)
    ensures ActorLinked(c, s, a)
  {
    hide NodeLinked, VoteReqLinked, VoteRepLinked, AppendLinked, AppendRepLinked;
  }

  /** The core after a step of the cluster. */
  ghost function CoreStep(c: Core, s: State, a: Action): Core
    requires Basic(c) && Requested(s, a) && ActorLinked(c, s, a)
  {
    var v := Actor(s, a);
    var nd := s.nodes[v];
    match a
    case ElectionTimeout(_) => Stand(c, v)
    case ReceiveVote(_, m) => VotedCore(c, v, nd, m)
    case ReceiveVoteReply(r) => CountedCore(c, v, nd, r.term, r.voter, r.reply)
    case ClientCommand(_, cmd) => ProposedCore(c, v, nd, cmd)
    case ReplicateRound(_) => ReplicatedCore(c, v, nd)
    case ReceiveAppend(k) => AppendedCore(c, v, nd, s.sent[k])
    case ReceiveAppendReply(r) => RepliedCore(c, v, nd, r)
    case _ => c
  }

  lemma NodeStep(c: Core, s: State, a: Action)
    requires Linked(c, s) && Basic(c) && Requested(s, a) && InBounds(s, a)
    ensures ActorLinked(c, s, a)
    ensures var c', v := CoreStep(c, s, a), Actor(s, a);
            Basic(c') && Local(c, c', v) && NodeLinked(c', v, Step(s, a).nodes[v])
  {
    hide ShapeOk, BallotsOk, LeadersOk, LogsOk, AcksOk, Local, NodesLinked, VotesLinked, AppendsLinked, NodeLinked;
    hide OnRequestVote, OnVoteReply, OnAppend, OnAppendReply, Replicate, VoteReqLinked, AppendLinked, AppendRepLinked;
    var v, nd := Actor(s, a), s.nodes[Actor(s, a)];
    LinkedActor(c, s, a);
    match a {
      case ElectionTimeout(_) =>
        TimeoutLinked(c, v, nd);
        StandBasic(c, v);
        StandLocal(c, v);
      case RunElection(_) =>
        RunElectionLinked(c, v, nd);
        BasicRefl(c, v);
      case ReceiveVote(_, m) => VoteLinked(c, v, nd, m);
      case ReceiveVoteReply(r) => CountedLinked(c, v, nd, r.term, r.voter, r.reply);
      case ClientCommand(_, cmd) => ProposedLinked(c, v, nd, cmd);
      case ReplicateRound(_) => ReplicatedLinked(c, v, nd);
      case ReceiveAppend(k) => AppendedLinked(c, v, nd, s.sent[k]);
      case ReceiveAppendReply(r) => RepliedLinked(c, v, nd, r);
      case _ =>
        QuietLinked(c, v, nd);
        BasicRefl(c, v);
    }
  }

  lemma BasicRefl(c: Core, v: nat)
    requires Basic(c)
    ensures Local(c, c, v)
  {
    LocalRefl(c, v);
  }

  /** Every step keeps the link between a cluster and its core. */
  lemma StepKeeps(c: Core, s: State, a: Action)
    requires Linked(c, s) && Basic(c) && Requested(s, a) && InBounds(s, a)
    ensures ActorLinked(c, s, a)
    ensures Linked(CoreStep(c, s, a), Step(s, a)) && Basic(CoreStep(c, s, a))
    ensures Evolves(c, CoreStep(c, s, a))
  {
    hide Basic, Local, NodesLinked, NodeLinked, CoreStep, VoteReqLinked, VoteRepLinked, AppendLinked, AppendRepLinked,
      Evolves;
    hide OnRequestVote, OnVoteReply, OnAppend, OnAppendReply, Replicate;
    NodeStep(c, s, a);
    var c', v, s' := CoreStep(c, s, a), Actor(s, a), Step(s, a);
    LocalFacts(c, c', v);
    LinkStays(c, c', s, v, s'.nodes[v]);
    NewMessagesLinked(c, s, a);
  }

  /** The messages a step adds fit the new core. */
  lemma NewMessagesLinked(c: Core, s: State, a: Action)
    requires Linked(c, s) && Basic(c) && Requested(s, a) && InBounds(s, a)
    requires ActorLinked(c, s, a)
    requires var c' := CoreStep(c, s, a); VotesLinked(c', s) && AppendsLinked(c', s)
    ensures VotesLinked(CoreStep(c, s, a), Step(s, a)) && AppendsLinked(CoreStep(c, s, a), Step(s, a))
  {
    hide Basic, Local, NodesLinked, NodeLinked, VotedCore, CountedCore, ProposedCore, ReplicatedCore, AppendedCore,
      RepliedCore, Stand;
    hide OnRequestVote, OnVoteReply, OnAppend, OnAppendReply, Replicate, VoteReqLinked, VoteRepLinked, AppendLinked,
      AppendRepLinked;
    var v, nd := Actor(s, a), s.nodes[Actor(s, a)];
    LinkedActor(c, s, a);
    match a {
      case RunElection(_) => RunElectionLinked(c, v, nd);
      case ReceiveVote(_, m) => VoteLinked(c, v, nd, m);
      case ReplicateRound(_) => SentLinked(c, s, v);
      case ReceiveAppend(k) => AppendedReply(c, v, nd, s.sent[k]);
      case _ =>
    }
  }

  /** New calls reach at least as far as all earlier calls of their term. */
  lemma SentLinked(c: Core, s: State, v: nat)
    requires Linked(c, s) && Basic(c) && v < |s.nodes|
    requires NodeLinked(c, v, s.nodes[v])
    requires var c' := ReplicatedCore(c, v, s.nodes[v]); AppendsLinked(c', s)
    ensures var c', out := ReplicatedCore(c, v, s.nodes[v]), Replicate(s.nodes[v], v, s.nodes[v].term).1;
            AppendsLinked(c', s.(sent := s.sent + out))
  {
    hide Basic, Local, NodesLinked, VotesLinked, Replicate, ReplicatedCore, BallotLinked, LeaderLinked, CandidateLinked;
    var nd := s.nodes[v];
    var c', out := ReplicatedCore(c, v, nd), Replicate(nd, v, nd.term).1;
    var sent := s.sent + out;
    ReplicatedLinked(c, v, nd);
    forall j, k | 0 <= j <= k < |sent| && sent[j].term == sent[k].term
      ensures End(sent[j]) <= End(sent[k])
    {
      if k >= |s.sent| {
        assert sent[k] in out;
        if j >= |s.sent| {
          assert sent[j] in out;
        } else {
          LeaderLog(c, v, nd);
          EndBelowLeader(c, s, j);
        }
      }
    }
    forall k | 0 <= k < |sent| ensures AppendLinked(c', sent[k]) {
      if k >= |s.sent| {
        assert sent[k] in out;
      }
    }
  }

  lemma EndBelowLeader(c: Core, s: State, j: nat)
    requires Linked(c, s) && j < |s.sent|
    ensures s.sent[j].term in c.leaderLog && End(s.sent[j]) < |c.leaderLog[s.sent[j].term]|
  {
    hide NodesLinked, VotesLinked, AppendRepLinked;
    assert AppendLinked(c, s.sent[j]);
  }

  /** In a linked state no handler except compaction can index outside its log. */
  lemma StepInBounds(c: Core, s: State, a: Action)
    requires Linked(c, s) && Basic(c) && Requested(s, a) && !a.Compact?
    ensures InBounds(s, a)
  {
    hide Basic, VotesLinked, AppendsLinked, VoteReqLinked, VoteRepLinked, AppendLinked, AppendRepLinked;
    LinkedActor(c, s, a);
    if a.ReceiveAppendReply? {
      ReplyInBounds(c, Actor(s, a), s.nodes[Actor(s, a)], a.appendRep);
    }
  }

  // ---- One step that cuts nothing acknowledged ----

  ghost predicate Keeping(c: Core, s: State) {
    Linked(c, s) && Basic(c) && Safe(c) && AckedByReply(c, s) && Certified(c, s)
  }

  lemma AlignedSafe(c: Core, v: nat, t: nat)
    requires Basic(c) && Safe(c) && v < |c.terms|
    ensures Basic(Aligned(c, v, t)) && Safe(Aligned(c, v, t))
  {
    hide Basic, Safe;
    if c.terms[v] < t {
      BumpBasic(c, v, t);
      BumpSafe(c, v, t);
    }
  }

  lemma VotedSafe(c: Core, v: nat, nd: Node, m: VoteArgs)
    requires Basic(c) && Safe(c) && NodeLinked(c, v, nd) && VoteReqLinked(c, m) && v != m.candidate
    ensures Safe(VotedCore(c, v, nd, m))
  {
    hide Basic, Safe, OnRequestVote, VoteReqLinked, BallotLinked, CandidateLinked, LeaderLinked;
    AlignedSafe(c, v, m.term);
    if OnRequestVote(nd, m).1.granted {
      CanVoteWhenGranted(c, v, nd, m);
      VoteSafe(Aligned(c, v, m.term), v, m.term, m.candidate);
    }
  }

  lemma CountedSafe(c: Core, v: nat, nd: Node, term: nat, peer: nat, r: VoteReply)
    requires Basic(c) && Safe(c) && NodeLinked(c, v, nd)
    requires r.granted ==> (term, peer) in c.ballots && c.ballots[(term, peer)] == v
    requires term == nd.term ==> peer in nd.waiting
    ensures Safe(CountedCore(c, v, nd, term, peer, r))
  {
    hide Basic, Safe, BallotLinked, CandidateLinked, LeaderLinked, Won, CanElect, Elect;
    if r.term > nd.term {
      AlignedSafe(c, v, r.term);
    } else if OnVoteReply(nd, term, peer, r).role == Leader && nd.role == Candidate {
      CanElectWhenCounted(c, v, nd, peer, r);
      ElectSafe(c, v, nd.term, Won(c, nd.term, v, nd.waiting - {peer}));
    }
  }

  lemma AppendedSafe(c: Core, v: nat, nd: Node, m: AppendArgs)
    requires Basic(c) && Safe(c) && NodeLinked(c, v, nd) && AppendLinked(c, m) && m.to == v
    requires FreshIfAccepted(c, nd, m)
    ensures Safe(AppendedCore(c, v, nd, m))
  {
    hide Basic, Safe, BallotLinked, CandidateLinked, LeaderLinked, OnAppend, CanAccept, Accept, AppendLinked;
    AlignedSafe(c, v, m.term);
    if m.term >= nd.term && Accepts(nd, m) {
      CanAcceptInit(c, v, nd, m);
      AcceptSafe(Aligned(c, v, m.term), v, m.term, End(m));
    }
  }

  lemma CanAcceptInit(c: Core, v: nat, nd: Node, m: AppendArgs)
    requires Basic(c) && NodeLinked(c, v, nd) && AppendLinked(c, m) && m.to == v && nd.term <= m.term
    ensures CanAccept(Aligned(c, v, m.term), v, m.term, End(m))
    ensures RaftCore.Fresh(c, v, m.term, End(m)) ==> RaftCore.Fresh(Aligned(c, v, m.term), v, m.term, End(m))
  {
    hide BallotsOk, LeadersOk, LogsOk, AcksOk;
    CanAcceptWhenLinked(c, v, m);
  }

  lemma RepliedSafe(c: Core, v: nat, nd: Node, r: AppendRep)
    requires Basic(c) && Safe(c) && NodeLinked(c, v, nd) && AppendRepLinked(c, r) && r.args.leader == v
    ensures Safe(RepliedCore(c, v, nd, r))
  {
    hide Basic, Safe, BallotLinked, CandidateLinked, LeaderLinked, AppendRepLinked, Replied, Commit, Holders;
    if r.reply.term > nd.term {
      AlignedSafe(c, v, r.reply.term);
    } else if Commits(nd, Replied(c, v, nd, r)) {
      CommitIsMajority(c, v, nd, r);
      var nd' := Replied(c, v, nd, r);
      CommitSafe(c, nd.term, nd'.commit, Holders(nd'.matched, nd'.commit));
    }
  }

  /** A leader's new commit index is an entry of its own term that a majority has matched. */
  lemma CommitIsMajority(c: Core, v: nat, nd: Node, r: AppendRep)
    requires Basic(c) && NodeLinked(c, v, nd) && AppendRepLinked(c, r) && r.args.leader == v
    requires r.reply.term <= nd.term && Commits(nd, Replied(c, v, nd, r))
    ensures var nd' := Replied(c, v, nd, r);
            && CanCommit(c, nd.term, nd'.commit, Holders(nd'.matched, nd'.commit))
            && nd'.commit < |nd.log| && nd'.log == nd.log && nd'.term == nd.term && nd'.role == Leader
            && nd.commit < nd'.commit
  {
    hide Basic, AppendLinked, MajorityIndex, CanCommit, Holders, NextProbe, BallotLinked, LeaderLinked, CandidateLinked;
    ReplyInBounds(c, v, nd, r);
    var m := r.args;
    var nd1 := nd.(matched := nd.matched[m.to := End(m)], next := nd.next[m.to := End(m) + 1]);
    if r.reply.success {
      MatchedLinked(c, v, nd, m);
      MajorityMember(nd1.matched);
      CanCommitMajority(c, v, nd1);
    }
  }

  lemma StepSafe(c: Core, s: State, a: Action)
    requires Linked(c, s) && Basic(c) && Safe(c) && AckedByReply(c, s)
    requires Requested(s, a) && InBounds(s, a) && CutsNothing(s, a)
    ensures ActorLinked(c, s, a) && Safe(CoreStep(c, s, a))
  {
    hide Basic, Safe, Linked, NodeLinked, VoteReqLinked, AppendLinked, AppendRepLinked;
    hide AckedByReply, CutsNothing, VotedCore, CountedCore, AppendedCore, RepliedCore, Append, SelfAck;
    LinkedActor(c, s, a);
    var v, nd := Actor(s, a), s.nodes[Actor(s, a)];
    match a {
      case ElectionTimeout(_) =>
        TimeoutLinked(c, v, nd);
        StandSafe(c, v);
      case ReceiveVote(_, m) => VotedSafe(c, v, nd, m);
      case ReceiveVoteReply(r) => CountedSafe(c, v, nd, r.term, r.voter, r.reply);
      case ClientCommand(_, cmd) =>
        if nd.role == Leader {
          LeaderLog(c, v, nd);
          AppendSafe(c, nd.term, Entry(nd.term, true, cmd));
        }
      case ReplicateRound(_) =>
        if nd.role == Leader {
          LeaderLog(c, v, nd);
          SelfAckSafe(c, nd.term);
        }
      case ReceiveAppend(k) =>
        DeliveryIsFresh(c, s, k);
        AppendedSafe(c, v, nd, s.sent[k]);
      case ReceiveAppendReply(r) => RepliedSafe(c, v, nd, r);
      case _ =>
    }
  }

  /** Acknowledgements change only where a call is accepted, or for a leader itself. */
  lemma AckedStep(c: Core, s: State, a: Action)
    requires Linked(c, s) && Basic(c) && Requested(s, a) && InBounds(s, a) && ActorLinked(c, s, a)
    ensures var c' := CoreStep(c, s, a);
            forall t, w | (t, w) in c'.acked && t in c'.leader && c'.leader[t] != w ::
              || ((t, w) in c.acked && t in c.leader && c.leader[t] != w && c'.acked[(t, w)] == c.acked[(t, w)])
              || (a.ReceiveAppend? && w == Actor(s, a) && Accepts(s.nodes[w], s.sent[a.k])
                  && t == s.sent[a.k].term
                  && c'.acked[(t, w)] <= Max(Acked(c, t, w), End(s.sent[a.k])))
  {
    hide Linked, LogsOk, BallotsOk, LeadersOk, NodeLinked, VoteReqLinked, AppendLinked, AppendRepLinked;
    hide VotedCore, CountedCore, ProposedCore, ReplicatedCore, AppendedCore, RepliedCore;
    hide OnAppend, Accepts, OnRequestVote, OnVoteReply, OnAppendReply, Replicate;
    NodeStepLeaders(c, s, a);
    var v, nd := Actor(s, a), s.nodes[Actor(s, a)];
    match a {
      case ReceiveVote(_, m) =>
        NodeInRange(c, v, nd);
        VotedAcked(c, v, nd, m);
      case ReceiveVoteReply(r) => CountedAcked(c, v, nd, r.term, r.voter, r.reply);
      case ClientCommand(_, cmd) => ProposedAcked(c, v, nd, cmd);
      case ReplicateRound(_) => ReplicatedAcked(c, v, nd);
      case ReceiveAppend(k) => AppendedAcked(c, v, nd, s.sent[k]);
      case ReceiveAppendReply(r) => RepliedAcked(c, v, nd, r);
      case _ =>
    }
  }

  lemma NodeInRange(c: Core, v: nat, nd: Node)
    requires NodeLinked(c, v, nd)
    ensures v < |c.terms| && nd.log != []
  {
  }

  lemma VotedAcked(c: Core, v: nat, nd: Node, m: VoteArgs)
    requires nd.log != [] && v < |c.terms|
    ensures VotedCore(c, v, nd, m).acked == c.acked
  {
    hide OnRequestVote, Aligned;
    AlignedSame(c, v, m.term);
  }

  lemma CountedAcked(c: Core, v: nat, nd: Node, term: nat, peer: nat, r: VoteReply)
    requires Basic(c) && NodeLinked(c, v, nd)
    requires r.granted ==> (term, peer) in c.ballots && c.ballots[(term, peer)] == v
    requires term == nd.term ==> peer in nd.waiting
    ensures CountedCore(c, v, nd, term, peer, r).acked == c.acked
  {
    hide OnVoteReply, LogsOk, LeadersOk, BallotsOk, AcksOk, Aligned, CanElect, Won, CandidateLinked, LeaderLinked,
      BallotLinked;
    NodeInRange(c, v, nd);
    AlignedSame(c, v, r.term);
  }

  lemma ProposedAcked(c: Core, v: nat, nd: Node, cmd: Command)
    requires Basic(c) && NodeLinked(c, v, nd)
    ensures ProposedCore(c, v, nd, cmd).acked == c.acked
  {
    hide LogsOk, LeadersOk, BallotsOk, AcksOk;
  }

  lemma ReplicatedAcked(c: Core, v: nat, nd: Node)
    requires Basic(c) && NodeLinked(c, v, nd)
    ensures var c' := ReplicatedCore(c, v, nd);
            && c'.leader == c.leader
            && forall t, w | (t, w) in c'.acked && t in c.leader && c.leader[t] != w ::
               (t, w) in c.acked && c'.acked[(t, w)] == c.acked[(t, w)]
  {
    hide LogsOk, LeadersOk, BallotsOk, AcksOk;
  }

  lemma AppendedAcked(c: Core, v: nat, nd: Node, m: AppendArgs)
    requires Basic(c) && NodeLinked(c, v, nd) && AppendLinked(c, m) && m.to == v
    ensures var c' := AppendedCore(c, v, nd, m);
            && c'.leader == c.leader
            && forall t, w | (t, w) in c'.acked ::
                 || ((t, w) in c.acked && c'.acked[(t, w)] == c.acked[(t, w)])
                 || (Accepts(nd, m) && w == v && t == m.term && c'.acked[(t, w)] <= Max(Acked(c, t, w), End(m)))
  {
    hide LogsOk, LeadersOk, BallotsOk, AcksOk, Accepts, Aligned, AppendLinked, CandidateLinked, LeaderLinked,
      BallotLinked, CanAccept;
    NodeInRange(c, v, nd);
    AlignedSame(c, v, m.term);
    if Accepts(nd, m) && m.term >= nd.term {
      CanAcceptWhenLinked(c, v, m);
      AcceptAcked(Aligned(c, v, m.term), v, m.term, End(m));
    }
  }

  lemma AcceptAcked(c: Core, v: nat, t: nat, end: nat)
    requires CanAccept(c, v, t, end)
    ensures var c' := Accept(c, v, t, end);
            c'.leader == c.leader && c'.acked == c.acked[(t, v) := Max(Acked(c, t, v), end)]
  {
    hide CanAccept, AckedIn;
  }

  lemma RepliedAcked(c: Core, v: nat, nd: Node, r: AppendRep)
    requires Basic(c) && NodeLinked(c, v, nd) && AppendRepLinked(c, r) && r.args.leader == v
    ensures RepliedCore(c, v, nd, r).acked == c.acked
  {
    hide LogsOk, LeadersOk, BallotsOk, AcksOk, Replied, Aligned, AppendRepLinked, CandidateLinked, LeaderLinked,
      BallotLinked, Commits;
    NodeInRange(c, v, nd);
    AlignedSame(c, v, r.reply.term);
  }

  lemma NodeStepLeaders(c: Core, s: State, a: Action)
    requires Linked(c, s) && Basic(c) && Requested(s, a) && InBounds(s, a) && ActorLinked(c, s, a)
    ensures var c', v := CoreStep(c, s, a), Actor(s, a);
            && Adds(c.leader, c'.leader)
            && (a.ReplicateRound? && s.nodes[v].role == Leader ==>
                  s.nodes[v].term in c.leader && c.leader[s.nodes[v].term] == v)
  {
    hide Basic, CoreStep, Step, Linked, NodeLinked;
    NodeStep(c, s, a);
    if a.ReplicateRound? && s.nodes[a.v].role == Leader {
      LeaderLog(c, a.v, s.nodes[a.v]);
    }
  }

  lemma AckedByReplyStep(c: Core, s: State, a: Action)
    requires Linked(c, s) && Basic(c) && AckedByReply(c, s)
    requires Requested(s, a) && InBounds(s, a) && CutsNothing(s, a) && ActorLinked(c, s, a)
    ensures AckedByReply(CoreStep(c, s, a), Step(s, a))
  {
    hide Basic, Linked, ActorLinked, OnRequestVote, OnAppend, OnVoteReply, OnAppendReply, CoreStep;
    var c', s' := CoreStep(c, s, a), Step(s, a);
    AckedStep(c, s, a);
    if a.ReceiveAppend? {
      DeliveryIsFresh(c, s, a.k);
    }
    forall t, v | (t, v) in c'.acked && t in c'.leader && c'.leader[t] != v
      ensures exists r :: r in s'.appendReps && Backs(r, t, v, c'.acked[(t, v)])
    {
      if (t, v) in c.acked && t in c.leader && c.leader[t] != v && c'.acked[(t, v)] == c.acked[(t, v)] {
        var r :| r in s.appendReps && Backs(r, t, v, c.acked[(t, v)]);
        assert r in s'.appendReps;
      } else {
        var r := AppendRep(s.sent[a.k], OnAppend(s.nodes[v], s.sent[a.k]).1);
        assert r in s'.appendReps && Backs(r, t, v, c'.acked[(t, v)]);
      }
    }
  }

  // Certificates: the acting peer's.

  /** Handling a call. */
  lemma AppendedCert(c: Core, v: nat, nd: Node, m: AppendArgs)
    requires Basic(c) && Safe(c) && NodeLinked(c, v, nd) && AppendLinked(c, m) && m.to == v
    requires FreshIfAccepted(c, nd, m) && NodeCert(c, v, nd) && MsgCert(c, m)
    ensures NodeCert(AppendedCore(c, v, nd, m), v, OnAppend(nd, m).0)
  {
    hide Basic, Safe, BallotLinked, CandidateLinked, LeaderLinked, CanAccept, Accept, AppendLinked, MsgCert, NodeCert;
    hide FirstForFrom;
    var c1, nd1 := Aligned(c, v, m.term), BecomeFollower(nd, m.term);
    AlignedOk(c, v, m.term);
    LocalFacts(c, c1, v);
    NodeCertBounds(c, v, nd);
    if m.term >= nd.term {
      CertStays(c, c1, v, nd, nd1);
      if Accepts(nd, m) {
        AlignedSafe(c, v, m.term);
        CanAcceptInit(c, v, nd, m);
        MsgCertStays(c, c1, m);
        AcceptShape(nd, m);
        AcceptedLog(c, nd.log, c.terms[v], m) by { LogOfNode(c, v, nd); }
        AlignedSame(c, v, m.term);
        AcceptCert(c1, v, nd1, m, OnAppend(nd, m).0);
      } else {
        CertStays(c, c1, v, nd, OnAppend(nd, m).0);
      }
    }
  }

  lemma NodeCertBounds(c: Core, v: nat, nd: Node)
    requires NodeCert(c, v, nd)
    ensures nd.snap <= nd.commit < |nd.log| && nd.applied <= nd.commit
  {
  }

  /** Hearing back: a new commit index certifies itself. */
  lemma RepliedCert(c: Core, v: nat, nd: Node, r: AppendRep)
    requires Basic(c) && NodeLinked(c, v, nd) && AppendRepLinked(c, r) && r.args.leader == v && NodeCert(c, v, nd)
    ensures NodeCert(RepliedCore(c, v, nd, r), v, Replied(c, v, nd, r))
  {
    hide Basic, BallotLinked, CandidateLinked, LeaderLinked, AppendRepLinked, Holders, Covers, Local, CertBy,
      MajorityIndex, NextProbe;
    var c', nd' := RepliedCore(c, v, nd, r), Replied(c, v, nd, r);
    RepliedLinked(c, v, nd, r);
    LocalFacts(c, c', v);
    ReplyInBounds(c, v, nd, r);
    if r.reply.term <= nd.term && Commits(nd, nd') {
      CommitIsMajority(c, v, nd, r);
      LeaderLog(c, v, nd);
      SelfCert(c, v, nd', Holders(nd'.matched, nd'.commit));
    } else {
      CertStays(c, c', v, nd, nd');
    }
  }

  lemma SelfCert(c: Core, v: nat, nd: Node, q: set<nat>)
    requires nd.term in c.leader && c.leader[nd.term] == v && nd.term in c.leaderLog
    requires c.leaderLog[nd.term] == nd.log && nd.commit < |nd.log|
    ensures CertBy(Commit(c, nd.term, nd.commit, q), v, nd.log, nd.commit, nd.term, nd.term, nd.commit)
  {
  }

  /** Steps other than these leave the log as it is or extend it, and do not raise the commit index. */
  lemma QuietActor(s: State, a: Action)
    requires Requested(s, a) && InBounds(s, a) && !a.ReceiveAppend? && !a.ReceiveAppendReply? && !a.Crash?
    requires var nd := s.nodes[Actor(s, a)]; nd.applied <= nd.commit
    ensures var nd, nd' := s.nodes[Actor(s, a)], Step(s, a).nodes[Actor(s, a)];
            && nd.log <= nd'.log && nd'.commit <= nd.commit && nd.term <= nd'.term
            && nd'.snap <= nd'.commit && nd'.applied <= nd'.commit
  {
    hide Messages;
  }

  /** The acting peer keeps a certificate for its commit index. */
  lemma ActorCert(c: Core, s: State, a: Action)
    requires Keeping(c, s) && Requested(s, a) && InBounds(s, a) && CutsNothing(s, a) && ActorLinked(c, s, a)
    ensures NodeCert(CoreStep(c, s, a), Actor(s, a), Step(s, a).nodes[Actor(s, a)])
  {
    hide Basic, Safe, Linked, AckedByReply, NodeLinked, VoteReqLinked, AppendLinked, AppendRepLinked, NodeCert, MsgCert;
    hide VotedCore, CountedCore, AppendedCore, RepliedCore, ProposedCore, ReplicatedCore, Stand, OnAppend, Evolves,
      Messages;
    hide OnRequestVote, OnVoteReply, Propose, Replicate, StartElection, BecomeCandidate, ApplyEntries, Snapshot;
    var v, nd, c' := Actor(s, a), s.nodes[Actor(s, a)], CoreStep(c, s, a);
    var nd' := Step(s, a).nodes[v];
    NodeStep(c, s, a);
    LocalFacts(c, c', v);
    NodeCertBounds(c, v, nd);
    match a {
      case ReceiveAppend(k) =>
        DeliveryIsFresh(c, s, k);
        AppendedCert(c, v, nd, s.sent[k]);
      case ReceiveAppendReply(r) =>
        RepliedCert(c, v, nd, r);
      case Crash(_) =>
        assert nd'.log == nd.log && nd'.snap == nd.snap && nd'.term == nd.term by { NodeDisk(c, v, nd); }
        CertStays(c, c', v, nd, nd');
      case _ =>
        QuietActor(s, a);
        CertStays(c, c', v, nd, nd');
    }
  }

  lemma NodeDisk(c: Core, v: nat, nd: Node)
    requires NodeLinked(c, v, nd)
    ensures nd.disk == Disk(nd.term, nd.votedFor, nd.log, nd.snap)
  {
  }

  lemma CertStep(c: Core, s: State, a: Action)
    requires Keeping(c, s) && Requested(s, a) && InBounds(s, a) && CutsNothing(s, a) && ActorLinked(c, s, a)
    ensures Certified(CoreStep(c, s, a), Step(s, a))
  {
    hide Basic, Safe, Linked, AckedByReply, NodeLinked, NodeCert, MsgCert, CoreStep, InBounds, CutsNothing;
    hide OnRequestVote, OnAppend, OnVoteReply, OnAppendReply, Replicate, Evolves, Local;
    var c', s', v := CoreStep(c, s, a), Step(s, a), Actor(s, a);
    NodeStep(c, s, a);
    LocalFacts(c, c', v);
    ActorCert(c, s, a);
    forall w | 0 <= w < |s'.nodes| ensures NodeCert(c', w, s'.nodes[w]) {
      if w != v {
        NodeCertBounds(c, w, s.nodes[w]);
        CertStays(c, c', w, s.nodes[w], s.nodes[w]);
      }
    }
    forall k | 0 <= k < |s'.sent| ensures MsgCert(c', s'.sent[k]) {
      if k < |s.sent| {
        MsgCertStays(c, c', s.sent[k]);
      } else {
        NewMsgCert(c, s, v, k - |s.sent|);
        MsgCertStays(c, c', s'.sent[k]);
      }
    }
  }

  lemma NewMsgCert(c: Core, s: State, v: nat, k: nat)
    requires Linked(c, s) && Basic(c) && v < |s.nodes| && NodeCert(c, v, s.nodes[v]) && NodeLinked(c, v, s.nodes[v])
    requires k < |Replicate(s.nodes[v], v, s.nodes[v].term).1|
    ensures MsgCert(c, Replicate(s.nodes[v], v, s.nodes[v].term).1[k])
  {
    hide Basic, Linked, NodeCert, MsgCert, BallotLinked, CandidateLinked, LeaderLinked, Messages;
    var nd := s.nodes[v];
    var nd1 := Replicate(nd, v, nd.term).0;
    LeaderLog(c, v, nd);
    MessagesSpec(nd1, v, |nd.next|, k);
    var p: nat :| p < |nd1.next| && p != v && CanSend(nd1, p)
      && Messages(nd1, v, |nd.next|)[k] == MessageFor(nd1, v, p);
    MessageCert(c, v, nd, MessageFor(nd1, v, p));
  }

  lemma KeepingStep(c: Core, s: State, a: Action)
    requires Keeping(c, s) && Requested(s, a) && InBounds(s, a) && CutsNothing(s, a)
    ensures ActorLinked(c, s, a) && Keeping(CoreStep(c, s, a), Step(s, a))
    ensures Evolves(c, CoreStep(c, s, a))
  {
    hide Basic, Safe, Linked, AckedByReply, Certified, ActorLinked, CoreStep, Step, Evolves, InBounds, CutsNothing;
    StepKeeps(c, s, a);
    StepSafe(c, s, a);
    AckedByReplyStep(c, s, a);
    CertStep(c, s, a);
  }
}
