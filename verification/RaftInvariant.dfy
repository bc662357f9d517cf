/** Ties a cluster's state to the recorded core of its run, and shows that every step of a peer
    is a few core steps. */
module RaftInvariant {
  import opened RaftTypes
  import opened RaftNode
  import opened RaftProtocol
  import opened RaftCore

  // ---- The link ----

  /** Peers whose ballots of term `t` went to `v`, apart from those still waited for. */
  ghost function Won(c: Core, t: nat, v: nat, waiting: set<nat>): set<nat> {
    set w | w in Peers(|c.terms|) && w !in waiting && (t, w) in c.ballots && c.ballots[(t, w)] == v
  }

  ghost predicate CandidateLinked(c: Core, v: nat, nd: Node) {
    && (nd.term, v) in c.candLog && c.candLog[(nd.term, v)] == nd.log
    && (nd.term in c.leader ==> c.leader[nd.term] != v)
    && v !in nd.waiting
    && (nd.standing ==> nd.waiting == {})
    && (!nd.standing ==> nd.votes <= |Won(c, nd.term, v, nd.waiting)|)
  }

  ghost predicate LeaderLinked(c: Core, v: nat, nd: Node) {
    && nd.term in c.leader && c.leader[nd.term] == v
    && |nd.next| == |nd.matched|
    && forall p: nat | p < |nd.next| ::
         && 1 <= nd.next[p] <= |nd.log|
         && nd.matched[p] <= Acked(c, nd.term, p) && nd.matched[p] < |nd.log|
  }

  ghost predicate BallotLinked(c: Core, v: nat, nd: Node) {
    if nd.votedFor == -1 then (nd.term, v) !in c.ballots
    else (nd.term, v) in c.ballots && c.ballots[(nd.term, v)] == nd.votedFor
  }

  ghost predicate NodeLinked(c: Core, v: nat, nd: Node) {
    && v < |c.terms| == |c.logs|
    && NodeOk(nd) && |nd.next| == |c.terms|
    && nd.term == c.terms[v] && nd.log == c.logs[v]
    && BallotLinked(c, v, nd)
    && (nd.role == Candidate ==> CandidateLinked(c, v, nd))
    && (nd.role == Leader ==> LeaderLinked(c, v, nd))
  }

  ghost predicate VoteReqLinked(c: Core, m: VoteArgs) {
    && (m.term, m.candidate) in c.candLog && c.candLog[(m.term, m.candidate)] != []
    && m.lastIndex == LastIndex(c.candLog[(m.term, m.candidate)])
    && m.lastTerm == LastTerm(c.candLog[(m.term, m.candidate)])
  }

  ghost predicate VoteRepLinked(c: Core, r: VoteRep) {
    r.reply.granted ==> (r.term, r.voter) in c.ballots && c.ballots[(r.term, r.voter)] == r.candidate
  }

  /** A message holds its leader's whole log, as it was, above `prevIndex`. */
  ghost predicate AppendLinked(c: Core, m: AppendArgs) {
    && m.to < |c.terms|
    && m.term in c.leader && c.leader[m.term] == m.leader && m.leader != m.to
    && m.term in c.initLog && m.term in c.leaderLog
    && |c.initLog[m.term]| <= End(m) + 1 <= |c.leaderLog[m.term]|
    && c.leaderLog[m.term][m.prevIndex].term == m.prevTerm
    && c.leaderLog[m.term][m.prevIndex + 1..End(m) + 1] == m.entries
  }

  ghost predicate AppendRepLinked(c: Core, r: AppendRep) {
    && AppendLinked(c, r.args)
    && (r.reply.success ==> End(r.args) <= Acked(c, r.args.term, r.args.to))
    && (!r.reply.success ==> r.reply.term > r.args.term || r.reply.conflictIndex >= 1)
  }

  ghost predicate NodesLinked(c: Core, nodes: seq<Node>) {
    |nodes| == |c.terms| && forall v | 0 <= v < |nodes| :: NodeLinked(c, v, nodes[v])
  }

  ghost predicate VotesLinked(c: Core, s: State) {
    && (forall m | m in s.voteReqs :: VoteReqLinked(c, m))
    && (forall r | r in s.voteReps :: VoteRepLinked(c, r))
  }

  ghost predicate AppendsLinked(c: Core, s: State) {
    && (forall k | 0 <= k < |s.sent| :: AppendLinked(c, s.sent[k]))
    && (forall j, k | 0 <= j <= k < |s.sent| && s.sent[j].term == s.sent[k].term :: End(s.sent[j]) <= End(s.sent[k]))
    && (forall r | r in s.appendReps :: AppendRepLinked(c, r))
    && (forall v, t | (v, t) in s.handled ::
          var k := s.handled[(v, t)];
          k < |s.sent| && s.sent[k].to == v && s.sent[k].term == t)
  }

  ghost predicate Linked(c: Core, s: State) {
    s.nodes != [] && NodesLinked(c, s.nodes) && VotesLinked(c, s) && AppendsLinked(c, s)
  }

  // ---- How the core moves when peer `v` takes a step ----

  /** Nothing recorded is lost. */
  ghost predicate Evolves(c: Core, c': Core) {
    && TermsGrow(c.terms, c'.terms)
    && Adds(c.ballots, c'.ballots) && Adds(c.candLog, c'.candLog)
    && Adds(c.leader, c'.leader) && Adds(c.initLog, c'.initLog)
    && Grows(c.leaderLog, c'.leaderLog)
    && (forall t: nat, w: nat :: Acked(c, t, w) <= Acked(c', t, w))
    && c.commits.Keys <= c'.commits.Keys
  }

  /** ... and only peer `v` is concerned. */
  ghost predicate Local(c: Core, c': Core, v: nat) {
    && Evolves(c, c') && |c'.logs| == |c.logs| == |c.terms|
    && (forall w | 0 <= w < |c.terms| && w != v :: c'.terms[w] == c.terms[w] && c'.logs[w] == c.logs[w])
    && (forall t, w | (t, w) in c'.ballots && w != v :: (t, w) in c.ballots)
    && (forall t | t in c'.leader && t !in c.leader :: c'.leader[t] == v)
  }

  lemma EvolvesTrans(a: Core, b: Core, c: Core)
    requires Evolves(a, b) && Evolves(b, c)
    ensures Evolves(a, c)
  {
    forall t | t in a.leaderLog ensures t in c.leaderLog && a.leaderLog[t] <= c.leaderLog[t] {
      assert a.leaderLog[t] <= b.leaderLog[t] <= c.leaderLog[t];
    }
    forall t: nat, w: nat ensures Acked(a, t, w) <= Acked(c, t, w) {
      assert Acked(a, t, w) <= Acked(b, t, w);
    }
  }

  lemma LocalTrans(a: Core, b: Core, c: Core, v: nat)
    requires Local(a, b, v) && Local(b, c, v)
    ensures Local(a, c, v)
  {
    hide Evolves;
    EvolvesTrans(a, b, c);
    EvolvesTerms(a, b);
    EvolvesTerms(b, c);
  }

  lemma EvolvesTerms(a: Core, b: Core)
    requires Evolves(a, b)
    ensures TermsGrow(a.terms, b.terms) && Adds(a.ballots, b.ballots) && Adds(a.leader, b.leader)
  {
  }

  lemma LocalRefl(c: Core, v: nat)
    requires |c.logs| == |c.terms|
    ensures Local(c, c, v)
  {
  }

  lemma BumpLocal(c: Core, v: nat, t: nat)
    requires ShapeOk(c) && CanBump(c, v, t)
    ensures Local(c, Bump(c, v, t), v)
  {
  }

  lemma StandLocal(c: Core, v: nat)
    requires ShapeOk(c) && BallotsOk(c) && CanStand(c, v)
    ensures Local(c, Stand(c, v), v)
  {
  }

  lemma VoteLocal(c: Core, v: nat, t: nat, d: nat)
    requires ShapeOk(c) && CanVote(c, v, t, d)
    ensures Local(c, Vote(c, v, t, d), v)
  {
  }

  lemma ElectLocal(c: Core, v: nat, t: nat, q: set<nat>)
    requires ShapeOk(c) && CanElect(c, v, t, q)
    ensures Local(c, Elect(c, v, t, q), v)
  {
  }

  lemma AppendLocal(c: Core, t: nat, e: Entry)
    requires ShapeOk(c) && CanAppend(c, t)
    ensures Local(c, Append(c, t, e), c.leader[t])
  {
  }

  lemma AcceptLocal(c: Core, v: nat, t: nat, end: nat)
    requires ShapeOk(c) && CanAccept(c, v, t, end)
    ensures Local(c, Accept(c, v, t, end), v)
  {
  }

  lemma SelfAckLocal(c: Core, t: nat)
    requires Basic(c) && CanSelfAck(c, t)
    ensures Local(c, SelfAck(c, t), c.leader[t])
  {
    hide LogsOk, BallotsOk, LeadersOk;
    AckBound(c, t, c.leader[t]);
  }

  lemma CommitLocal(c: Core, t: nat, i: nat, q: set<nat>, v: nat)
    requires ShapeOk(c) && CanCommit(c, t, i, q)
    ensures Local(c, Commit(c, t, i, q), v)
  {
  }

  // ---- The link survives ----

  lemma WonGrows(c: Core, c': Core, t: nat, v: nat, waiting: set<nat>, waiting': set<nat>)
    requires Adds(c.ballots, c'.ballots) && |c'.terms| == |c.terms| && waiting' <= waiting
    ensures |Won(c, t, v, waiting)| <= |Won(c', t, v, waiting')|
  {
    SubsetSize(Won(c, t, v, waiting), Won(c', t, v, waiting'));
  }

  lemma OtherNodeLinked(c: Core, c': Core, v: nat, w: nat, nd: Node)
    requires Local(c, c', v) && w != v && NodeLinked(c, w, nd)
    ensures NodeLinked(c', w, nd)
  {
    hide Won;
    WonGrows(c, c', nd.term, w, nd.waiting, nd.waiting);
  }

  lemma VoteMessagesStay(c: Core, c': Core, s: State)
    requires Evolves(c, c') && VotesLinked(c, s)
    ensures VotesLinked(c', s)
  {
  }

  lemma AppendStays(c: Core, c': Core, m: AppendArgs)
    requires Evolves(c, c') && AppendLinked(c, m)
    ensures AppendLinked(c', m)
  {
    assert c.leaderLog[m.term] <= c'.leaderLog[m.term];
    assert c'.leaderLog[m.term][m.prevIndex + 1..End(m) + 1] == c.leaderLog[m.term][m.prevIndex + 1..End(m) + 1];
  }

  lemma AppendMessagesStay(c: Core, c': Core, s: State)
    requires Evolves(c, c') && AppendsLinked(c, s)
    ensures AppendsLinked(c', s)
  {
    hide AppendLinked;
    forall k | 0 <= k < |s.sent| ensures AppendLinked(c', s.sent[k]) {
      AppendStays(c, c', s.sent[k]);
    }
    forall r | r in s.appendReps ensures AppendRepLinked(c', r) {
      AppendStays(c, c', r.args);
    }
  }

  /** A step that changes only peer `v` keeps the link if it keeps `v`'s. */
  lemma LinkStays(c: Core, c': Core, s: State, v: nat, nd: Node)
    requires Linked(c, s) && v < |s.nodes| && Local(c, c', v) && NodeLinked(c', v, nd)
    ensures Linked(c', s.(nodes := s.nodes[v := nd]))
  {
    hide NodeLinked, VoteReqLinked, VoteRepLinked, AppendLinked, AppendRepLinked, NodeOk;
    assert Evolves(c, c') && |c'.terms| == |c.terms| by { LocalFacts(c, c', v); }
    hide Local, Evolves;
    VoteMessagesStay(c, c', s);
    AppendMessagesStay(c, c', s);
    forall w | 0 <= w < |s.nodes| && w != v ensures NodeLinked(c', w, s.nodes[w]) {
      OtherNodeLinked(c, c', v, w, s.nodes[w]);
    }
  }

  lemma LocalFacts(c: Core, c': Core, v: nat)
    requires Local(c, c', v)
    ensures Evolves(c, c') && |c'.terms| == |c.terms|
  {
  }
}
