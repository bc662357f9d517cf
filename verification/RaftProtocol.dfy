/** A Raft cluster as a state machine: the peers, the messages ever sent, and the steps. Messages
    stay available after they are handled, so a step may handle any of them late, again or never.
    Replies to votes are the exception: each belongs to one call, whose caller counts it once. */
module RaftProtocol {
  import opened RaftTypes
  import opened RaftNode

  datatype VoteRep = VoteRep(term: nat, candidate: nat, voter: nat, reply: VoteReply)
  datatype AppendRep = AppendRep(args: AppendArgs, reply: AppendReply)

  datatype State = State(
    nodes: seq<Node>,
    voteReqs: set<VoteArgs>,
    voteReps: set<VoteRep>,
    sent: seq<AppendArgs>,              // AppendEntries calls, in the order they were made
    appendReps: set<AppendRep>,
    handled: map<(nat, nat), nat>)      // (peer, term) -> position in `sent` handled last

  datatype Action =
    | ElectionTimeout(v: nat)
    | RunElection(v: nat)
    | ReceiveVote(v: nat, voteArgs: VoteArgs)
    | ReceiveVoteReply(voteRep: VoteRep)
    | ClientCommand(v: nat, cmd: Command)
    | ReplicateRound(v: nat)
    | ReceiveAppend(k: nat)
    | ReceiveAppendReply(appendRep: AppendRep)
    | ApplyCommitted(v: nat)
    | Compact(v: nat, index: nat)
    | Crash(v: nat)

  ghost predicate Init(s: State) {
    && s.nodes != []
    && (forall v | 0 <= v < |s.nodes| :: s.nodes[v] == Fresh(|s.nodes|))
    && s.voteReqs == {} && s.voteReps == {} && s.sent == [] && s.appendReps == {} && s.handled == map[]
  }

  /** The peer that takes the step. */
  function Actor(s: State, a: Action): nat
    requires a.ReceiveAppend? ==> a.k < |s.sent|
  {
    match a
    case ReceiveVoteReply(r) => r.candidate
    case ReceiveAppend(k) => s.sent[k].to
    case ReceiveAppendReply(r) => r.args.leader
    case _ => a.v
  }

  /** The step has a cause: a timer, a client, a crash, or a message sent earlier. */
  ghost predicate Requested(s: State, a: Action) {
    && (a.ReceiveAppend? ==> a.k < |s.sent|)
    && Actor(s, a) < |s.nodes|
    && var nd := s.nodes[Actor(s, a)];
       match a
       case ElectionTimeout(_) => nd.role != Leader
       case RunElection(_) => nd.standing
       case ReceiveVote(v, m) => m in s.voteReqs && v != m.candidate
       case ReceiveVoteReply(r) => r in s.voteReps && (r.term == nd.term ==> r.voter in nd.waiting)
       case ReceiveAppendReply(r) => r in s.appendReps
       case Compact(_, index) => index <= nd.commit
       case _ => true
  }

  /** No index the handler uses is out of its log. */
  ghost predicate InBounds(s: State, a: Action)
    requires Requested(s, a)
  {
    var nd := s.nodes[Actor(s, a)];
    && nd.log != [] && nd.snap < |nd.log| && nd.snap <= nd.commit && |nd.next| == |nd.matched| == |s.nodes|
    && match a
       case ReceiveAppendReply(r) =>
         && r.args.to < |s.nodes|
         && (!ContextLost(nd, Leader, r.args.term) ==>
               End(r.args) < |nd.log| && forall p | 0 <= p < |nd.matched| :: nd.matched[p] < |nd.log|)
       case ReplicateRound(v) =>
         nd.role == Leader ==> forall p | 0 <= p < |nd.next| :: 1 <= nd.next[p] <= |nd.log|
       case Compact(_, index) => index < |nd.log|
       case _ => true
  }

  /** Calls from one leader to one follower are handled in the order they were made. */
  ghost predicate InOrder(s: State, a: Action)
    requires Requested(s, a)
  {
    a.ReceiveAppend? ==>
      var m := s.sent[a.k];
      (m.to, m.term) in s.handled ==> s.handled[(m.to, m.term)] <= a.k
  }

  /** A successful reply of the same follower to a call of the same term. */
  predicate Acknowledges(r: AppendRep, m: AppendArgs) {
    r.reply.success && r.args.to == m.to && r.args.term == m.term
  }

  /** A call that the follower accepts ends no earlier than any call of that term it acknowledged. */
  ghost predicate CutsNothing(s: State, a: Action)
    requires Requested(s, a) && InBounds(s, a)
  {
    a.ReceiveAppend? && OnAppend(s.nodes[Actor(s, a)], s.sent[a.k]).1.success ==>
      forall r | r in s.appendReps && Acknowledges(r, s.sent[a.k]) :: End(r.args) <= End(s.sent[a.k])
  }

  ghost function Step(s: State, a: Action): State
    requires Requested(s, a) && InBounds(s, a)
  {
    var v := Actor(s, a);
    var nd := s.nodes[v];
    match a
    case ElectionTimeout(_) => s.(nodes := s.nodes[v := BecomeCandidate(nd, v)])
    case RunElection(_) =>
      s.(nodes := s.nodes[v := StartElection(nd, v, nd.term)],
         voteReqs := if nd.role == Candidate then s.voteReqs + {VoteRequest(nd, v)} else s.voteReqs)
    case ReceiveVote(_, m) =>
      var (nd1, reply) := OnRequestVote(nd, m);
      s.(nodes := s.nodes[v := nd1], voteReps := s.voteReps + {VoteRep(m.term, m.candidate, v, reply)})
    case ReceiveVoteReply(r) => s.(nodes := s.nodes[v := OnVoteReply(nd, r.term, r.voter, r.reply)])
    case ClientCommand(_, cmd) => s.(nodes := s.nodes[v := Propose(nd, cmd)])
    case ReplicateRound(_) =>
      var (nd1, messages) := Replicate(nd, v, nd.term);
      s.(nodes := s.nodes[v := nd1], sent := s.sent + messages)
    case ReceiveAppend(k) =>
      var m := s.sent[k];
      var (nd1, reply) := OnAppend(nd, m);
      s.(nodes := s.nodes[v := nd1], appendReps := s.appendReps + {AppendRep(m, reply)},
         handled := s.handled[(v, m.term) := k])
    case ReceiveAppendReply(r) => s.(nodes := s.nodes[v := OnAppendReply(nd, r.args, r.reply)])
    case ApplyCommitted(_) => s.(nodes := s.nodes[v := ApplyEntries(nd)])
    case Compact(_, index) => s.(nodes := s.nodes[v := Snapshot(nd, index)])
    case Crash(_) => s.(nodes := s.nodes[v := Restart(nd)])
  }

  ghost predicate Next(s: State, s': State) {
    exists a :: Requested(s, a) && InBounds(s, a) && s' == Step(s, a)
  }

  ghost predicate NextKeeping(s: State, s': State) {
    exists a :: Requested(s, a) && InBounds(s, a) && CutsNothing(s, a) && s' == Step(s, a)
  }

  ghost predicate NextInOrder(s: State, s': State) {
    exists a :: Requested(s, a) && InBounds(s, a) && InOrder(s, a) && s' == Step(s, a)
  }

  /** Any run: messages may be lost, delayed, repeated and reordered, and peers may crash. */
  ghost predicate IsRun(run: seq<State>) {
    run != [] && Init(run[0]) && forall i | 0 < i < |run| :: Next(run[i - 1], run[i])
  }

  /** Any run in which no accepted call ends before an acknowledged one. */
  ghost predicate IsKeepingRun(run: seq<State>) {
    run != [] && Init(run[0]) && forall i | 0 < i < |run| :: NextKeeping(run[i - 1], run[i])
  }

  /** Any run in which each follower handles the calls of a term in the order they were made. */
  ghost predicate IsOrderedRun(run: seq<State>) {
    run != [] && Init(run[0]) && forall i | 0 < i < |run| :: NextInOrder(run[i - 1], run[i])
  }
}
