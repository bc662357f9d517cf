/** What the handlers of a peer mean to the other peers: when votes are granted and elections won, who steps
    down, whom a leader calls, and what its commit index says. */
module RaftHandlers {
  import opened RaftTypes
  import opened RaftNode
  import opened RaftSteps

  // ---- Roles ----

  /** A term makes a peer its follower unless it is an earlier one; a later one clears the vote and is saved. */
  lemma FollowsWhen(nd: Node, t: nat)
    ensures BecomeFollower(nd, t) ==
            if t < nd.term then nd
            else if t == nd.term then nd.(role := Follower)
            else nd.(role := Follower, term := t, votedFor := -1, disk := Disk(t, -1, nd.log, nd.snap))
  {
  }

  /** Any peer but a leader stands in the next term, with its own vote, saved, and nothing counted yet. */
  lemma StandsWhen(nd: Node, me: nat)
    ensures var nd' := BecomeCandidate(nd, me);
            && (nd.role == Leader ==> nd' == nd)
            && (nd.role != Leader ==>
                  && nd'.role == Candidate && nd'.standing && nd'.votes == 0 && nd'.waiting == {}
                  && nd'.disk == Disk(nd.term + 1, me, nd.log, nd.snap)
                  && nd' == nd.(role := Candidate, term := nd.term + 1, votedFor := me, standing := true,
                                votes := 0, waiting := {}, disk := nd'.disk))
  {
  }

  // ---- Votes ----

  /** A vote is granted exactly to a candidate of a later term, or of the same term if there was no vote in it,
      whose last entry is not behind the voter's. The answer carries the voter's term before the call. */
  lemma VoteGrantedWhen(nd: Node, a: VoteArgs)
    requires nd.log != []
    ensures var (nd', r) := OnRequestVote(nd, a);
            var last := |nd.log| - 1;
            && r.term == nd.term
            && (r.granted <==>
                  && (a.term > nd.term || (a.term == nd.term && nd.votedFor == -1))
                  && (a.lastTerm > nd.log[last].term || (a.lastTerm == nd.log[last].term && a.lastIndex >= last)))
            && (r.granted ==> nd'.votedFor == nd'.disk.votedFor == a.candidate && nd'.term == nd'.disk.term == a.term)
            && (!r.granted ==> nd'.votedFor == if a.term > nd.term then -1 else nd.votedFor)
            && nd'.term == (if a.term > nd.term then a.term else nd.term)
            && nd'.role == (if a.term > nd.term then Follower else nd.role)
            && nd'.log == nd.log && nd'.snap == nd.snap && nd'.commit == nd.commit && nd'.applied == nd.applied
  {
  }

  /** A candidate that asks a peer of a later term and hears the answer follows that term. */
  lemma RefusalUnseatsCandidate(voter: Node, candidate: Node, m: VoteArgs, peer: nat)
    requires voter.log != [] && m.term < voter.term && candidate.term == m.term
    ensures var (voter', r) := OnRequestVote(voter, m);
            var candidate' := OnVoteReply(candidate, m.term, peer, r);
            && voter' == voter && !r.granted
            && candidate'.role == Follower && candidate'.term == candidate'.disk.term == voter.term
            && candidate'.votedFor == -1 && candidate'.log == candidate.log
  {
  }

  /** Answers for an earlier term, or that come when the election is over, change nothing. */
  lemma LateVotesIgnored(nd: Node, term: nat, peer: nat, r: VoteReply)
    requires r.term <= nd.term && (nd.term != term || nd.role != Candidate)
    ensures OnVoteReply(nd, term, peer, r) == nd
  {
  }

  datatype Answer = Answer(peer: nat, reply: VoteReply)

  /** The candidate hears the answers one after the other. */
  ghost function Hear(nd: Node, term: nat, answers: seq<Answer>): Node {
    if answers == [] then nd
    else
      var last := answers[|answers| - 1];
      OnVoteReply(Hear(nd, term, answers[..|answers| - 1]), term, last.peer, last.reply)
  }

  ghost function Granted(answers: seq<Answer>): nat {
    if answers == [] then 0
    else Granted(answers[..|answers| - 1]) + (if answers[|answers| - 1].reply.granted then 1 else 0)
  }

  /** A candidate that has asked all others leads exactly when some vote was granted and, with its own, they are
      more than half. It then expects every peer to have its whole log, and knows nothing of any. */
  lemma {:induction false} ElectedWhen(nd: Node, me: nat, answers: seq<Answer>)
    requires nd.role == Candidate && forall k | 0 <= k < |answers| :: answers[k].reply.term <= nd.term
    ensures var nd' := Hear(StartElection(nd, me, nd.term), nd.term, answers);
            && nd'.term == nd.term && nd'.log == nd.log && |nd'.next| == |nd.next|
            && (nd'.role == Leader <==> Granted(answers) > 0 && 1 + Granted(answers) > |nd.next| / 2)
            && (nd'.role != Leader ==> nd'.role == Candidate && nd'.votes == 1 + Granted(answers))
            && (nd'.role == Leader ==> |nd'.matched| == |nd.next|)
            && (nd'.role == Leader ==> forall p | 0 <= p < |nd.next| :: nd'.next[p] == |nd.log| && nd'.matched[p] == 0)
  {
    if answers != [] {
      ElectedWhen(nd, me, answers[..|answers| - 1]);
    }
  }

  // ---- The service ----

  /** A command is taken exactly by a leader: one new entry of its term at the end of its log, saved. */
  lemma CommandTakenWhen(nd: Node, cmd: Command)
    ensures var nd' := Propose(nd, cmd);
            && (nd.role != Leader ==> nd' == nd)
            && (nd.role == Leader ==>
                  && |nd'.log| == |nd.log| + 1 && nd'.log[..|nd.log|] == nd.log
                  && nd'.log[|nd.log|] == Entry(nd.term, true, cmd)
                  && nd'.disk == Disk(nd.term, nd.votedFor, nd'.log, nd.snap)
                  && nd' == nd.(log := nd'.log, disk := nd'.disk))
  {
  }

  /** The snapshot index moves exactly to a committed index above it, saved; nothing else changes. */
  lemma SnapshotTakenWhen(nd: Node, index: nat)
    ensures var nd' := Snapshot(nd, index);
            && nd'.snap == (if nd.snap < index <= nd.commit then index else nd.snap)
            && (nd'.snap != nd.snap ==> nd'.disk == Disk(nd.term, nd.votedFor, nd.log, index))
            && nd' == nd.(snap := nd'.snap, disk := nd'.disk)
  {
  }

  // ---- Calls ----

  ghost predicate IsCalled(calls: seq<AppendArgs>, p: nat) {
    exists k :: 0 <= k < |calls| && calls[k].to == p
  }

  /** In a round, the leader calls every other peer that is not behind its snapshot, and nobody else. */
  lemma EveryoneIsCalled(nd: Node, me: nat, p: nat)
    requires nd.role == Leader && nd.log != [] && me < |nd.next| == |nd.matched|
    requires forall q | 0 <= q < |nd.next| :: nd.next[q] <= |nd.log|
    ensures IsCalled(Replicate(nd, me, nd.term).1, p) <==> p < |nd.next| && p != me && nd.snap < nd.next[p]
  {
    hide IsCalled, Messages;
    CalledUpTo(Replicate(nd, me, nd.term).0, me, |nd.next|, p);
  }

  lemma {:induction false} CalledUpTo(nd: Node, me: nat, upTo: nat, p: nat)
    requires upTo <= |nd.next| && forall q | 0 <= q < |nd.next| && q != me :: nd.next[q] <= |nd.log|
    ensures IsCalled(Messages(nd, me, upTo), p) <==> p < upTo && p != me && nd.snap < nd.next[p]
  {
    if upTo > 0 {
      CalledUpTo(nd, me, upTo - 1, p);
      var before, q := Messages(nd, me, upTo - 1), upTo - 1;
      if q != me && CanSend(nd, q) {
        CalledMore(before, MessageFor(nd, me, q), p);
      } else {
        assert Messages(nd, me, upTo) == before;
      }
    }
  }

  lemma CalledMore(calls: seq<AppendArgs>, m: AppendArgs, p: nat)
    ensures IsCalled(calls + [m], p) <==> IsCalled(calls, p) || m.to == p
  {
    var more := calls + [m];
    if IsCalled(calls, p) {
      var k :| 0 <= k < |calls| && calls[k].to == p;
      assert more[k].to == p;
    }
    assert more[|calls|] == m;
  }

  /** A call carries everything from the peer's next index on, what comes before it, and the commit index. */
  lemma CallCarries(nd: Node, me: nat, k: nat)
    requires nd.role == Leader && nd.log != [] && me < |nd.next| == |nd.matched|
    requires k < |Replicate(nd, me, nd.term).1|
    ensures var m := Replicate(nd, me, nd.term).1[k];
            && m.to < |nd.next| && m.to != me && 0 < nd.next[m.to] <= |nd.log|
            && m.term == nd.term && m.leader == me && m.leaderCommit == nd.commit
            && m.prevIndex == nd.next[m.to] - 1 && m.prevTerm == nd.log[m.prevIndex].term
            && nd.log == nd.log[..m.prevIndex + 1] + m.entries
  {
    hide Messages;
    var nd1 := Replicate(nd, me, nd.term).0;
    MessagesSpec(nd1, me, |nd.next|, k);
    var p: nat :| p < |nd1.next| && p != me && CanSend(nd1, p)
      && Messages(nd1, me, |nd.next|)[k] == MessageFor(nd1, me, p);
    assert nd.log == nd.log[..nd.next[p]] + nd.log[nd.next[p]..];
  }

  /** A leader that calls a peer of a later term and hears the answer follows that term. */
  lemma RejectionUnseatsLeader(follower: Node, leader: Node, a: AppendArgs)
    requires follower.log != [] && follower.snap < |follower.log| && a.term < follower.term && leader.term == a.term
    requires a.to < |leader.next| == |leader.matched| && End(a) < |leader.log|
    requires forall p | 0 <= p < |leader.matched| :: leader.matched[p] < |leader.log|
    ensures var (follower', r) := OnAppend(follower, a);
            var leader' := OnAppendReply(leader, a, r);
            && follower' == follower && !r.success
            && leader'.role == Follower && leader'.term == leader'.disk.term == follower.term
               && leader'.log == leader.log
  {
  }

  /** A call is accepted exactly if it is not of an earlier term and the follower's log has the entry before the
      call's own. The answer carries the follower's term before the call; a call of an earlier term changes
      nothing, and any other makes the peer a follower of its term. */
  lemma CallAcceptedWhen(nd: Node, a: AppendArgs)
    requires nd.log != [] && nd.snap < |nd.log|
    ensures var (nd', r) := OnAppend(nd, a);
            && r.term == nd.term
            && (r.success <==>
                  a.term >= nd.term && nd.snap <= a.prevIndex < |nd.log| && nd.log[a.prevIndex].term == a.prevTerm)
            && (a.term < nd.term ==> nd' == nd)
            && (a.term >= nd.term ==> nd'.role == Follower && nd'.term == a.term)
            && (a.term > nd.term ==> nd'.disk.term == a.term && nd'.votedFor == nd'.disk.votedFor == -1)
            && (!r.success ==> nd'.log == nd.log && nd'.commit == nd.commit)
  {
    hide FirstForFrom;
  }

  /** An accepted call cuts the log after the entry before its own and continues it, saves it, and takes over the
      leader's commit index if that is larger. */
  lemma AcceptedCallWrites(nd: Node, a: AppendArgs)
    requires nd.log != [] && nd.snap < |nd.log| && OnAppend(nd, a).1.success
    ensures var nd' := OnAppend(nd, a).0;
            && |nd'.log| == a.prevIndex + |a.entries| + 1 && a.prevIndex < |nd.log|
            && (forall k | 0 <= k <= a.prevIndex :: nd'.log[k] == nd.log[k])
            && (forall k | 0 <= k < |a.entries| :: nd'.log[a.prevIndex + 1 + k] == a.entries[k])
            && nd'.disk == Disk(nd'.term, nd'.votedFor, nd'.log, nd.snap)
            && nd'.commit == (if a.leaderCommit > nd.commit then a.leaderCommit else nd.commit)
            && nd'.snap == nd.snap && nd'.applied == nd.applied
  {
    hide OnAppend;
    CallAcceptedWhen(nd, a);
    AcceptShape(nd, a);
  }

  /** `top` is the largest index that more than half of the peers have. */
  ghost predicate IsTop(matched: seq<nat>, top: nat) {
    |Holders(matched, top)| > |matched| / 2 && |Holders(matched, top + 1)| <= |matched| / 2
  }

  /** What a leader learns from a success: how far the peer has come. The commit index moves exactly to the
      largest index that more than half have, if that is larger and its entry is of the leader's term. */
  lemma SuccessMoves(nd: Node, a: AppendArgs, r: AppendReply, top: nat)
    requires a.to < |nd.next| == |nd.matched| && nd.role == Leader && nd.term == a.term && r.term <= nd.term
             && r.success
    requires End(a) < |nd.log| && forall p | 0 <= p < |nd.matched| :: nd.matched[p] < |nd.log|
    requires IsTop(nd.matched[a.to := a.prevIndex + |a.entries|], top)
    ensures top < |nd.log|
    ensures OnAppendReply(nd, a, r) == nd.(matched := nd.matched[a.to := a.prevIndex + |a.entries|],
                                           next := nd.next[a.to := a.prevIndex + |a.entries| + 1],
                                           commit := if top > nd.commit && nd.log[top].term == nd.term then top
                                           else nd.commit)
  {
    hide MajorityIndex, Holders;
    var matched := nd.matched[a.to := a.prevIndex + |a.entries|];
    MajorityMember(matched);
    MajorityIndexSpec(matched, top);
    MajorityIndexSpec(matched, top + 1);
  }

  /** Answers to calls of an earlier term, or that come when the peer no longer leads, change nothing. */
  lemma LateAnswersIgnored(nd: Node, a: AppendArgs, r: AppendReply)
    requires a.to < |nd.next| == |nd.matched| && r.term <= nd.term && (nd.term != a.term || nd.role != Leader)
    ensures OnAppendReply(nd, a, r) == nd
  {
  }
}
