/** When a follower accepts a call that ends before one it acknowledged, state machine safety fails: the
    call cuts the follower's log right after `prevIndex` and so undoes an acknowledged entry. This is a
    run of three peers in which two leaders commit different commands at index 1. */
module RaftReorder {
  import opened RaftTypes
  import opened RaftNode
  import opened RaftProtocol
  import opened RaftTheorems

  const X: Entry := Entry(2, true, "x")
  const Y: Entry := Entry(3, true, "y")

  function Peer(role: Role, term: nat, votedFor: int, log: Log, next: seq<int>, matched: seq<nat>, commit: nat,
                standing: bool, votes: nat, waiting: set<nat>): Node
  {
    Node(role, term, votedFor, log, 0, next, matched, commit, 0, standing, votes, waiting,
         Disk(term, votedFor, log, 0))
  }

  const L0: Log := [Dummy]
  const LX: Log := [Dummy, X]
  const LY: Log := [Dummy, Y]
  const Z3: seq<int> := [0, 0, 0]
  const M3: seq<nat> := [0, 0, 0]

  const Idle: Node := Peer(Follower, 1, -1, L0, Z3, M3, 0, false, 0, {})

  // Peer 0: candidate and leader of term 2.
  const P0Stands: Node := Peer(Candidate, 2, 0, L0, Z3, M3, 0, true, 0, {})
  const P0Asks: Node := Peer(Candidate, 2, 0, L0, Z3, M3, 0, false, 1, {1, 2})
  const P0Leads: Node := Peer(Leader, 2, 0, L0, [1, 1, 1], M3, 0, false, 2, {2})
  const P0Holds: Node := Peer(Leader, 2, 0, LX, [1, 1, 1], M3, 0, false, 2, {2})
  const P0Sends: Node := Peer(Leader, 2, 0, LX, [2, 1, 1], [1, 0, 0], 0, false, 2, {2})
  const P0Commits: Node := Peer(Leader, 2, 0, LX, [2, 2, 1], [1, 1, 0], 1, false, 2, {2})

  // Peer 1: the follower both leaders rely on.
  const P1Votes: Node := Peer(Follower, 2, 0, L0, Z3, M3, 0, false, 0, {})
  const P1Holds: Node := Peer(Follower, 2, 0, LX, Z3, M3, 0, false, 0, {})
  const P1VotesAgain: Node := Peer(Follower, 3, 2, L0, Z3, M3, 0, false, 0, {})
  const P1HoldsY: Node := Peer(Follower, 3, 2, LY, Z3, M3, 0, false, 0, {})

  // Peer 2: candidate of term 2, then leader of term 3.
  const P2Stands: Node := Peer(Candidate, 2, 2, L0, Z3, M3, 0, true, 0, {})
  const P2StandsAgain: Node := Peer(Candidate, 3, 2, L0, Z3, M3, 0, true, 0, {})
  const P2Asks: Node := Peer(Candidate, 3, 2, L0, Z3, M3, 0, false, 1, {0, 1})
  const P2Leads: Node := Peer(Leader, 3, 2, L0, [1, 1, 1], M3, 0, false, 2, {0})
  const P2Holds: Node := Peer(Leader, 3, 2, LY, [1, 1, 1], M3, 0, false, 2, {0})
  const P2Sends: Node := Peer(Leader, 3, 2, LY, [1, 1, 2], [0, 0, 1], 0, false, 2, {0})
  const P2Commits: Node := Peer(Leader, 3, 2, LY, [1, 2, 2], [0, 1, 1], 1, false, 2, {0})

  const Ask0: VoteArgs := VoteArgs(2, 0, 0, 0)
  const Ask2: VoteArgs := VoteArgs(3, 2, 0, 0)
  const Yes0: VoteRep := VoteRep(2, 0, 1, VoteReply(1, true))
  const Yes2: VoteRep := VoteRep(3, 2, 1, VoteReply(2, true))

  function Call(term: nat, leader: nat, to: nat, entries: seq<Entry>): AppendArgs {
    AppendArgs(term, leader, to, 0, 0, entries, 0)
  }

  const Done: AppendReply := AppendReply(2, true, 0, 0)
  const Done3: AppendReply := AppendReply(3, true, 0, 0)

  // Calls in the order they are made: two heartbeats, two carrying X, two carrying Y.
  const Sent2: seq<AppendArgs> := [Call(2, 0, 1, []), Call(2, 0, 2, [])]
  const Sent4: seq<AppendArgs> := [Call(2, 0, 1, []), Call(2, 0, 2, []), Call(2, 0, 1, [X]), Call(2, 0, 2, [X])]
  const Sent6: seq<AppendArgs> := [Call(2, 0, 1, []), Call(2, 0, 2, []), Call(2, 0, 1, [X]), Call(2, 0, 2, [X]),
                                   Call(3, 2, 0, [Y]), Call(3, 2, 1, [Y])]

  const RepX: AppendRep := AppendRep(Call(2, 0, 1, [X]), Done)
  const RepLate: AppendRep := AppendRep(Call(2, 0, 1, []), Done)
  const RepY: AppendRep := AppendRep(Call(3, 2, 1, [Y]), Done3)

  /** The states of the run. */
  ghost function Run(): seq<State> {
    [ State([Idle, Idle, Idle], {}, {}, [], {}, map[]),
      State([P0Stands, Idle, Idle], {}, {}, [], {}, map[]),
      State([P0Asks, Idle, Idle], {Ask0}, {}, [], {}, map[]),
      State([P0Asks, P1Votes, Idle], {Ask0}, {Yes0}, [], {}, map[]),
      State([P0Leads, P1Votes, Idle], {Ask0}, {Yes0}, [], {}, map[]),
      State([P0Leads, P1Votes, Idle], {Ask0}, {Yes0}, Sent2, {}, map[]),
      State([P0Holds, P1Votes, Idle], {Ask0}, {Yes0}, Sent2, {}, map[]),
      State([P0Sends, P1Votes, Idle], {Ask0}, {Yes0}, Sent4, {}, map[]),
      State([P0Sends, P1Holds, Idle], {Ask0}, {Yes0}, Sent4, {RepX}, map[(1, 2) := 2]),
      State([P0Commits, P1Holds, Idle], {Ask0}, {Yes0}, Sent4, {RepX}, map[(1, 2) := 2]),
      State([P0Commits, P1Votes, Idle], {Ask0}, {Yes0}, Sent4, {RepX, RepLate}, map[(1, 2) := 0]),
      State([P0Commits, P1Votes, P2Stands], {Ask0}, {Yes0}, Sent4, {RepX, RepLate}, map[(1, 2) := 0]),
      State([P0Commits, P1Votes, P2StandsAgain], {Ask0}, {Yes0}, Sent4, {RepX, RepLate}, map[(1, 2) := 0]),
      State([P0Commits, P1Votes, P2Asks], {Ask0, Ask2}, {Yes0}, Sent4, {RepX, RepLate}, map[(1, 2) := 0]),
      State([P0Commits, P1VotesAgain, P2Asks], {Ask0, Ask2}, {Yes0, Yes2}, Sent4, {RepX, RepLate}, map[(1, 2) := 0]),
      State([P0Commits, P1VotesAgain, P2Leads], {Ask0, Ask2}, {Yes0, Yes2}, Sent4, {RepX, RepLate}, map[(1, 2) := 0]),
      State([P0Commits, P1VotesAgain, P2Holds], {Ask0, Ask2}, {Yes0, Yes2}, Sent4, {RepX, RepLate}, map[(1, 2) := 0]),
      State([P0Commits, P1VotesAgain, P2Sends], {Ask0, Ask2}, {Yes0, Yes2}, Sent6, {RepX, RepLate}, map[(1, 2) := 0]),
      State([P0Commits, P1HoldsY, P2Sends], {Ask0, Ask2}, {Yes0, Yes2}, Sent6, {RepX, RepLate, RepY},
            map[(1, 2) := 0, (1, 3) := 5]),
      State([P0Commits, P1HoldsY, P2Commits], {Ask0, Ask2}, {Yes0, Yes2}, Sent6, {RepX, RepLate, RepY},
            map[(1, 2) := 0, (1, 3) := 5])
    ]
  }

  ghost predicate Takes(s: State, a: Action, s': State) {
    Requested(s, a) && InBounds(s, a) && s' == Step(s, a)
  }

  /** One replication round of a leader that has heard nothing yet: its whole log to each of the others. */
  lemma Round(nd: Node, me: nat, p: nat, q: nat, nd': Node, tail: seq<Entry>)
    requires nd.role == Leader && nd.snap == 0 && nd.commit == 0 && nd.log == [Dummy] + tail
    requires nd.next == [1, 1, 1] && nd.matched == [0, 0, 0]
    requires (me, p, q) == (0, 1, 2) || (me, p, q) == (2, 0, 1)
    requires nd' == nd.(matched := nd.matched[me := |tail|], next := nd.next[me := |tail| + 1])
    ensures Replicate(nd, me, nd.term) == (nd', [Call(nd.term, me, p, tail), Call(nd.term, me, q, tail)])
  {
    assert nd.log[1..] == tail;
    assert Messages(nd', me, 0) == [];
    assert Messages(nd', me, 1) == if me == 0 then [] else [Call(nd.term, me, p, tail)];
    assert Messages(nd', me, 2) == if me == 0 then [Call(nd.term, me, p, tail)]
                                   else [Call(nd.term, me, p, tail), Call(nd.term, me, q, tail)];
    assert Messages(nd', me, 3) == [Call(nd.term, me, p, tail), Call(nd.term, me, q, tail)];
  }

  lemma Majority(matched: seq<nat>)
    requires matched == [1, 1, 0] || matched == [0, 1, 1]
    ensures MajorityIndex(matched) == 1
  {
    MajorityIndexSpec(matched, 1);
    MajorityIndexSpec(matched, 2);
    var ones := if matched == [1, 1, 0] then {0, 1} else {1, 2};
    assert Holders(matched, 1) == ones;
    assert Holders(matched, 2) == {};
  }

  lemma Peer0Stands()
    ensures Takes(Run()[0], ElectionTimeout(0), Run()[1])
  {
  }

  lemma Peer0Asks()
    ensures Takes(Run()[1], RunElection(0), Run()[2])
  {
    assert Peers(3) - {0} == {1, 2};
  }

  /** Peer 0 wins term 2 with peer 1's vote. */
  lemma Peer0Wins()
    ensures Takes(Run()[2], ReceiveVote(1, Ask0), Run()[3])
    ensures Takes(Run()[3], ReceiveVoteReply(Yes0), Run()[4])
  {
    assert {1, 2} - {1} == {2};
    assert seq(3, _ => |L0|) == [1, 1, 1] && seq<nat>(3, _ => 0) == M3;
  }

  /** It sends a heartbeat and then accepts X from a client. */
  lemma HeartbeatSent()
    ensures Takes(Run()[4], ReplicateRound(0), Run()[5])
    ensures Takes(Run()[5], ClientCommand(0, "x"), Run()[6])
  {
    Round(P0Leads, 0, 1, 2, P0Leads, []);
    assert [] + Sent2 == Sent2;
    assert L0 + [X] == LX;
  }

  /** X overtakes the heartbeat on its way to peer 1. */
  lemma XSent()
    ensures Takes(Run()[6], ReplicateRound(0), Run()[7])
    ensures Takes(Run()[7], ReceiveAppend(2), Run()[8])
  {
    Round(P0Holds, 0, 1, 2, P0Sends, [X]);
    assert Sent2 + [Call(2, 0, 1, [X]), Call(2, 0, 2, [X])] == Sent4;
    assert L0[..1] + [X] == LX;
  }

  /** X is on two of three peers: committed. */
  lemma XCommitted()
    ensures Takes(Run()[8], ReceiveAppendReply(RepX), Run()[9])
  {
    Majority([1, 1, 0]);
    assert [1, 0, 0][1 := 1] == [1, 1, 0] && [2, 1, 1][1 := 2] == [2, 2, 1];
  }

  /** The heartbeat arrives late and cuts X off peer 1's log. */
  lemma LateHeartbeat()
    ensures Takes(Run()[9], ReceiveAppend(0), Run()[10])
  {
    assert LX[..1] + [] == L0;
    assert {RepX} + {RepLate} == {RepX, RepLate};
  }

  /** Peer 2 never saw X; it times out twice. */
  lemma Peer2Stands()
    ensures Takes(Run()[10], ElectionTimeout(2), Run()[11])
    ensures Takes(Run()[11], ElectionTimeout(2), Run()[12])
  {
  }

  /** Peer 1, whose log no longer holds X, votes for it. */
  lemma Peer2Asks()
    ensures Takes(Run()[12], RunElection(2), Run()[13])
    ensures Takes(Run()[13], ReceiveVote(1, Ask2), Run()[14])
  {
    assert Peers(3) - {2} == {0, 1};
  }

  lemma Peer2Wins()
    ensures Takes(Run()[14], ReceiveVoteReply(Yes2), Run()[15])
  {
    assert {0, 1} - {1} == {0};
    assert seq(3, _ => |L0|) == [1, 1, 1] && seq<nat>(3, _ => 0) == M3;
  }

  /** Peer 2 accepts Y and sends it. */
  lemma YSent()
    ensures Takes(Run()[15], ClientCommand(2, "y"), Run()[16])
    ensures Takes(Run()[16], ReplicateRound(2), Run()[17])
  {
    assert L0 + [Y] == LY;
    Round(P2Holds, 2, 0, 1, P2Sends, [Y]);
    assert Sent4 + [Call(3, 2, 0, [Y]), Call(3, 2, 1, [Y])] == Sent6;
  }

  /** Y is committed at the index X was. */
  lemma YCommitted()
    ensures Takes(Run()[17], ReceiveAppend(5), Run()[18])
    ensures Takes(Run()[18], ReceiveAppendReply(RepY), Run()[19])
  {
    assert L0[..1] + [Y] == LY;
    assert {RepX, RepLate} + {RepY} == {RepX, RepLate, RepY};
    Majority([0, 1, 1]);
    assert [0, 0, 1][1 := 1] == [0, 1, 1] && [1, 1, 2][1 := 2] == [1, 2, 2];
  }

  lemma StartsFresh()
    ensures Init(Run()[0])
  {
    assert seq<int>(3, _ => 0) == Z3 && seq<nat>(3, _ => 0) == M3;
  }

  lemma OneByOne()
    ensures |Run()| == 20 && forall i | 0 < i < 20 :: Next(Run()[i - 1], Run()[i])
  {
    hide Takes;
    Peer0Stands();
    Peer0Asks();
    Peer0Wins();
    HeartbeatSent();
    XSent();
    XCommitted();
    LateHeartbeat();
    Peer2Stands();
    Peer2Asks();
    Peer2Wins();
    YSent();
    YCommitted();
  }

  /** The network may reorder calls, and then two peers commit different commands at one index. */
  lemma ReorderingBreaksStateMachineSafety()
    ensures IsRun(Run()) && !IsKeepingRun(Run())
    ensures var s := Run()[19];
            && s.nodes[0].commit >= 1 && s.nodes[2].commit >= 1
            && s.nodes[0].log[1] != s.nodes[2].log[1]
  {
    StartsFresh();
    OneByOne();
    if IsKeepingRun(Run()) {
      StateMachineSafety(Run(), 19, 19, 0, 2, 1);
      assert false;
    }
  }
}
