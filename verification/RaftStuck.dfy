/** Backup against a compacted follower can stop making progress. In this run of three peers, whose calls
    are all handled in the order they were made, peer 1 leads term 2, commits `a`, compacts it and appends
    `c`; peer 0 leads term 3, appends `d`, restarts and leads term 4. Its first probe of peer 1 is rejected
    with a term that sends it below peer 1's snapshot, where every further probe is answered the same way. */
module RaftStuck {
  import opened RaftTypes
  import opened RaftNode
  import opened RaftProtocol
  import opened RaftBackup
  import opened RaftReorder

  const A: Entry := Entry(2, true, "a")
  const C: Entry := Entry(2, true, "c")
  const D: Entry := Entry(3, true, "d")

  const LA: Log := [Dummy, A]
  const LAC: Log := [Dummy, A, C]
  const LAD: Log := [Dummy, A, D]

  // Peer 0: voter and follower in term 2, leader of terms 3 and 4.
  const Q0Votes: Node := Peer(Follower, 2, 1, L0, Z3, M3, 0, false, 0, {})
  const Q0HoldsA: Node := Peer(Follower, 2, 1, LA, Z3, M3, 0, false, 0, {})
  const Q0Stands: Node := Peer(Candidate, 3, 0, LA, Z3, M3, 0, true, 0, {})
  const Q0Asks: Node := Peer(Candidate, 3, 0, LA, Z3, M3, 0, false, 1, {1, 2})
  const Q0Leads: Node := Peer(Leader, 3, 0, LA, [2, 2, 2], M3, 0, false, 2, {1})
  const Q0HoldsD: Node := Peer(Leader, 3, 0, LAD, [2, 2, 2], M3, 0, false, 2, {1})
  const Q0Restarts: Node := Peer(Follower, 3, 0, LAD, Z3, M3, 0, false, 0, {})
  const Q0StandsAgain: Node := Peer(Candidate, 4, 0, LAD, Z3, M3, 0, true, 0, {})
  const Q0AsksAgain: Node := Peer(Candidate, 4, 0, LAD, Z3, M3, 0, false, 1, {1, 2})
  const Q0LeadsAgain: Node := Peer(Leader, 4, 0, LAD, [3, 3, 3], M3, 0, false, 2, {1})
  const Q0Probes: Node := Peer(Leader, 4, 0, LAD, [3, 3, 3], [2, 0, 0], 0, false, 2, {1})
  const Q0Stuck: Node := Peer(Leader, 4, 0, LAD, [3, 1, 3], [2, 0, 0], 0, false, 2, {1})

  // Peer 1: leader of term 2, which compacts its log; follower in term 4.
  const Q1Stands: Node := Peer(Candidate, 2, 1, L0, Z3, M3, 0, true, 0, {})
  const Q1Asks: Node := Peer(Candidate, 2, 1, L0, Z3, M3, 0, false, 1, {0, 2})
  const Q1Leads: Node := Peer(Leader, 2, 1, L0, [1, 1, 1], M3, 0, false, 2, {2})
  const Q1HoldsA: Node := Peer(Leader, 2, 1, LA, [1, 1, 1], M3, 0, false, 2, {2})
  const Q1Sends: Node := Peer(Leader, 2, 1, LA, [1, 2, 1], [0, 1, 0], 0, false, 2, {2})
  const Q1Commits: Node := Peer(Leader, 2, 1, LA, [2, 2, 1], [1, 1, 0], 1, false, 2, {2})

  function Compacted(role: Role, term: nat, votedFor: int, log: Log): Node {
    Node(role, term, votedFor, log, 1, [2, 2, 1], [1, 1, 0], 1, 0, false, 2, {2}, Disk(term, votedFor, log, 1))
  }

  const Q1Compacts: Node := Compacted(Leader, 2, 1, LA)
  const Q1HoldsC: Node := Compacted(Leader, 2, 1, LAC)
  const Q1Follows: Node := Compacted(Follower, 4, -1, LAC)

  // Peer 2 only votes.
  const Q2Votes: Node := Peer(Follower, 3, 0, L0, Z3, M3, 0, false, 0, {})
  const Q2VotesAgain: Node := Peer(Follower, 4, 0, L0, Z3, M3, 0, false, 0, {})

  const Ask1: VoteArgs := VoteArgs(2, 1, 0, 0)
  const Ask3: VoteArgs := VoteArgs(3, 0, 1, 2)
  const Ask4: VoteArgs := VoteArgs(4, 0, 2, 3)
  const Yes1: VoteRep := VoteRep(2, 1, 0, VoteReply(1, true))
  const Yes3: VoteRep := VoteRep(3, 0, 2, VoteReply(1, true))
  const Yes4: VoteRep := VoteRep(4, 0, 2, VoteReply(3, true))

  function Beat(to: nat): AppendArgs {
    AppendArgs(4, 0, to, 2, 3, [], 0)
  }

  const Low: AppendArgs := AppendArgs(4, 0, 1, 0, 0, [A, D], 0)

  const SentA: seq<AppendArgs> := [Call(2, 1, 0, [A]), Call(2, 1, 2, [A])]
  const SentBeat: seq<AppendArgs> := [Call(2, 1, 0, [A]), Call(2, 1, 2, [A]), Beat(1), Beat(2)]
  const SentLow: seq<AppendArgs> := [Call(2, 1, 0, [A]), Call(2, 1, 2, [A]), Beat(1), Beat(2), Low, Beat(2)]

  const RepA: AppendRep := AppendRep(Call(2, 1, 0, [A]), Done)
  const RepBeat: AppendRep := AppendRep(Beat(1), AppendReply(2, false, 1, 2))
  const RepLow: AppendRep := AppendRep(Low, AppendReply(4, false, 1, 2))

  // The states of the run.
  ghost const T0: State := State([Idle, Idle, Idle], {}, {}, [], {}, map[])
  ghost const T1: State := State([Idle, Q1Stands, Idle], {}, {}, [], {}, map[])
  ghost const T2: State := State([Idle, Q1Asks, Idle], {Ask1}, {}, [], {}, map[])
  ghost const T3: State := State([Q0Votes, Q1Asks, Idle], {Ask1}, {Yes1}, [], {}, map[])
  ghost const T4: State := State([Q0Votes, Q1Leads, Idle], {Ask1}, {Yes1}, [], {}, map[])
  ghost const T5: State := State([Q0Votes, Q1HoldsA, Idle], {Ask1}, {Yes1}, [], {}, map[])
  ghost const T6: State := State([Q0Votes, Q1Sends, Idle], {Ask1}, {Yes1}, SentA, {}, map[])
  ghost const T7: State := State([Q0HoldsA, Q1Sends, Idle], {Ask1}, {Yes1}, SentA, {RepA}, map[(0, 2) := 0])
  ghost const T8: State := State([Q0HoldsA, Q1Commits, Idle], {Ask1}, {Yes1}, SentA, {RepA}, map[(0, 2) := 0])
  ghost const T9: State := State([Q0HoldsA, Q1Compacts, Idle], {Ask1}, {Yes1}, SentA, {RepA}, map[(0, 2) := 0])
  ghost const T10: State := State([Q0HoldsA, Q1HoldsC, Idle], {Ask1}, {Yes1}, SentA, {RepA}, map[(0, 2) := 0])
  ghost const T11: State := State([Q0Stands, Q1HoldsC, Idle], {Ask1}, {Yes1}, SentA, {RepA}, map[(0, 2) := 0])
  ghost const T12: State := State([Q0Asks, Q1HoldsC, Idle], {Ask1, Ask3}, {Yes1}, SentA, {RepA}, map[(0, 2) := 0])
  ghost const T13: State := State([Q0Asks, Q1HoldsC, Q2Votes], {Ask1, Ask3}, {Yes1, Yes3}, SentA, {RepA},
      map[(0, 2) := 0])
  ghost const T14: State := State([Q0Leads, Q1HoldsC, Q2Votes], {Ask1, Ask3}, {Yes1, Yes3}, SentA, {RepA},
      map[(0, 2) := 0])
  ghost const T15: State := State([Q0HoldsD, Q1HoldsC, Q2Votes], {Ask1, Ask3}, {Yes1, Yes3}, SentA, {RepA},
      map[(0, 2) := 0])
  ghost const T16: State := State([Q0Restarts, Q1HoldsC, Q2Votes], {Ask1, Ask3}, {Yes1, Yes3}, SentA, {RepA},
      map[(0, 2) := 0])
  ghost const T17: State := State([Q0StandsAgain, Q1HoldsC, Q2Votes], {Ask1, Ask3}, {Yes1, Yes3}, SentA, {RepA},
      map[(0, 2) := 0])
  ghost const T18: State := State([Q0AsksAgain, Q1HoldsC, Q2Votes], {Ask1, Ask3, Ask4}, {Yes1, Yes3}, SentA, {RepA},
      map[(0, 2) := 0])
  ghost const T19: State := State([Q0AsksAgain, Q1HoldsC, Q2VotesAgain], {Ask1, Ask3, Ask4}, {Yes1, Yes3, Yes4}, SentA,
      {RepA}, map[(0, 2) := 0])
  ghost const T20: State := State([Q0LeadsAgain, Q1HoldsC, Q2VotesAgain], {Ask1, Ask3, Ask4}, {Yes1, Yes3, Yes4}, SentA,
      {RepA}, map[(0, 2) := 0])
  ghost const T21: State := State([Q0Probes, Q1HoldsC, Q2VotesAgain], {Ask1, Ask3, Ask4}, {Yes1, Yes3, Yes4}, SentBeat,
      {RepA}, map[(0, 2) := 0])
  ghost const T22: State := State([Q0Probes, Q1Follows, Q2VotesAgain], {Ask1, Ask3, Ask4}, {Yes1, Yes3, Yes4}, SentBeat,
      {RepA, RepBeat}, map[(0, 2) := 0, (1, 4) := 2])
  ghost const T23: State := State([Q0Stuck, Q1Follows, Q2VotesAgain], {Ask1, Ask3, Ask4}, {Yes1, Yes3, Yes4}, SentBeat,
      {RepA, RepBeat}, map[(0, 2) := 0, (1, 4) := 2])
  ghost const T24: State := State([Q0Stuck, Q1Follows, Q2VotesAgain], {Ask1, Ask3, Ask4}, {Yes1, Yes3, Yes4}, SentLow,
      {RepA, RepBeat}, map[(0, 2) := 0, (1, 4) := 2])
  ghost const T25: State := State([Q0Stuck, Q1Follows, Q2VotesAgain], {Ask1, Ask3, Ask4}, {Yes1, Yes3, Yes4}, SentLow,
      {RepA, RepBeat, RepLow}, map[(0, 2) := 0, (1, 4) := 4])

  ghost function StuckRun(): seq<State> {
    [T0, T1, T2, T3, T4, T5, T6, T7, T8, T9, T10, T11, T12, T13, T14, T15, T16, T17, T18, T19, T20, T21, T22, T23, T24,
     T25, T25]
  }

  ghost predicate TakesInOrder(s: State, a: Action, s': State) {
    Takes(s, a, s') && InOrder(s, a)
  }

  /** Peer 1 wins term 2 with peer 0's vote. */
  lemma Peer1Asks()
    ensures TakesInOrder(T0, ElectionTimeout(1), T1)
    ensures TakesInOrder(T1, RunElection(1), T2)
  {
    assert Peers(3) - {1} == {0, 2};
  }

  lemma Peer1Wins()
    ensures TakesInOrder(T2, ReceiveVote(0, Ask1), T3)
    ensures TakesInOrder(T3, ReceiveVoteReply(Yes1), T4)
  {
    assert {0, 2} - {0} == {2};
    assert seq(3, _ => |L0|) == [1, 1, 1] && seq<nat>(3, _ => 0) == M3;
  }

  /** It accepts `a` and sends it. */
  lemma ASent()
    ensures TakesInOrder(T4, ClientCommand(1, "a"), T5)
    ensures TakesInOrder(T5, ReplicateRound(1), T6)
  {
    assert L0 + [A] == LA && LA[1..] == [A];
    assert Messages(Q1Sends, 1, 0) == [];
    assert Messages(Q1Sends, 1, 1) == [Call(2, 1, 0, [A])] == Messages(Q1Sends, 1, 2);
    assert Messages(Q1Sends, 1, 3) == SentA;
    assert [1, 1, 1][1 := 2] == [1, 2, 1] && M3[1 := 1] == [0, 1, 0];
    assert Replicate(Q1HoldsA, 1, 2) == (Q1Sends, SentA);
    assert [] + SentA == SentA;
  }

  /** Peer 0 holds `a`, so peer 1 commits it. */
  lemma ACommitted()
    ensures TakesInOrder(T6, ReceiveAppend(0), T7)
    ensures TakesInOrder(T7, ReceiveAppendReply(RepA), T8)
  {
    assert L0[..1] + [A] == LA;
    Majority([1, 1, 0]);
    assert [0, 1, 0][0 := 1] == [1, 1, 0] && [1, 2, 1][0 := 2] == [2, 2, 1];
  }

  /** Peer 1 compacts up to `a` and appends `c`. */
  lemma ACompacted()
    ensures TakesInOrder(T8, Compact(1, 1), T9)
    ensures TakesInOrder(T9, ClientCommand(1, "c"), T10)
  {
    assert LA + [C] == LAC;
  }

  /** Peer 0 wins term 3 with peer 2's vote. */
  lemma Peer0Asks3()
    ensures TakesInOrder(T10, ElectionTimeout(0), T11)
    ensures TakesInOrder(T11, RunElection(0), T12)
  {
    assert Peers(3) - {0} == {1, 2};
  }

  lemma Peer0Wins3()
    ensures TakesInOrder(T12, ReceiveVote(2, Ask3), T13)
    ensures TakesInOrder(T13, ReceiveVoteReply(Yes3), T14)
  {
    assert {1, 2} - {2} == {1};
    assert seq(3, _ => |LA|) == [2, 2, 2] && seq<nat>(3, _ => 0) == M3;
  }

  /** It appends `d` and crashes. */
  lemma Peer0Restarts()
    ensures TakesInOrder(T14, ClientCommand(0, "d"), T15)
    ensures TakesInOrder(T15, Crash(0), T16)
  {
    assert LA + [D] == LAD;
    assert seq<int>(3, _ => 0) == Z3 && seq<nat>(3, _ => 0) == M3;
  }

  /** It wins term 4 with peer 2's vote again. */
  lemma Peer0Asks4()
    ensures TakesInOrder(T16, ElectionTimeout(0), T17)
    ensures TakesInOrder(T17, RunElection(0), T18)
  {
    assert Peers(3) - {0} == {1, 2};
  }

  lemma Peer0Wins4()
    ensures TakesInOrder(T18, ReceiveVote(2, Ask4), T19)
    ensures TakesInOrder(T19, ReceiveVoteReply(Yes4), T20)
  {
    assert {1, 2} - {2} == {1};
    assert seq(3, _ => |LAD|) == [3, 3, 3] && seq<nat>(3, _ => 0) == M3;
  }

  /** Its first probe of peer 1 asks about index 2. */
  lemma FirstProbe()
    ensures TakesInOrder(T20, ReplicateRound(0), T21)
  {
    assert LAD[3..] == [];
    assert Messages(Q0Probes, 0, 1) == [] + Messages(Q0Probes, 0, 0) == [];
    assert Messages(Q0Probes, 0, 2) == [Beat(1)];
    assert Messages(Q0Probes, 0, 3) == [Beat(1), Beat(2)];
    assert [3, 3, 3][0 := 3] == [3, 3, 3] && M3[0 := 2] == [2, 0, 0];
    assert Replicate(Q0LeadsAgain, 0, 4) == (Q0Probes, [Beat(1), Beat(2)]);
    assert SentA + [Beat(1), Beat(2)] == SentBeat;
  }

  lemma FirstTerms()
    ensures FirstForFrom(LAC, 1, 2) == 1 && FirstForFrom(LAD, 0, 2) == 1
  {
    assert FirstForFrom(LAD, 0, 2) == FirstForFrom(LAD, 1, 2);
  }

  /** Peer 1 has `c` of term 2 there; the leader goes back to its own first entry of term 2. */
  lemma FirstRejection()
    ensures TakesInOrder(T21, ReceiveAppend(2), T22)
    ensures TakesInOrder(T22, ReceiveAppendReply(RepBeat), T23)
  {
    FirstTerms();
    assert {RepA} + {RepBeat} == {RepA, RepBeat};
    assert [3, 3, 3][1 := 1] == [3, 1, 3];
  }

  /** The next probe is at index 0, below peer 1's snapshot. */
  lemma SecondProbe()
    ensures TakesInOrder(T23, ReplicateRound(0), T24)
  {
    assert LAD[3..] == [] && LAD[1..] == [A, D];
    assert Messages(Q0Stuck, 0, 1) == [] + Messages(Q0Stuck, 0, 0) == [];
    assert Messages(Q0Stuck, 0, 2) == [Low];
    assert Messages(Q0Stuck, 0, 3) == [Low, Beat(2)];
    assert [3, 1, 3][0 := 3] == [3, 1, 3] && [2, 0, 0][0 := 2] == [2, 0, 0];
    assert Replicate(Q0Stuck, 0, 4) == (Q0Stuck, [Low, Beat(2)]);
    assert SentBeat + [Low, Beat(2)] == SentLow;
  }

  /** It is rejected with the same term: the leader stays where it is. */
  lemma SecondRejection()
    ensures TakesInOrder(T24, ReceiveAppend(4), T25)
    ensures TakesInOrder(T25, ReceiveAppendReply(RepLow), T25)
  {
    FirstTerms();
    assert {RepA, RepBeat} + {RepLow} == {RepA, RepBeat, RepLow};
    assert [3, 1, 3][1 := 1] == [3, 1, 3];
  }

  lemma Starts()
    ensures Init(T0)
  {
    assert seq<int>(3, _ => 0) == Z3 && seq<nat>(3, _ => 0) == M3;
  }

  lemma FirstHalf()
    ensures forall i | 0 < i <= 13 :: NextInOrder(StuckRun()[i - 1], StuckRun()[i])
  {
    hide Requested, InBounds, InOrder, Step;
    Peer1Asks();
    Peer1Wins();
    ASent();
    ACommitted();
    ACompacted();
    Peer0Asks3();
    Peer0Wins3();
  }

  lemma SecondHalf()
    ensures forall i | 13 < i <= 26 :: NextInOrder(StuckRun()[i - 1], StuckRun()[i])
  {
    hide Requested, InBounds, InOrder, Step;
    Peer0Wins3();
    Peer0Restarts();
    Peer0Asks4();
    Peer0Wins4();
    FirstProbe();
    FirstRejection();
    SecondProbe();
    SecondRejection();
  }

  /** Peer 0 starts its backup of peer 1 without hope, and after its first rejection a whole further
      exchange, round, rejection and answer, leaves every peer as it was. */
  lemma BackupGetsStuck()
    ensures IsOrderedRun(StuckRun())
    ensures var p := Pair(T20.nodes[0], T20.nodes[1]); CanProbe(p, 1) && Hopeless(p, 1)
    ensures var p := Pair(T23.nodes[0], T23.nodes[1]); CanProbe(p, 1) && Stuck(p, 1)
    ensures T25.nodes == T23.nodes
  {
    hide NextInOrder;
    Starts();
    FirstHalf();
    SecondHalf();
    assert Diverges(Pair(T20.nodes[0], T20.nodes[1]), 2);
  }
}
