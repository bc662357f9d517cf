/** The safety properties of Raft (sections 5.2 to 5.4 of the extended Raft paper), over whole runs
    of the cluster. Every statement compares peers in any two states of a run. */
module RaftTheorems {
  import opened RaftTypes
  import opened RaftNode
  import opened RaftProtocol
  import opened RaftCore
  import opened RaftCompleteness
  import opened RaftInvariant
  import opened RaftSteps
  import opened RaftKeeping
  import opened RaftSafety

  ghost function StartCore(n: nat): Core {
    Core(seq(n, _ => 1), seq(n, _ => [Dummy]), map[], map[], map[], map[], map[], map[], map[], map[])
  }

  lemma StartKeeping(s: State)
    requires Init(s)
    ensures Keeping(StartCore(|s.nodes|), s)
  {
    var c := StartCore(|s.nodes|);
    assert Basic(c);
    assert Safe(c);
    forall v | 0 <= v < |s.nodes| ensures NodeLinked(c, v, s.nodes[v]) && NodeCert(c, v, s.nodes[v]) {
    }
  }

  /** A core for every state of a run, none forgetting what an earlier one recorded. */
  ghost predicate Records(run: seq<State>, cores: seq<Core>) {
    && |cores| == |run|
    && (forall i | 0 <= i < |run| :: Linked(cores[i], run[i]) && Basic(cores[i]))
    && (forall i, j | 0 <= i <= j < |run| :: Evolves(cores[i], cores[j]))
  }

  ghost predicate KeepingRecords(run: seq<State>, cores: seq<Core>) {
    Records(run, cores) && forall i | 0 <= i < |run| :: Keeping(cores[i], run[i])
  }

  lemma EvolvesRefl(c: Core)
    ensures Evolves(c, c)
  {
  }

  lemma ExtendRecords(run: seq<State>, cores: seq<Core>, c: Core)
    requires run != [] && |cores| == |run| - 1 && Records(run[..|run| - 1], cores)
    requires Linked(c, run[|run| - 1]) && Basic(c)
    requires cores != [] ==> Evolves(cores[|cores| - 1], c)
    ensures Records(run, cores + [c])
  {
    hide Linked, Basic, Evolves;
    var all := cores + [c];
    assert forall i | 0 <= i < |cores| :: run[..|run| - 1][i] == run[i];
    forall i, j | 0 <= i <= j < |run| ensures Evolves(all[i], all[j]) {
      EvolvesRefl(c);
      if i < |cores| && j == |cores| {
        EvolvesTrans(cores[i], cores[|cores| - 1], c);
      }
    }
  }

  lemma {:induction false} RunRecords(run: seq<State>) returns (cores: seq<Core>)
    requires IsRun(run)
    ensures Records(run, cores)
  {
    hide Linked, Basic, Evolves, Keeping;
    var n := |run| - 1;
    if n == 0 {
      StartKeeping(run[0]);
      KeepingParts(StartCore(|run[0].nodes|), run[0]);
      assert Records([], []);
      cores := [StartCore(|run[0].nodes|)];
      ExtendRecords(run, [], cores[0]);
    } else {
      var before := RunRecords(run[..n]);
      assert Next(run[n - 1], run[n]);
      var a :| Requested(run[n - 1], a) && InBounds(run[n - 1], a) && run[n] == Step(run[n - 1], a);
      assert run[..n][n - 1] == run[n - 1];
      StepKeeps(before[n - 1], run[n - 1], a);
      ExtendRecords(run, before, CoreStep(before[n - 1], run[n - 1], a));
      cores := before + [CoreStep(before[n - 1], run[n - 1], a)];
    }
  }

  lemma KeepingParts(c: Core, s: State)
    requires Keeping(c, s)
    ensures Linked(c, s) && Basic(c) && Safe(c)
    ensures forall v | 0 <= v < |s.nodes| :: NodeCert(c, v, s.nodes[v])
  {
    hide Linked, Basic, Safe, NodeCert;
  }

  lemma {:induction false} KeepingRunRecords(run: seq<State>) returns (cores: seq<Core>)
    requires IsKeepingRun(run)
    ensures KeepingRecords(run, cores)
  {
    hide Linked, Basic, Evolves, Keeping, Step;
    var n := |run| - 1;
    if n == 0 {
      StartKeeping(run[0]);
      KeepingParts(StartCore(|run[0].nodes|), run[0]);
      assert Records([], []);
      cores := [StartCore(|run[0].nodes|)];
      ExtendRecords(run, [], cores[0]);
    } else {
      var before := KeepingRunRecords(run[..n]);
      assert NextKeeping(run[n - 1], run[n]);
      var a :| Requested(run[n - 1], a) && InBounds(run[n - 1], a) && CutsNothing(run[n - 1], a)
        && run[n] == Step(run[n - 1], a);
      assert run[..n][n - 1] == run[n - 1];
      KeepingStep(before[n - 1], run[n - 1], a);
      var c := CoreStep(before[n - 1], run[n - 1], a);
      KeepingParts(c, run[n]);
      ExtendRecords(run, before, c);
      cores := before + [c];
      forall i | 0 <= i < |run| ensures Keeping(cores[i], run[i]) {
        if i < n {
          assert run[..n][i] == run[i];
        }
      }
    }
  }

  // ---- Under any loss, delay, duplication, reordering and restart ----

  lemma LinkedNode(c: Core, s: State, v: nat)
    requires Linked(c, s) && v < |s.nodes|
    ensures NodeLinked(c, v, s.nodes[v])
  {
    hide NodeLinked, VotesLinked, AppendsLinked;
  }

  lemma LinkedLeader(c: Core, s: State, v: nat)
    requires Linked(c, s) && v < |s.nodes| && s.nodes[v].role == Leader
    ensures s.nodes[v].term in c.leader && c.leader[s.nodes[v].term] == v
  {
    hide VotesLinked, AppendsLinked;
    LinkedNode(c, s, v);
  }

  /** Election safety: at most one peer is ever leader in a term. */
  lemma ElectionSafety(run: seq<State>, i: nat, j: nat, v: nat, w: nat)
    requires IsRun(run) && i < |run| && j < |run| && v < |run[i].nodes| && w < |run[j].nodes|
    requires run[i].nodes[v].role == Leader && run[j].nodes[w].role == Leader
    requires run[i].nodes[v].term == run[j].nodes[w].term
    ensures v == w
  {
    hide IsRun, Linked, Basic;
    var cores := RunRecords(run);
    LinkedLeader(cores[i], run[i], v);
    LinkedLeader(cores[j], run[j], w);
    assert Evolves(cores[i], cores[j]) || Evolves(cores[j], cores[i]);
  }

  lemma RootedIn(c: Core, s: State, c': Core, v: nat)
    requires Linked(c, s) && Basic(c) && Evolves(c, c') && v < |s.nodes|
    ensures Rooted(c'.leaderLog, s.nodes[v].log)
  {
    hide BallotsOk, LeadersOk, AcksOk, VotesLinked, AppendsLinked, Rooted;
    LinkedNode(c, s, v);
    assert LogOk(c.leaderLog, c.logs[v], c.terms[v]);
    RootedGrows(c.leaderLog, c'.leaderLog, c.logs[v]);
  }

  /** Log matching: two logs with the same term at an index agree up to that index. */
  lemma LogMatching(run: seq<State>, i: nat, j: nat, v: nat, w: nat, k: nat)
    requires IsRun(run) && i < |run| && j < |run| && v < |run[i].nodes| && w < |run[j].nodes|
    requires k < |run[i].nodes[v].log| && k < |run[j].nodes[w].log|
    requires run[i].nodes[v].log[k].term == run[j].nodes[w].log[k].term
    ensures run[i].nodes[v].log[..k + 1] == run[j].nodes[w].log[..k + 1]
  {
    hide IsRun, Linked, Basic, Rooted, Evolves;
    var cores := RunRecords(run);
    var m := if i < j then j else i;
    RootedIn(cores[i], run[i], cores[m], v);
    RootedIn(cores[j], run[j], cores[m], w);
    RootedMatch(cores[m].leaderLog, run[i].nodes[v].log, run[j].nodes[w].log, k);
  }

  /** What a crash must not lose is on disk in every state. */
  lemma NothingUnsaved(run: seq<State>, i: nat, v: nat)
    requires IsRun(run) && i < |run| && v < |run[i].nodes|
    ensures var nd := run[i].nodes[v];
            && Restart(nd).term == nd.term && Restart(nd).votedFor == nd.votedFor && Restart(nd).log == nd.log
            && Restart(nd).snap == Restart(nd).commit == Restart(nd).applied == nd.snap && Restart(nd).role == Follower
  {
    hide IsRun, Linked, Basic;
    var cores := RunRecords(run);
    LinkedNode(cores[i], run[i], v);
  }

  // ---- When no accepted call ends before an acknowledged one ----

  lemma LaterCert(c: Core, c': Core, s: State, v: nat)
    requires Keeping(c, s) && Evolves(c, c') && v < |s.nodes|
    ensures NodeCert(c', v, s.nodes[v])
  {
    hide Linked, Basic, Safe, NodeCert, Evolves, AckedByReply;
    KeepingParts(c, s);
    NodeCertBounds(c, v, s.nodes[v]);
    CertStays(c, c', v, s.nodes[v], s.nodes[v]);
  }

  /** State machine safety: committed entries at one index are equal, on all peers and for ever;
      and a peer has applied only what it has committed. */
  lemma StateMachineSafety(run: seq<State>, i: nat, j: nat, v: nat, w: nat, k: nat)
    requires IsKeepingRun(run) && i < |run| && j < |run| && v < |run[i].nodes| && w < |run[j].nodes|
    requires 0 < k <= run[i].nodes[v].commit && k <= run[j].nodes[w].commit
    ensures k < |run[i].nodes[v].log| && k < |run[j].nodes[w].log|
    ensures run[i].nodes[v].log[k] == run[j].nodes[w].log[k]
    ensures run[i].nodes[v].applied <= run[i].nodes[v].commit
  {
    hide IsKeepingRun, Keeping, NodeCert, Records, Basic, Safe;
    var cores := KeepingRunRecords(run);
    var m := if i < j then j else i;
    RecordsEvolve(run, cores, i, m);
    RecordsEvolve(run, cores, j, m);
    LaterCert(cores[i], cores[m], run[i], v);
    LaterCert(cores[j], cores[m], run[j], w);
    NodeCertBounds(cores[m], v, run[i].nodes[v]);
    NodeCertBounds(cores[m], w, run[j].nodes[w]);
    KeepingParts(cores[m], run[m]);
    CertsAgree(cores[m], v, run[i].nodes[v], w, run[j].nodes[w], k);
  }

  lemma RecordsEvolve(run: seq<State>, cores: seq<Core>, i: nat, j: nat)
    requires KeepingRecords(run, cores) && i <= j < |run|
    ensures |cores| == |run| && Keeping(cores[i], run[i]) && Keeping(cores[j], run[j]) && Evolves(cores[i], cores[j])
  {
    hide Keeping, Linked, Basic;
  }

  /** Leader completeness: what any peer committed while in some term is in the log of every leader
      of a later term, from the moment it leads. */
  lemma LeaderCompleteness(run: seq<State>, i: nat, j: nat, v: nat, w: nat, k: nat)
    requires IsKeepingRun(run) && i < |run| && j < |run| && v < |run[i].nodes| && w < |run[j].nodes|
    requires 0 < k <= run[i].nodes[v].commit
    requires run[j].nodes[w].role == Leader && run[i].nodes[v].term < run[j].nodes[w].term
    ensures k < |run[i].nodes[v].log| && k < |run[j].nodes[w].log|
    ensures run[i].nodes[v].log[..k + 1] == run[j].nodes[w].log[..k + 1]
  {
    hide IsKeepingRun, Keeping, Records, Basic, Safe, Linked, NodeCert;
    var cores := KeepingRunRecords(run);
    var m := if i < j then j else i;
    RecordsEvolve(run, cores, i, m);
    RecordsEvolve(run, cores, j, m);
    LaterCert(cores[i], cores[m], run[i], v);
    KeepingParts(cores[j], run[j]);
    KeepingParts(cores[m], run[m]);
    LeaderHolds(cores[j], run[j], cores[m], w);
    NodeCertBounds(cores[m], v, run[i].nodes[v]);
    CertInLeader(cores[m], v, run[i].nodes[v], run[j].nodes[w], k);
  }

  lemma LeaderHolds(c: Core, s: State, c': Core, w: nat)
    requires Linked(c, s) && Basic(c) && Evolves(c, c') && w < |s.nodes| && s.nodes[w].role == Leader
    ensures var u := s.nodes[w].term;
            u in c'.leader && u in c'.initLog && c'.initLog[u] <= s.nodes[w].log
  {
    hide BallotsOk, LogsOk, AcksOk, VotesLinked, AppendsLinked;
    LinkedNode(c, s, w);
    LeaderLog(c, w, s.nodes[w]);
    assert LeaderOk(c, s.nodes[w].term);
  }

  lemma CertInLeader(c: Core, v: nat, nd: Node, leader: Node, k: nat)
    requires Basic(c) && Safe(c) && NodeCert(c, v, nd) && 0 < k <= nd.commit
    requires leader.term in c.leader && leader.term in c.initLog && c.initLog[leader.term] <= leader.log
    requires nd.term < leader.term
    ensures k < |leader.log| && k < |nd.log| && nd.log[..k + 1] == leader.log[..k + 1]
  {
    hide Basic, Safe;
    var t: nat, i: nat :| CertBy(c, v, nd.log, nd.commit, nd.term, t, i);
    CommittedInLaterLeaders(c, t, i, leader.term);
    var init := c.initLog[leader.term];
    assert leader.log[..k + 1] == init[..i + 1][..k + 1];
    assert nd.log[..k + 1] == nd.log[..nd.commit + 1][..k + 1];
    assert c.leaderLog[t][..k + 1] == c.leaderLog[t][..nd.commit + 1][..k + 1] == c.leaderLog[t][..i + 1][..k + 1];
  }

  /** No handler ever indexes outside its log. */
  lemma NeverOutOfBounds(run: seq<State>, i: nat, a: Action)
    requires IsKeepingRun(run) && i < |run| && Requested(run[i], a)
    ensures InBounds(run[i], a)
  {
    hide IsKeepingRun, Keeping, Records, Basic, Safe, Linked, NodeCert;
    var cores := KeepingRunRecords(run);
    RecordsEvolve(run, cores, i, i);
    KeepingParts(cores[i], run[i]);
    if a.Compact? {
      NodeCertBounds(cores[i], a.v, run[i].nodes[a.v]);
      StepInBounds(cores[i], run[i], ApplyCommitted(a.v));
    } else {
      StepInBounds(cores[i], run[i], a);
    }
  }
}
