/** Fast log backup: how a rejected leader finds where a follower's log matches its own. */
module RaftBackup {
  import opened RaftTypes
  import opened RaftNode
  import opened RaftProtocol
  import opened RaftCore
  import opened RaftInvariant
  import opened RaftSteps
  import opened RaftCompleteness
  import opened RaftKeeping
  import opened RaftSafety
  import opened RaftTheorems

  ghost predicate HoldsTerm(log: Log, last: nat, t: nat) {
    exists k :: 0 < k <= last && k < |log| && log[k].term == t
  }

  /** The reply to a probe at the leader's current `nextIndex`. */
  function Probe(leader: Node, me: nat, peer: nat, follower: Node): AppendReply
    requires peer < |leader.next| && CanSend(leader, peer)
    requires follower.log != [] && follower.snap < |follower.log|
  {
    OnAppend(follower, MessageFor(leader, me, peer)).1
  }

  /** On an uncompacted, sorted log the scan for a term above 0 finds its first index or nothing. */
  lemma FirstIndexOf(log: Log, t: nat)
    requires SortedTerms(log) && log != [] && log[0].term == 0 && t > 0
    ensures var r := FirstForFrom(log, 0, t);
            if r == InvalidIndex then forall k | 0 <= k < |log| :: log[k].term != t
            else r < |log| && log[r].term == t && forall k | 0 <= k < r :: log[k].term != t
  {
    FirstForFromSpec(log, 0, t);
  }

  /** A mismatch at `prevIndex`: the leader's first entry of the follower's term is at or below it. */
  lemma ConflictIsBelow(m: map<nat, Log>, leader: Log, follower: Log, prev: nat, k: nat)
    requires Rooted(m, leader) && Rooted(m, follower)
    requires prev < |follower| && k < |leader| && 0 < follower[prev].term == leader[k].term && prev < k
    ensures leader[prev].term == follower[prev].term
  {
    var t := follower[prev].term;
    assert prev > 0 && k > 0;
    assert leader[..k + 1][prev] == m[t][..k + 1][prev];
    assert follower[..prev + 1][prev] == m[t][..prev + 1][prev];
  }

  /** Each rejection of a probe at the current `nextIndex` leaves it at least 1, and lowers it if and
      only if the probe was not below the follower's snapshot, or the leader holds an entry of the
      snapshot's term at or below the probe. */
  lemma RejectionLowersProbe(m: map<nat, Log>, leader: Node, me: nat, peer: nat, follower: Node)
    requires Rooted(m, leader.log) && Rooted(m, follower.log)
    requires leader.snap == 0 && follower.snap < |follower.log| && follower.term <= leader.term
    requires peer < |leader.next| && CanSend(leader, peer)
    requires !Probe(leader, me, peer, follower).success
    ensures var prev, next := leader.next[peer] - 1, NextProbe(leader, peer, Probe(leader, me, peer, follower));
            && 1 <= next <= leader.next[peer]
            && (next < leader.next[peer] <==>
                  follower.snap <= prev || HoldsTerm(leader.log, prev, follower.log[follower.snap].term))
  {
    hide FirstForFrom, Rooted;
    RootedFacts(m, leader.log);
    RootedFacts(m, follower.log);
    var prev := leader.next[peer] - 1;
    var r := Probe(leader, me, peer, follower);
    if prev < |follower.log| {
      if prev < follower.snap {
        FirstIndexOf(leader.log, follower.log[follower.snap].term);
      } else {
        var t := follower.log[prev].term;
        assert prev > 0;
        FirstIndexOf(leader.log, t);
        FirstForFromSpec(follower.log, follower.snap, t);
        var first := FirstForFrom(leader.log, 0, t);
        if first > prev {
          ConflictIsBelow(m, leader.log, follower.log, prev, first);
        }
      }
    }
  }

  lemma RootedFacts(m: map<nat, Log>, log: Log)
    requires Rooted(m, log)
    ensures SortedTerms(log) && log != [] && log[0] == Dummy
    ensures forall k | 0 < k < |log| :: log[k].term > 0
  {
  }

  // ---- The whole backup ----

  datatype Pair = Pair(leader: Node, follower: Node)

  /** A leader with its whole log at hand, and a follower that has seen no later term. */
  ghost predicate CanProbe(p: Pair, peer: nat) {
    && peer < |p.leader.next| == |p.leader.matched| && CanSend(p.leader, peer)
    && p.leader.role == Leader && p.leader.snap == 0
    && (forall q | 0 <= q < |p.leader.matched| :: p.leader.matched[q] < |p.leader.log|)
    && p.follower.log != [] && p.follower.snap < |p.follower.log| && p.follower.term <= p.leader.term
  }

  ghost predicate Accepted(p: Pair, me: nat, peer: nat)
    requires CanProbe(p, peer)
  {
    Probe(p.leader, me, peer, p.follower).success
  }

  /** The leader probes, the follower answers and the leader hears the answer. */
  ghost function Exchange(p: Pair, me: nat, peer: nat): Pair
    requires CanProbe(p, peer)
  {
    var a := MessageFor(p.leader, me, peer);
    var (follower, reply) := OnAppend(p.follower, a);
    Pair(OnAppendReply(p.leader, a, reply), follower)
  }

  /** The probe is below the follower's snapshot and the leader has nothing of the snapshot's term there. */
  ghost predicate Stuck(p: Pair, peer: nat)
    requires CanProbe(p, peer)
  {
    var prev := p.leader.next[peer] - 1;
    prev < p.follower.snap && !HoldsTerm(p.leader.log, prev, p.follower.log[p.follower.snap].term)
  }

  /** A rejected exchange changes nothing but `nextIndex` at the leader and the term at the follower. */
  lemma RejectedExchange(p: Pair, me: nat, peer: nat)
    requires CanProbe(p, peer) && !Accepted(p, me, peer)
    ensures var next := NextProbe(p.leader, peer, Probe(p.leader, me, peer, p.follower));
            Exchange(p, me, peer) == Pair(p.leader.(next := p.leader.next[peer := next]),
                                          BecomeFollower(p.follower, p.leader.term))
  {
    hide FirstForFrom, NextProbe;
  }

  /** An accepted exchange leaves the follower with the leader's log. */
  lemma AcceptedExchange(m: map<nat, Log>, p: Pair, me: nat, peer: nat)
    requires Rooted(m, p.leader.log) && Rooted(m, p.follower.log)
    requires CanProbe(p, peer) && Accepted(p, me, peer)
    ensures Exchange(p, me, peer).follower.log == p.leader.log
  {
    hide FirstForFrom, Rooted;
    var l, prev := p.leader.log, p.leader.next[peer] - 1;
    RootedMatch(m, p.follower.log, l, prev);
    assert l == l[..prev + 1] + l[prev + 1..];
  }

  /** The exchanges from `p` until a probe is accepted or the backup is stuck. */
  ghost predicate IsBackup(chain: seq<Pair>, p: Pair, me: nat, peer: nat) {
    && chain != [] && chain[0] == p
    && (forall i | 0 <= i < |chain| :: CanProbe(chain[i], peer))
    && (forall i | 0 < i < |chain| :: Rejected(chain[i - 1], me, peer, chain[i]))
  }

  ghost predicate Rejected(p: Pair, me: nat, peer: nat, p': Pair) {
    CanProbe(p, peer) && !Accepted(p, me, peer) && p' == Exchange(p, me, peer)
  }

  lemma Alone(p: Pair, me: nat, peer: nat)
    requires CanProbe(p, peer)
    ensures IsBackup([p], p, me, peer)
  {
  }

  lemma BackupFrom(p: Pair, me: nat, peer: nat, rest: seq<Pair>)
    requires CanProbe(p, peer) && !Accepted(p, me, peer) && IsBackup(rest, Exchange(p, me, peer), me, peer)
    ensures IsBackup([p] + rest, p, me, peer) && rest != [] && ([p] + rest)[|rest|] == rest[|rest| - 1]
  {
    hide CanProbe, Exchange, Accepted;
    var chain := [p] + rest;
    forall i | 0 < i < |chain| ensures Rejected(chain[i - 1], me, peer, chain[i]) {
      if i > 1 {
        assert chain[i - 1] == rest[i - 2] && chain[i] == rest[i - 1];
      }
    }
  }

  // ---- When it succeeds ----

  /** The leader holds the last entry of the follower's snapshot. */
  ghost predicate SharesSnapshot(p: Pair) {
    && p.follower.snap < |p.leader.log| && p.follower.snap < |p.follower.log|
    && p.leader.log[p.follower.snap].term == p.follower.log[p.follower.snap].term
  }

  /** At `k`, above its snapshot, the follower goes on with the snapshot's term and the leader does not. */
  ghost predicate Diverges(p: Pair, k: nat)
    requires k < |p.follower.log| && k < |p.leader.log| && p.follower.snap < |p.follower.log|
  {
    p.follower.log[k].term == p.follower.log[p.follower.snap].term != p.leader.log[k].term
  }

  /** The first probe is below the follower's snapshot, or above a point where the logs diverge within
      the snapshot's term. */
  ghost predicate Hopeless(p: Pair, peer: nat)
    requires CanProbe(p, peer)
  {
    var prev := p.leader.next[peer] - 1;
    || prev < p.follower.snap
    || exists k :: p.follower.snap < k <= prev && k < |p.follower.log| && Diverges(p, k)
  }

  lemma AcceptedNotHopeless(m: map<nat, Log>, p: Pair, me: nat, peer: nat)
    requires Rooted(m, p.leader.log) && Rooted(m, p.follower.log)
    requires CanProbe(p, peer) && Accepted(p, me, peer)
    ensures !Hopeless(p, peer)
  {
    hide FirstForFrom, Rooted;
    var l, f, prev := p.leader.log, p.follower.log, p.leader.next[peer] - 1;
    RootedMatch(m, f, l, prev);
    forall k | p.follower.snap < k <= prev ensures !Diverges(p, k) {
      assert l[..prev + 1][k] == f[..prev + 1][k];
    }
  }

  /** If the leader has entries of a term at all, its first one is where the follower's first one is. */
  lemma FirstsMatch(m: map<nat, Log>, leader: Log, follower: Log, prev: nat, first: nat)
    requires Rooted(m, leader) && Rooted(m, follower) && first <= prev < |follower| && first < |leader|
    requires 0 < follower[prev].term == leader[first].term
    ensures follower[first] == leader[first]
  {
    var t := follower[prev].term;
    RootedFacts(m, leader);
    RootedFacts(m, follower);
    assert leader[..first + 1][first] == m[t][..first + 1][first];
    assert follower[..prev + 1][first] == m[t][..prev + 1][first];
  }

  /** Where a mismatch above the snapshot sends the leader: below the snapshot if the terms there are the
      snapshot's, and otherwise to an entry above it from which the follower has later terms. */
  lemma MismatchTarget(m: map<nat, Log>, p: Pair, me: nat, peer: nat)
    requires Rooted(m, p.leader.log) && Rooted(m, p.follower.log)
    requires CanProbe(p, peer) && SharesSnapshot(p) && !Accepted(p, me, peer)
    requires p.follower.snap <= p.leader.next[peer] - 1 < |p.follower.log|
    ensures var f, prev, s := p.follower.log, p.leader.next[peer] - 1, p.follower.snap;
            var next := NextProbe(p.leader, peer, Probe(p.leader, me, peer, p.follower));
            && s < prev && p.leader.log[prev].term != f[prev].term
            && (f[prev].term == f[s].term ==> next <= s)
            && (f[prev].term != f[s].term ==> s < next <= prev && f[next].term > f[s].term)
  {
    hide FirstForFrom, Rooted;
    var l, f, prev, s := p.leader.log, p.follower.log, p.leader.next[peer] - 1, p.follower.snap;
    RootedFacts(m, l);
    RootedFacts(m, f);
    var t := f[prev].term;
    FirstIndexOf(l, t);
    FirstForFromSpec(f, s, t);
    var first := FirstForFrom(l, 0, t);
    if first != InvalidIndex {
      if first > prev {
        ConflictIsBelow(m, l, f, prev, first);
      } else {
        FirstsMatch(m, l, f, prev, first);
      }
    }
  }

  /** A rejection that moves the probe does not change whether the backup can succeed. */
  lemma HopelessStays(m: map<nat, Log>, p: Pair, me: nat, peer: nat)
    requires Rooted(m, p.leader.log) && Rooted(m, p.follower.log)
    requires CanProbe(p, peer) && SharesSnapshot(p) && !Accepted(p, me, peer)
    requires CanProbe(Exchange(p, me, peer), peer)
    ensures Hopeless(p, peer) <==> Hopeless(Exchange(p, me, peer), peer)
  {
    hide Rooted, Exchange, Probe, NextProbe;
    var p' := Exchange(p, me, peer);
    var prev, prev', s := p.leader.next[peer] - 1, p'.leader.next[peer] - 1, p.follower.snap;
    RejectedExchange(p, me, peer);
    RejectionLowersProbe(m, p.leader, me, peer, p.follower);
    RootedFacts(m, p.follower.log);
    assert forall k | 0 <= k < |p.follower.log| && k < |p.leader.log| :: Diverges(p', k) == Diverges(p, k);
    if prev >= |p.follower.log| {
      BeyondTarget(p, me, peer);
    } else if prev >= s {
      MismatchTarget(m, p, me, peer);
      if p.follower.log[prev].term == p.follower.log[s].term {
        assert Diverges(p, prev);
      } else {
        assert forall k | prev' < k <= prev :: !Diverges(p, k);
      }
    }
  }

  lemma BeyondTarget(p: Pair, me: nat, peer: nat)
    requires CanProbe(p, peer) && p.leader.next[peer] - 1 >= |p.follower.log|
    ensures !Accepted(p, me, peer)
    ensures NextProbe(p.leader, peer, Probe(p.leader, me, peer, p.follower)) == |p.follower.log|
  {
  }

  /** Backup ends after fewer than `nextIndex` rejections: with an accepted probe, after which the
      follower has the leader's log, or stuck. It is accepted exactly when it was not hopeless. */
  lemma {:induction false} BackupEnds(m: map<nat, Log>, p: Pair, me: nat, peer: nat) returns (chain: seq<Pair>)
    requires Rooted(m, p.leader.log) && Rooted(m, p.follower.log) && CanProbe(p, peer)
    ensures IsBackup(chain, p, me, peer) && |chain| <= p.leader.next[peer]
    ensures var last := chain[|chain| - 1];
            if Accepted(last, me, peer) then Exchange(last, me, peer).follower.log == p.leader.log
            else Stuck(last, peer)
    ensures SharesSnapshot(p) ==> (Accepted(chain[|chain| - 1], me, peer) <==> !Hopeless(p, peer))
    decreases p.leader.next[peer]
  {
    hide Rooted, Exchange, Probe, NextProbe, HoldsTerm, IsBackup, Diverges;
    if Accepted(p, me, peer) {
      AcceptedExchange(m, p, me, peer);
      AcceptedNotHopeless(m, p, me, peer);
      Alone(p, me, peer);
      chain := [p];
    } else {
      RejectionLowersProbe(m, p.leader, me, peer, p.follower);
      if Stuck(p, peer) {
        Alone(p, me, peer);
        chain := [p];
      } else {
        RejectedExchange(p, me, peer);
        if SharesSnapshot(p) {
          HopelessStays(m, p, me, peer);
        }
        var rest := BackupEnds(m, Exchange(p, me, peer), me, peer);
        BackupFrom(p, me, peer, rest);
        chain := [p] + rest;
        assert chain[|chain| - 1] == rest[|rest| - 1];
      }
    }
  }

  /** A stuck leader probes at the same index again, and gets the same answer. */
  lemma StuckStays(m: map<nat, Log>, p: Pair, me: nat, peer: nat)
    requires Rooted(m, p.leader.log) && Rooted(m, p.follower.log) && CanProbe(p, peer) && Stuck(p, peer)
    ensures !Accepted(p, me, peer) && Exchange(p, me, peer).leader == p.leader
    ensures CanProbe(Exchange(p, me, peer), peer) && Stuck(Exchange(p, me, peer), peer)
  {
    hide Rooted, FirstForFrom, HoldsTerm, NextProbe;
    RejectionLowersProbe(m, p.leader, me, peer, p.follower);
    RejectedExchange(p, me, peer);
    assert p.leader.next[peer := p.leader.next[peer]] == p.leader.next;
  }

  // ---- In runs ----

  /** With nothing compacted on either side there is hope. */
  lemma UncompactedHasHope(m: map<nat, Log>, p: Pair, peer: nat)
    requires Rooted(m, p.leader.log) && Rooted(m, p.follower.log) && CanProbe(p, peer) && p.follower.snap == 0
    ensures SharesSnapshot(p) && !Hopeless(p, peer)
  {
    hide Rooted;
    RootedFacts(m, p.leader.log);
    RootedFacts(m, p.follower.log);
  }

  /** A leader and a follower of one state: their logs are rooted in the same leaders' logs. */
  lemma PairInRun(c: Core, s: State, v: nat, w: nat)
    requires Linked(c, s) && Basic(c) && v < |s.nodes| && w < |s.nodes| && v != w
    requires s.nodes[v].role == Leader && s.nodes[v].snap == 0 && s.nodes[w].term <= s.nodes[v].term
    ensures Rooted(c.leaderLog, s.nodes[v].log) && Rooted(c.leaderLog, s.nodes[w].log)
    ensures CanProbe(Pair(s.nodes[v], s.nodes[w]), w)
  {
    hide Basic, Rooted, Linked, FirstForFrom;
    EvolvesRefl(c);
    RootedIn(c, s, c, v);
    RootedIn(c, s, c, w);
    LinkedNode(c, s, v);
    LinkedNode(c, s, w);
  }

  /** In every run, while neither peer has compacted its log, each rejection lowers `nextIndex`. */
  lemma BackupMakesProgress(run: seq<State>, i: nat, v: nat, w: nat)
    requires IsRun(run) && i < |run| && v < |run[i].nodes| && w < |run[i].nodes| && v != w
    requires run[i].nodes[v].role == Leader && run[i].nodes[w].term <= run[i].nodes[v].term
    requires run[i].nodes[v].snap == 0 && run[i].nodes[w].snap == 0
    ensures var leader, follower := run[i].nodes[v], run[i].nodes[w];
            && CanProbe(Pair(leader, follower), w)
            && (!Probe(leader, v, w, follower).success ==>
                  1 <= NextProbe(leader, w, Probe(leader, v, w, follower)) < leader.next[w])
            && (leader.next[w] == 1 ==> Probe(leader, v, w, follower).success)
  {
    hide IsRun, Basic, Rooted, Evolves, Linked, FirstForFrom;
    var cores := RunRecords(run);
    var leader, follower := run[i].nodes[v], run[i].nodes[w];
    PairInRun(cores[i], run[i], v, w);
    if !Probe(leader, v, w, follower).success {
      RejectionLowersProbe(cores[i].leaderLog, leader, v, w, follower);
    }
  }

  /** In every run, a leader and a follower that have compacted nothing: within `nextIndex` exchanges, all
      but the last rejected, the follower has the leader's log. */
  lemma BackupFindsMatch(run: seq<State>, i: nat, v: nat, w: nat) returns (chain: seq<Pair>)
    requires IsRun(run) && i < |run| && v < |run[i].nodes| && w < |run[i].nodes| && v != w
    requires run[i].nodes[v].role == Leader && run[i].nodes[w].term <= run[i].nodes[v].term
    requires run[i].nodes[v].snap == 0 && run[i].nodes[w].snap == 0
    ensures IsBackup(chain, Pair(run[i].nodes[v], run[i].nodes[w]), v, w) && |chain| <= run[i].nodes[v].next[w]
    ensures Accepted(chain[|chain| - 1], v, w)
    ensures Exchange(chain[|chain| - 1], v, w).follower.log == run[i].nodes[v].log
  {
    hide IsRun, Basic, Rooted, Evolves, Linked, Exchange, Probe, Diverges, Hopeless, SharesSnapshot, Stuck;
    var cores := RunRecords(run);
    var p := Pair(run[i].nodes[v], run[i].nodes[w]);
    PairInRun(cores[i], run[i], v, w);
    UncompactedHasHope(cores[i].leaderLog, p, w);
    chain := BackupEnds(cores[i].leaderLog, p, v, w);
  }

  /** What a peer committed is in the log of any leader of its term or a later one. */
  lemma CommittedInLeader(c: Core, leader: Node, w: nat, nd: Node, k: nat)
    requires Basic(c) && Safe(c) && NodeCert(c, w, nd) && 0 < k <= nd.commit && nd.term <= leader.term
    requires leader.term in c.leader && leader.term in c.initLog && leader.term in c.leaderLog
    requires c.initLog[leader.term] <= leader.log == c.leaderLog[leader.term]
    ensures k < |leader.log| && k < |nd.log| && nd.log[k] == leader.log[k]
  {
    hide Basic, Safe;
    var t: nat, i: nat :| CertBy(c, w, nd.log, nd.commit, nd.term, t, i);
    assert nd.log[..nd.commit + 1][k] == c.leaderLog[t][..nd.commit + 1][k];
    if t < leader.term {
      CommittedInLaterLeaders(c, t, i, leader.term);
      assert c.initLog[leader.term][..i + 1][k] == c.leaderLog[t][..i + 1][k];
    }
  }

  lemma SnapshotInRun(c: Core, s: State, v: nat, w: nat)
    requires Keeping(c, s) && v < |s.nodes| && w < |s.nodes| && v != w
    requires s.nodes[v].role == Leader && s.nodes[v].snap == 0 && s.nodes[w].term <= s.nodes[v].term
    ensures Linked(c, s) && Basic(c) && SharesSnapshot(Pair(s.nodes[v], s.nodes[w]))
  {
    hide Keeping, Basic, Safe, Linked, NodeCert, Rooted, CanProbe;
    var leader, nd := s.nodes[v], s.nodes[w];
    KeepingParts(c, s);
    PairInRun(c, s, v, w);
    NodeCertBounds(c, w, nd);
    if nd.snap == 0 {
      RootedFacts(c.leaderLog, leader.log);
      RootedFacts(c.leaderLog, nd.log);
    } else {
      EvolvesRefl(c);
      LeaderHolds(c, s, c, v);
      LinkedNode(c, s, v);
      LeaderLog(c, v, leader);
      CommittedInLeader(c, leader, w, nd, nd.snap);
    }
  }

  /** In every run whose accepted calls cut nothing acknowledged, with any compaction at the follower: the
      backup ends within `nextIndex` exchanges, and it ends with the leader's log at the follower if and only
      if the leader does not start below the follower's snapshot nor above a point where the follower goes
      on with the snapshot's term and the leader does not. Otherwise it ends stuck. */
  lemma BackupExact(run: seq<State>, i: nat, v: nat, w: nat) returns (chain: seq<Pair>)
    requires IsKeepingRun(run) && i < |run| && v < |run[i].nodes| && w < |run[i].nodes| && v != w
    requires run[i].nodes[v].role == Leader && run[i].nodes[w].term <= run[i].nodes[v].term
    requires run[i].nodes[v].snap == 0
    ensures IsBackup(chain, Pair(run[i].nodes[v], run[i].nodes[w]), v, w) && |chain| <= run[i].nodes[v].next[w]
    ensures Accepted(chain[|chain| - 1], v, w) <==> !Hopeless(Pair(run[i].nodes[v], run[i].nodes[w]), w)
    ensures var last := chain[|chain| - 1];
            if Accepted(last, v, w) then Exchange(last, v, w).follower.log == run[i].nodes[v].log
            else Stuck(last, w)
  {
    hide IsKeepingRun, Keeping, Basic, Rooted, Evolves, Linked, Exchange, Probe, Diverges, Hopeless, SharesSnapshot,
      Stuck;
    var cores := KeepingRunRecords(run);
    SnapshotInRun(cores[i], run[i], v, w);
    PairInRun(cores[i], run[i], v, w);
    chain := BackupEnds(cores[i].leaderLog, Pair(run[i].nodes[v], run[i].nodes[w]), v, w);
  }
}
