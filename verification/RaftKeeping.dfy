/** What holds when no accepted call ends before an acknowledged one: acknowledged indices are never given up, and
    every commit index is backed by a commit decision of some leader. */
module RaftKeeping {
  import opened RaftTypes
  import opened RaftNode
  import opened RaftProtocol
  import opened RaftCore
  import opened RaftCompleteness
  import opened RaftInvariant
  import opened RaftSteps

  /** A reply that says follower `v` holds the leader's log of term `t` up to `end`. */
  predicate Backs(r: AppendRep, t: nat, v: nat, end: nat) {
    r.reply.success && r.args.to == v && r.args.term == t && end <= End(r.args)
  }

  /** What a follower acknowledged in a term, it acknowledged in some reply. */
  ghost predicate AckedByReply(c: Core, s: State) {
    forall t, v | (t, v) in c.acked && t in c.leader && c.leader[t] != v ::
      exists r :: r in s.appendReps && Backs(r, t, v, c.acked[(t, v)])
  }

  /** An accepted call reaches everything acknowledged before. */
  lemma DeliveryIsFresh(c: Core, s: State, k: nat)
    requires Linked(c, s) && AckedByReply(c, s) && Requested(s, ReceiveAppend(k))
    requires InBounds(s, ReceiveAppend(k)) && CutsNothing(s, ReceiveAppend(k))
    ensures FreshIfAccepted(c, s.nodes[s.sent[k].to], s.sent[k])
  {
    hide NodeLinked, VoteReqLinked, VoteRepLinked, AppendRepLinked, OnAppend;
    var m := s.sent[k];
    assert AppendLinked(c, m);
    if Accepts(s.nodes[m.to], m) && (m.term, m.to) in c.acked {
      var r :| r in s.appendReps && Backs(r, m.term, m.to, c.acked[(m.term, m.to)]);
      assert Acknowledges(r, m);
    }
  }

  ghost predicate FreshIfAccepted(c: Core, nd: Node, m: AppendArgs)
    requires nd.log != [] && nd.snap < |nd.log|
  {
    Accepts(nd, m) ==> RaftCore.Fresh(c, m.to, m.term, End(m))
  }

  // ---- Commit certificates ----

  /** The leader of `t` committed `i`, at or above `k`, and `log` holds its log up to `k`; if `t`
      is still the peer's term then the peer is that leader or acknowledged `k`. */
  ghost predicate CertBy(c: Core, v: nat, log: Log, k: nat, term: nat, t: nat, i: nat) {
    && (t, i) in c.commits && k <= i && t <= term
    && Covers(c.leaderLog, log, t, k)
    && (t == term ==> t in c.leader && (c.leader[t] == v || k <= Acked(c, t, v)))
  }

  ghost predicate NodeCert(c: Core, v: nat, nd: Node) {
    && nd.snap <= nd.commit < |nd.log| && nd.applied <= nd.commit
    && (nd.commit > 0 ==> exists t: nat, i: nat :: CertBy(c, v, nd.log, nd.commit, nd.term, t, i))
  }

  ghost predicate MsgCertBy(c: Core, m: AppendArgs, t: nat, i: nat) {
    && (t, i) in c.commits && m.leaderCommit <= i && t <= m.term
    && m.term in c.leaderLog && Covers(c.leaderLog, c.leaderLog[m.term], t, m.leaderCommit)
  }

  ghost predicate MsgCert(c: Core, m: AppendArgs) {
    m.leaderCommit <= End(m) && (m.leaderCommit > 0 ==> exists t: nat, i: nat :: MsgCertBy(c, m, t, i))
  }

  ghost predicate Certified(c: Core, s: State) {
    && (forall v | 0 <= v < |s.nodes| :: NodeCert(c, v, s.nodes[v]))
    && (forall k | 0 <= k < |s.sent| :: MsgCert(c, s.sent[k]))
  }

  lemma CoversShorter(m: map<nat, Log>, log: Log, t: nat, k: nat, k': nat)
    requires Covers(m, log, t, k) && k' <= k
    ensures Covers(m, log, t, k')
  {
    assert log[..k' + 1] == log[..k + 1][..k' + 1];
    assert m[t][..k' + 1] == m[t][..k + 1][..k' + 1];
  }

  /** A certificate survives as the run moves on, for a log that only grew, a commit index that
      did not, and a term that did not fall. */
  lemma CertStays(c: Core, c': Core, v: nat, nd: Node, nd': Node)
    requires Evolves(c, c') && NodeCert(c, v, nd)
    requires nd.log <= nd'.log && nd'.commit <= nd.commit && nd.term <= nd'.term
    requires nd'.snap <= nd'.commit && nd'.applied <= nd'.commit
    ensures NodeCert(c', v, nd')
  {
    if nd'.commit > 0 {
      var t: nat, i: nat :| CertBy(c, v, nd.log, nd.commit, nd.term, t, i);
      CoversShorter(c.leaderLog, nd.log, t, nd.commit, nd'.commit);
      CoversLater(c.leaderLog, c'.leaderLog, nd.log, t, nd'.commit);
      assert nd'.log[..nd'.commit + 1] == nd.log[..nd'.commit + 1];
      assert Acked(c, t, v) <= Acked(c', t, v);
      assert CertBy(c', v, nd'.log, nd'.commit, nd'.term, t, i);
    }
  }

  lemma MsgCertStays(c: Core, c': Core, m: AppendArgs)
    requires Evolves(c, c') && MsgCert(c, m)
    ensures MsgCert(c', m)
  {
    if m.leaderCommit > 0 {
      var t: nat, i: nat :| MsgCertBy(c, m, t, i);
      var l, l', k := c.leaderLog[m.term], c'.leaderLog[m.term], m.leaderCommit;
      assert l <= l';
      CoversLater(c.leaderLog, c'.leaderLog, l, t, k);
      assert l'[..k + 1] == l[..k + 1];
      assert MsgCertBy(c', m, t, i);
    }
  }

  /** A leader's call passes its certificate on. */
  lemma MessageCert(c: Core, v: nat, nd: Node, m: AppendArgs)
    requires NodeCert(c, v, nd) && nd.term in c.leaderLog && c.leaderLog[nd.term] == nd.log
    requires m.term == nd.term && m.leaderCommit == nd.commit && End(m) == |nd.log| - 1
    ensures MsgCert(c, m)
  {
    if nd.commit > 0 {
      var t: nat, i: nat :| CertBy(c, v, nd.log, nd.commit, nd.term, t, i);
      assert MsgCertBy(c, m, t, i);
    }
  }

  /** The follower that accepts a call keeps its certificate or takes the call's. */
  lemma AcceptCert(c: Core, v: nat, nd: Node, m: AppendArgs, nd': Node)
    requires Basic(c) && Safe(c) && NodeCert(c, v, nd) && MsgCert(c, m)
    requires CanAccept(c, v, m.term, End(m)) && RaftCore.Fresh(c, v, m.term, End(m))
    requires nd.term <= m.term == nd'.term
    requires nd'.log == c.leaderLog[m.term][..End(m) + 1]
    requires nd'.commit == if m.leaderCommit > nd.commit then m.leaderCommit else nd.commit
    requires nd'.snap == nd.snap && nd'.applied == nd.applied
    ensures NodeCert(Accept(c, v, m.term, End(m)), v, nd')
  {
    hide LogsOk, LeadersOk, BallotsOk, AcksOk, LeaderComplete, OffersOk, LogsKeep;
    var c' := Accept(c, v, m.term, End(m));
    var k := nd'.commit;
    if m.leaderCommit > nd.commit {
      var t: nat, i: nat :| MsgCertBy(c, m, t, i);
      assert nd'.log[..k + 1] == c.leaderLog[m.term][..k + 1];
      assert CertBy(c', v, nd'.log, k, nd'.term, t, i);
    } else if k > 0 {
      var t: nat, i: nat :| CertBy(c, v, nd.log, nd.commit, nd.term, t, i);
      if t < m.term {
        CommittedInLaterLeaders(c, t, i, m.term);
        InitCovers(c, m.term, t, i, End(m), k);
      } else {
        assert k <= End(m);
        assert nd'.log[..k + 1] == c.leaderLog[m.term][..k + 1];
      }
      assert CertBy(c', v, nd'.log, k, nd'.term, t, i);
    }
  }

  lemma InitCovers(c: Core, u: nat, t: nat, i: nat, end: nat, k: nat)
    requires Basic(c) && u in c.leader && t in c.leaderLog
    requires i < |c.leaderLog[t]| && i < |c.initLog[u]| <= end + 1 <= |c.leaderLog[u]| && k <= i
    requires c.initLog[u][..i + 1] == c.leaderLog[t][..i + 1]
    ensures k < end + 1 && Covers(c.leaderLog, c.leaderLog[u][..end + 1], t, k)
  {
    hide LogsOk, BallotsOk, AcksOk;
    assert LeaderOk(c, u);
    var l := c.leaderLog[u][..end + 1];
    assert l[..k + 1] == c.initLog[u][..i + 1][..k + 1];
    assert c.leaderLog[t][..k + 1] == c.leaderLog[t][..i + 1][..k + 1];
  }

  /** Two certified peers agree on every index both have committed. */
  lemma CertsAgree(c: Core, v: nat, nd: Node, w: nat, nd': Node, k: nat)
    requires Basic(c) && Safe(c) && NodeCert(c, v, nd) && NodeCert(c, w, nd')
    requires 0 < k <= nd.commit && k <= nd'.commit
    ensures nd.log[k] == nd'.log[k]
  {
    hide Basic, Safe;
    var t: nat, i: nat :| CertBy(c, v, nd.log, nd.commit, nd.term, t, i);
    var u: nat, j: nat :| CertBy(c, w, nd'.log, nd'.commit, nd'.term, u, j);
    CommitsAgree(c, t, i, u, j, k);
    assert nd.log[..nd.commit + 1][k] == c.leaderLog[t][..nd.commit + 1][k];
    assert nd'.log[..nd'.commit + 1][k] == c.leaderLog[u][..nd'.commit + 1][k];
  }
}
