/** Leader completeness: an index a leader committed is in the log of every later leader,
    in every run in which no accepted message stops short of an index already acknowledged. */
module RaftCompleteness {
  import opened RaftTypes
  import opened RaftCore

  /** An entry of the leader of term `t`'s own term. */
  ghost predicate OwnEntry(leaderLog: map<nat, Log>, t: nat, i: nat) {
    t in leaderLog && 0 < i < |leaderLog[t]| && leaderLog[t][i].term == t
  }

  /** `q` has acknowledged index `i` of term `t`, or still could. */
  ghost predicate May(c: Core, q: set<nat>, t: nat, i: nat) {
    IsQuorum(q, |c.terms|) && forall w | w in q :: Acked(c, t, w) >= i || c.terms[w] <= t
  }

  /** Index `i` of term `t` is committed, or still could be. */
  ghost predicate Choosable(c: Core, t: nat, i: nat) {
    OwnEntry(c.leaderLog, t, i) && exists q :: May(c, q, t, i)
  }

  /** `log` holds the leader of `t`'s log up to `i`. */
  ghost predicate Covers(leaderLog: map<nat, Log>, log: Log, t: nat, i: nat) {
    t in leaderLog && i < |leaderLog[t]| && i < |log| && log[..i + 1] == leaderLog[t][..i + 1]
  }

  /** Every leader started with all that earlier leaders committed or still could commit. */
  ghost predicate LeaderComplete(c: Core) {
    forall u: nat, t: nat, i: nat | u in c.initLog && t < u && Choosable(c, t, i) ::
      Covers(c.leaderLog, c.initLog[u], t, i)
  }

  /** A candidate's log holds all a voter had acknowledged in earlier terms that could count. */
  ghost predicate OfferOk(c: Core, u: nat, v: nat, log: Log) {
    forall t: nat, i: nat | t < u && Choosable(c, t, i) && i <= Acked(c, t, v) :: Covers(c.leaderLog, log, t, i)
  }

  ghost predicate OffersOk(c: Core) {
    forall u, v | (u, v) in c.ballots ::
      (u, c.ballots[(u, v)]) in c.candLog && OfferOk(c, u, v, c.candLog[(u, c.ballots[(u, v)])])
  }

  /** A peer's log holds all it has acknowledged that could count. */
  ghost predicate KeepsAcked(c: Core, v: nat, log: Log) {
    forall t: nat, i: nat | Choosable(c, t, i) && i <= Acked(c, t, v) :: Covers(c.leaderLog, log, t, i)
  }

  ghost predicate LogsKeep(c: Core) {
    forall v | 0 <= v < |c.logs| :: KeepsAcked(c, v, c.logs[v])
  }

  ghost predicate Safe(c: Core) {
    LeaderComplete(c) && OffersOk(c) && LogsKeep(c)
  }

  // ---- What can be committed only shrinks ----

  /** The run moved on: terms and leaders' logs grew, and only peers whose term had not passed
      `t` acknowledged anything more of term `t`. */
  ghost predicate MovesOn(c: Core, c': Core) {
    && TermsGrow(c.terms, c'.terms)
    && Grows(c.leaderLog, c'.leaderLog)
    && (forall t: nat, w: nat | w < |c.terms| :: Acked(c', t, w) == Acked(c, t, w) || c.terms[w] <= t)
  }

  lemma ChoosableBefore(c: Core, c': Core, t: nat, i: nat)
    requires MovesOn(c, c') && Choosable(c', t, i) && t in c.leaderLog && i < |c.leaderLog[t]|
    ensures Choosable(c, t, i)
  {
    var q :| May(c', q, t, i);
    assert May(c, q, t, i);
  }

  lemma CoversLater(m: map<nat, Log>, m': map<nat, Log>, log: Log, t: nat, i: nat)
    requires Grows(m, m') && Covers(m, log, t, i)
    ensures Covers(m', log, t, i)
  {
    assert m[t] <= m'[t];
  }

  /** An index nobody has acknowledged cannot be committed once a later term has a leader. */
  lemma TooLate(c: Core, c': Core, u: nat, t: nat, i: nat)
    requires Basic(c) && MovesOn(c, c') && c'.acked == c.acked
    requires u in c.leader && t < u
    requires 0 < i && (t in c.leaderLog ==> |c.leaderLog[t]| <= i)
    ensures !Choosable(c', t, i)
  {
    hide LogsOk;
    if Choosable(c', t, i) {
      var q :| May(c', q, t, i);
      assert LeaderOk(c, u);
      var w := QuorumsMeet(q, c.electors[u], |c.terms|);
      assert false;
    }
  }

  /** Leaders' logs gained no entry of their own term, or nothing was acknowledged. */
  ghost predicate NoNewOrNoAck(c: Core, c': Core) {
    || c'.acked == c.acked
    || (forall t: nat, i: nat | OwnEntry(c'.leaderLog, t, i) :: OwnEntry(c.leaderLog, t, i))
  }

  lemma LeaderStays(c: Core, c': Core, u: nat, t: nat, i: nat)
    requires Basic(c) && LeaderComplete(c) && MovesOn(c, c') && NoNewOrNoAck(c, c')
    requires u in c.initLog && t < u && Choosable(c', t, i)
    ensures Covers(c'.leaderLog, c.initLog[u], t, i)
  {
    hide LogsOk, LeadersOk, BallotsOk, AcksOk, Covers;
    if t in c.leaderLog && i < |c.leaderLog[t]| {
      ChoosableBefore(c, c', t, i);
      CoversLater(c.leaderLog, c'.leaderLog, c.initLog[u], t, i);
    } else {
      TooLate(c, c', u, t, i);
    }
  }

  /** What a peer has acknowledged and could count was choosable before, too. */
  lemma AckedBefore(c: Core, c': Core, v: nat, t: nat, i: nat)
    requires Basic(c) && MovesOn(c, c') && NoNewOrNoAck(c, c')
    requires Choosable(c', t, i) && i <= Acked(c', t, v)
    ensures Choosable(c, t, i)
  {
    hide LogsOk, LeadersOk, BallotsOk;
    ChoosableBefore(c, c', t, i);
  }

  lemma OfferStays(c: Core, c': Core, u: nat, v: nat, log: Log)
    requires Basic(c) && MovesOn(c, c') && NoNewOrNoAck(c, c')
    requires OfferOk(c, u, v, log) && v < |c.terms| && u <= c.terms[v]
    ensures OfferOk(c', u, v, log)
  {
    hide Basic, Choosable, Covers;
    forall t: nat, i: nat | t < u && Choosable(c', t, i) && i <= Acked(c', t, v)
      ensures Covers(c'.leaderLog, log, t, i)
    {
      AckedBefore(c, c', v, t, i);
      CoversLater(c.leaderLog, c'.leaderLog, log, t, i);
    }
  }

  lemma KeepStays(c: Core, c': Core, v: nat, log: Log)
    requires Basic(c) && MovesOn(c, c') && NoNewOrNoAck(c, c')
    requires KeepsAcked(c, v, log) && v < |c.terms|
    requires forall t: nat :: Acked(c', t, v) == Acked(c, t, v)
    ensures KeepsAcked(c', v, log)
  {
    hide Basic, Choosable, Covers;
    forall t: nat, i: nat | Choosable(c', t, i) && i <= Acked(c', t, v)
      ensures Covers(c'.leaderLog, log, t, i)
    {
      AckedBefore(c, c', v, t, i);
      CoversLater(c.leaderLog, c'.leaderLog, log, t, i);
    }
  }

  /** All three parts survive a step that changes no log and no acknowledgement of a logged entry. */
  lemma SafeFrame(c: Core, c': Core)
    requires Basic(c) && Safe(c) && MovesOn(c, c') && NoNewOrNoAck(c, c')
    ensures forall u: nat, t: nat, i: nat | u in c.initLog && t < u && Choosable(c', t, i) ::
              Covers(c'.leaderLog, c.initLog[u], t, i)
    ensures forall u, v | (u, v) in c.ballots ::
              (u, c.ballots[(u, v)]) in c.candLog && OfferOk(c', u, v, c.candLog[(u, c.ballots[(u, v)])])
    ensures forall v: nat | v < |c.logs| && (forall t: nat :: Acked(c', t, v) == Acked(c, t, v)) ::
              KeepsAcked(c', v, c.logs[v])
  {
    hide LogsOk, LeadersOk, AcksOk, MovesOn, NoNewOrNoAck, Choosable, Covers, OfferOk, KeepsAcked;
    forall u: nat, t: nat, i: nat | u in c.initLog && t < u && Choosable(c', t, i)
      ensures Covers(c'.leaderLog, c.initLog[u], t, i)
    {
      LeaderStays(c, c', u, t, i);
    }
    forall u, v | (u, v) in c.ballots
      ensures (u, c.ballots[(u, v)]) in c.candLog && OfferOk(c', u, v, c.candLog[(u, c.ballots[(u, v)])])
    {
      OfferStays(c, c', u, v, c.candLog[(u, c.ballots[(u, v)])]);
    }
    forall v: nat | v < |c.logs| && (forall t: nat :: Acked(c', t, v) == Acked(c, t, v))
      ensures KeepsAcked(c', v, c.logs[v])
    {
      KeepStays(c, c', v, c.logs[v]);
    }
  }

  lemma BumpSafe(c: Core, v: nat, t: nat)
    requires Basic(c) && Safe(c) && CanBump(c, v, t)
    ensures Safe(Bump(c, v, t))
  {
    hide LogsOk, LeadersOk, BallotsOk, AcksOk, Choosable, Covers, OfferOk, KeepsAcked;
    SafeFrame(c, Bump(c, v, t));
  }

  lemma StandSafe(c: Core, v: nat)
    requires Basic(c) && Safe(c) && CanStand(c, v)
    ensures Safe(Stand(c, v))
  {
    hide LogsOk, LeadersOk, AcksOk, Choosable, Covers;
    var c' := Stand(c, v);
    SafeFrame(c, c');
    assert KeepsAcked(c', v, c.logs[v]);
  }

  lemma CommitSafe(c: Core, t: nat, i: nat, q: set<nat>)
    requires Basic(c) && Safe(c) && CanCommit(c, t, i, q)
    ensures Safe(Commit(c, t, i, q))
  {
    hide LogsOk, LeadersOk, BallotsOk, AcksOk, Choosable, Covers, OfferOk, KeepsAcked;
    SafeFrame(c, Commit(c, t, i, q));
  }

  /** The vote check: a log at least as up to date as `mine` holds all that counts in `mine`. */
  lemma UpToDateCovers(c: Core, mine: Log, theirs: Log, u: nat, t: nat, i: nat)
    requires ShapeOk(c) && LogsOk(c) && LeaderComplete(c) && LeadersOk(c)
    requires Rooted(c.leaderLog, mine) && Rooted(c.leaderLog, theirs)
    requires Choosable(c, t, i) && Covers(c.leaderLog, mine, t, i)
    requires !MoreUpToDate(mine, LastIndex(theirs), LastTerm(theirs))
    ensures Covers(c.leaderLog, theirs, t, i)
  {
    hide LogsOk, LeadersOk, LeaderOk;
    var x, j := LastTerm(theirs), |theirs| - 1;
    assert mine[..i + 1][i].term == c.leaderLog[t][..i + 1][i].term == t;
    assert t <= LastTerm(mine) <= x;
    assert 0 < j;
    assert theirs == theirs[..j + 1] == c.leaderLog[x][..j + 1];
    if x == t {
      assert i <= j;
    } else {
      LaterLeaderCovers(c, x, t, i);
      assert i < j;
    }
    assert theirs[..i + 1] == c.leaderLog[x][..i + 1];
  }

  lemma LeaderFacts(c: Core, t: nat)
    requires ShapeOk(c) && LogsOk(c) && LeadersOk(c) && t in c.leader
    ensures c.initLog[t] <= c.leaderLog[t] && SortedTerms(c.leaderLog[t])
  {
    assert LeaderOk(c, t);
    assert LogOk(c.leaderLog, c.leaderLog[t], t);
  }

  lemma LaterLeaderCovers(c: Core, x: nat, t: nat, i: nat)
    requires ShapeOk(c) && LogsOk(c) && LeadersOk(c) && LeaderComplete(c)
    requires x in c.leader && t < x && Choosable(c, t, i)
    ensures Covers(c.leaderLog, c.leaderLog[x], t, i)
    ensures c.leaderLog[x][i].term == t && SortedTerms(c.leaderLog[x])
  {
    hide May, LeadersOk, LogsOk, SortedTerms;
    LeaderFacts(c, x);
    assert Covers(c.leaderLog, c.initLog[x], t, i);
    assert c.initLog[x][..i + 1] == c.leaderLog[x][..i + 1];
    assert c.leaderLog[x][..i + 1][i] == c.leaderLog[t][..i + 1][i];
  }

  lemma VoteOffer(c: Core, v: nat, t: nat, d: nat)
    requires Basic(c) && Safe(c) && CanVote(c, v, t, d)
    ensures OfferOk(c, t, v, c.candLog[(t, d)])
  {
    hide Rooted, LeadersOk, AcksOk, Choosable, Covers, LeaderComplete, OffersOk;
    assert LogOk(c.leaderLog, c.logs[v], c.terms[v]) && LogOk(c.leaderLog, c.candLog[(t, d)], t - 1);
    forall u: nat, i: nat | u < t && Choosable(c, u, i) && i <= Acked(c, u, v)
      ensures Covers(c.leaderLog, c.candLog[(t, d)], u, i)
    {
      assert Covers(c.leaderLog, c.logs[v], u, i);
      UpToDateCovers(c, c.logs[v], c.candLog[(t, d)], t, u, i);
    }
  }

  lemma VoteSafe(c: Core, v: nat, t: nat, d: nat)
    requires Basic(c) && Safe(c) && CanVote(c, v, t, d)
    ensures Safe(Vote(c, v, t, d))
  {
    hide LogsOk, LeadersOk, AcksOk, BallotsOk, Choosable, Covers, OfferOk, KeepsAcked;
    var c' := Vote(c, v, t, d);
    SafeFrame(c, c');
    VoteOffer(c, v, t, d);
    OfferSame(c, c', t, v, c.candLog[(t, d)]);
  }

  lemma OfferSame(c: Core, c': Core, u: nat, v: nat, log: Log)
    requires c'.leaderLog == c.leaderLog && c'.acked == c.acked && c'.terms == c.terms
    requires OfferOk(c, u, v, log)
    ensures OfferOk(c', u, v, log)
  {
    forall t: nat, i: nat | t < u && Choosable(c', t, i) && i <= Acked(c', t, v)
      ensures Covers(c'.leaderLog, log, t, i)
    {
      var q :| May(c', q, t, i);
      assert May(c, q, t, i);
    }
  }

  /** Winning an election: some elector acknowledged whatever could count, and its ballot
      vouches for the winner's log. */
  lemma ElectComplete(c: Core, v: nat, t: nat, q: set<nat>, u: nat, i: nat)
    requires Basic(c) && Safe(c) && CanElect(c, v, t, q)
    requires u < t && Choosable(c, u, i)
    ensures Covers(c.leaderLog, c.logs[v], u, i)
  {
    hide LogsOk, LeadersOk, AcksOk, Covers, KeepsAcked, LeaderComplete, LogsKeep;
    var p :| May(c, p, u, i);
    var w := QuorumsMeet(p, q, |c.terms|);
    assert OfferOk(c, t, w, c.candLog[(t, v)]);
  }

  lemma ElectSafe(c: Core, v: nat, t: nat, q: set<nat>)
    requires Basic(c) && Safe(c) && CanElect(c, v, t, q)
    ensures Safe(Elect(c, v, t, q))
  {
    hide LeadersOk, AcksOk, BallotsOk, Choosable, Covers, OfferOk, KeepsAcked, IsQuorum;
    var c' := Elect(c, v, t, q);
    ElectNoNew(c, v, t, q);
    SafeFrame(c, c');
    forall u: nat, i: nat | u < t && Choosable(c', u, i)
      ensures Covers(c'.leaderLog, c.logs[v], u, i)
    {
      ElectChoosable(c, v, t, q, u, i);
      ElectComplete(c, v, t, q, u, i);
      CoversLater(c.leaderLog, c'.leaderLog, c.logs[v], u, i);
    }
  }

  lemma ElectChoosable(c: Core, v: nat, t: nat, q: set<nat>, u: nat, i: nat)
    requires Basic(c) && CanElect(c, v, t, q) && u != t && Choosable(Elect(c, v, t, q), u, i)
    ensures Choosable(c, u, i)
  {
    hide LogsOk, LeadersOk, AcksOk, BallotsOk;
    ChoosableBefore(c, Elect(c, v, t, q), u, i);
  }

  /** A new leader has no entry of its own term yet. */
  lemma ElectNoNew(c: Core, v: nat, t: nat, q: set<nat>)
    requires Basic(c) && CanElect(c, v, t, q)
    ensures MovesOn(c, Elect(c, v, t, q)) && NoNewOrNoAck(c, Elect(c, v, t, q))
    ensures Grows(c.leaderLog, Elect(c, v, t, q).leaderLog)
  {
    hide LogsOk, LeadersOk, AcksOk, BallotsOk;
  }

  lemma AppendSafe(c: Core, t: nat, e: Entry)
    requires Basic(c) && Safe(c) && CanAppend(c, t) && e.term == t
    ensures Safe(Append(c, t, e))
  {
    hide LogsOk, AcksOk, BallotsOk, Choosable, Covers, OfferOk, KeepsAcked, IsQuorum;
    var c' := Append(c, t, e);
    assert MovesOn(c, c');
    SafeFrame(c, c');
    var v := c.leader[t];
    assert LeaderOk(c, t);
    KeepsMore(c', v, c.logs[v], c'.logs[v]);
  }

  lemma KeepsMore(c: Core, v: nat, log: Log, log': Log)
    requires KeepsAcked(c, v, log) && log <= log'
    ensures KeepsAcked(c, v, log')
  {
    forall t: nat, i: nat | Choosable(c, t, i) && i <= Acked(c, t, v)
      ensures Covers(c.leaderLog, log', t, i)
    {
      assert log'[..i + 1] == log[..i + 1];
    }
  }

  lemma AckMovesOn(c: Core, c': Core, t: nat, v: nat, k: nat)
    requires v < |c.terms| && c.terms[v] == t && c'.terms == c.terms
    requires c'.leaderLog == c.leaderLog && c'.acked == c.acked[(t, v) := k]
    ensures MovesOn(c, c') && NoNewOrNoAck(c, c')
    ensures forall w: nat, u: nat :: (u, w) != (t, v) ==> Acked(c', u, w) == Acked(c, u, w)
  {
  }

  lemma AcceptKeeps(c: Core, v: nat, t: nat, end: nat)
    requires Basic(c) && Safe(c) && CanAccept(c, v, t, end) && Fresh(c, v, t, end)
    ensures var c' := Accept(c, v, t, end); KeepsAcked(c', v, c'.logs[v])
  {
    hide LogsOk, LeadersOk, BallotsOk, OffersOk, LogsKeep;
    var c' := Accept(c, v, t, end);
    AckMovesOn(c, c', t, v, Max(Acked(c, t, v), end));
    forall u: nat, i: nat | Choosable(c', u, i) && i <= Acked(c', u, v)
      ensures Covers(c'.leaderLog, c'.logs[v], u, i)
    {
      if u < t {
        ChoosableBefore(c, c', u, i);
        assert Covers(c.leaderLog, c.initLog[t], u, i);
        assert c.initLog[t] <= c.leaderLog[t] by { LeaderFacts(c, t); }
        assert c'.logs[v][..i + 1] == c.initLog[t][..i + 1];
      } else if u == t {
        assert c'.logs[v][..i + 1] == c.leaderLog[t][..i + 1];
      }
    }
  }

  lemma AcceptSafe(c: Core, v: nat, t: nat, end: nat)
    requires Basic(c) && Safe(c) && CanAccept(c, v, t, end) && Fresh(c, v, t, end)
    ensures Safe(Accept(c, v, t, end))
  {
    hide LogsOk, LeadersOk, BallotsOk, AcksOk, Choosable, Covers, OfferOk, KeepsAcked;
    var c' := Accept(c, v, t, end);
    AckMovesOn(c, c', t, v, Max(Acked(c, t, v), end));
    SafeFrame(c, c');
    AcceptKeeps(c, v, t, end);
  }

  lemma SelfAckKeeps(c: Core, t: nat)
    requires Basic(c) && Safe(c) && CanSelfAck(c, t)
    ensures var c' := SelfAck(c, t); KeepsAcked(c', c.leader[t], c.logs[c.leader[t]])
  {
    hide LogsOk, BallotsOk, OffersOk, LeaderComplete;
    var c', v := SelfAck(c, t), c.leader[t];
    assert LeaderOk(c, t);
    AckMovesOn(c, c', t, v, |c.leaderLog[t]| - 1);
    forall u: nat, i: nat | Choosable(c', u, i) && i <= Acked(c', u, v)
      ensures Covers(c'.leaderLog, c.logs[v], u, i)
    {
      if u != t {
        AckedBefore(c, c', v, u, i);
      }
    }
  }

  lemma SelfAckSafe(c: Core, t: nat)
    requires Basic(c) && Safe(c) && CanSelfAck(c, t)
    ensures Safe(SelfAck(c, t))
  {
    hide LogsOk, LeadersOk, BallotsOk, AcksOk, Choosable, Covers, OfferOk, KeepsAcked;
    var c' := SelfAck(c, t);
    AckMovesOn(c, c', t, c.leader[t], |c.leaderLog[t]| - 1);
    SafeFrame(c, c');
    SelfAckKeeps(c, t);
  }

  // ---- Consequences ----

  lemma CommittedChoosable(c: Core, t: nat, i: nat)
    requires Basic(c) && (t, i) in c.commits
    ensures Choosable(c, t, i)
  {
    hide LogsOk, LeadersOk, BallotsOk;
    assert May(c, c.commits[(t, i)], t, i);
  }

  /** Leader completeness. */
  lemma CommittedInLaterLeaders(c: Core, t: nat, i: nat, u: nat)
    requires Basic(c) && Safe(c) && (t, i) in c.commits && u in c.leader && t < u
    ensures t in c.leader && i < |c.leaderLog[t]| && i < |c.initLog[u]|
    ensures c.initLog[u][..i + 1] == c.leaderLog[t][..i + 1]
  {
    hide LogsOk, LeadersOk, BallotsOk;
    CommittedChoosable(c, t, i);
  }

  /** Two commit decisions agree on every index both include. */
  lemma CommitsAgree(c: Core, t: nat, i: nat, u: nat, j: nat, k: nat)
    requires Basic(c) && Safe(c) && (t, i) in c.commits && (u, j) in c.commits
    requires k <= i && k <= j
    ensures t in c.leaderLog && u in c.leaderLog && k < |c.leaderLog[t]| && k < |c.leaderLog[u]|
    ensures c.leaderLog[t][k] == c.leaderLog[u][k]
  {
    hide LogsOk, BallotsOk, LeaderOk, OffersOk, LogsKeep, LeaderComplete;
    assert CanCommit(c, t, i, c.commits[(t, i)]) && CanCommit(c, u, j, c.commits[(u, j)]);
    if t < u {
      CommittedChoosable(c, t, i);
      LaterLeaderCovers(c, u, t, i);
      assert c.leaderLog[t][..i + 1][k] == c.leaderLog[u][..i + 1][k];
    } else if u < t {
      CommittedChoosable(c, u, j);
      LaterLeaderCovers(c, t, u, j);
      assert c.leaderLog[t][..j + 1][k] == c.leaderLog[u][..j + 1][k];
    }
  }
}
