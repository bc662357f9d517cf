/** The part of a Raft run its safety depends on: every peer's term and log, plus what the
    run has recorded so far (ballots, offered logs, elections, leaders' logs, acknowledgements
    and commit decisions). Each handler of a peer amounts to at most a few of the steps below. */
module RaftCore {
  import opened RaftTypes

  /** Pairs are keyed (term, peer), or (term, index) in `commits`. */
  datatype Core = Core(
    terms: seq<nat>,                     // each peer's current term
    logs: seq<Log>,                      // each peer's log
    ballots: map<(nat, nat), nat>,       // whom a peer voted for in a term
    candLog: map<(nat, nat), Log>,       // the log a candidate stood with
    leader: map<nat, nat>,               // who won a term
    electors: map<nat, set<nat>>,        // by whose votes
    initLog: map<nat, Log>,              // the winner's log when it won
    leaderLog: map<nat, Log>,            // the winner's log by now
    acked: map<(nat, nat), nat>,         // highest index of the term's leader a peer has held
    commits: map<(nat, nat), set<nat>>)  // indices committed by a term's leader, and the majority

  function AckedIn(acked: map<(nat, nat), nat>, t: nat, v: nat): nat {
    if (t, v) in acked then acked[(t, v)] else 0
  }

  function Acked(c: Core, t: nat, v: nat): nat {
    AckedIn(c.acked, t, v)
  }

  /** Every member of the majority `q` of `n` peers has held the term's log up to `i`. */
  ghost predicate HeldBy(acked: map<(nat, nat), nat>, n: nat, t: nat, i: nat, q: set<nat>) {
    IsQuorum(q, n) && forall w | w in q :: AckedIn(acked, t, w) >= i
  }

  function Max(a: nat, b: nat): nat {
    if a < b then b else a
  }

  // ---- Steps ----

  ghost predicate CanBump(c: Core, v: nat, t: nat) {
    v < |c.terms| && c.terms[v] < t
  }

  ghost function Bump(c: Core, v: nat, t: nat): Core
    requires CanBump(c, v, t)
  {
    c.(terms := c.terms[v := t])
  }

  ghost predicate CanStand(c: Core, v: nat) {
    v < |c.terms| == |c.logs|
  }

  ghost function Stand(c: Core, v: nat): Core
    requires CanStand(c, v)
  {
    var t := c.terms[v] + 1;
    c.(terms := c.terms[v := t],
       ballots := c.ballots[(t, v) := v],
       candLog := c.candLog[(t, v) := c.logs[v]])
  }

  ghost predicate CanVote(c: Core, v: nat, t: nat, d: nat) {
    && v < |c.terms| == |c.logs| && d < |c.terms| && v != d
    && c.terms[v] == t
    && (t, v) !in c.ballots
    && (t, d) in c.candLog
    && c.logs[v] != [] && c.candLog[(t, d)] != []
    && !MoreUpToDate(c.logs[v], LastIndex(c.candLog[(t, d)]), LastTerm(c.candLog[(t, d)]))
  }

  ghost function Vote(c: Core, v: nat, t: nat, d: nat): Core {
    c.(ballots := c.ballots[(t, v) := d])
  }

  ghost predicate CanElect(c: Core, v: nat, t: nat, q: set<nat>) {
    && v < |c.terms| == |c.logs|
    && c.terms[v] == t && t !in c.leader
    && (t, v) in c.candLog && c.candLog[(t, v)] == c.logs[v]
    && IsQuorum(q, |c.terms|)
    && forall w | w in q :: (t, w) in c.ballots && c.ballots[(t, w)] == v
  }

  ghost function Elect(c: Core, v: nat, t: nat, q: set<nat>): Core
    requires CanElect(c, v, t, q)
  {
    c.(leader := c.leader[t := v],
       electors := c.electors[t := q],
       initLog := c.initLog[t := c.logs[v]],
       leaderLog := c.leaderLog[t := c.logs[v]])
  }

  ghost predicate CanAppend(c: Core, t: nat) {
    && t in c.leader && t in c.leaderLog
    && c.leader[t] < |c.terms| == |c.logs|
    && c.terms[c.leader[t]] == t
  }

  ghost function Append(c: Core, t: nat, e: Entry): Core
    requires CanAppend(c, t)
  {
    var log := c.leaderLog[t] + [e];
    c.(leaderLog := c.leaderLog[t := log], logs := c.logs[c.leader[t] := log])
  }

  /** A follower's log becomes the leader's log up to `end`. */
  ghost predicate CanAccept(c: Core, v: nat, t: nat, end: nat) {
    && v < |c.terms| == |c.logs|
    && c.terms[v] == t
    && t in c.leader && t in c.leaderLog && t in c.initLog && c.leader[t] != v
    && |c.initLog[t]| <= end + 1 <= |c.leaderLog[t]|
  }

  ghost function Accept(c: Core, v: nat, t: nat, end: nat): Core
    requires CanAccept(c, v, t, end)
  {
    c.(logs := c.logs[v := c.leaderLog[t][..end + 1]],
       acked := c.acked[(t, v) := Max(Acked(c, t, v), end)])
  }

  /** What an accepted message must not do: stop short of an index already acknowledged. */
  predicate Fresh(c: Core, v: nat, t: nat, end: nat) {
    Acked(c, t, v) <= end
  }

  ghost predicate CanSelfAck(c: Core, t: nat) {
    && t in c.leader && t in c.leaderLog && c.leaderLog[t] != []
    && c.leader[t] < |c.terms| && c.terms[c.leader[t]] == t
  }

  ghost function SelfAck(c: Core, t: nat): Core
    requires CanSelfAck(c, t)
  {
    c.(acked := c.acked[(t, c.leader[t]) := |c.leaderLog[t]| - 1])
  }

  ghost predicate CanCommit(c: Core, t: nat, i: nat, q: set<nat>) {
    && t in c.leader && t in c.leaderLog
    && 0 < i < |c.leaderLog[t]| && c.leaderLog[t][i].term == t
    && HeldBy(c.acked, |c.terms|, t, i, q)
  }

  ghost function Commit(c: Core, t: nat, i: nat, q: set<nat>): Core {
    c.(commits := c.commits[(t, i) := q])
  }

  // ---- What every run keeps, in whatever order messages arrive ----

  /** Every entry of `log` beyond the dummy was created by the leader of its term, and `log`
      agrees with that leader's log up to it. */
  ghost predicate Rooted(leaderLog: map<nat, Log>, log: Log) {
    && log != [] && log[0] == Dummy
    && (forall k | 0 < k < |log| ::
          var t := log[k].term;
          t > 0 && t in leaderLog && k < |leaderLog[t]| && log[..k + 1] == leaderLog[t][..k + 1])
    && SortedTerms(log)
  }

  ghost predicate ShapeOk(c: Core) {
    && |c.logs| == |c.terms|
    && c.electors.Keys == c.leader.Keys
    && c.initLog.Keys == c.leader.Keys
    && c.leaderLog.Keys == c.leader.Keys
  }

  ghost predicate BallotsOk(c: Core) {
    && (forall t, v | (t, v) in c.ballots ::
          && v < |c.terms| && t <= c.terms[v]
          && (t, c.ballots[(t, v)]) in c.candLog)
    && (forall t, d | (t, d) in c.candLog ::
          && d < |c.terms| && 0 < t <= c.terms[d]
          && (t, d) in c.ballots && c.ballots[(t, d)] == d)
  }

  /** The winner of term `t` got a majority's ballots, started from the log it stood with, and
      has only added entries of its own term since. */
  ghost predicate LeaderOk(c: Core, t: nat)
    requires ShapeOk(c) && t in c.leader
  {
    && c.leader[t] < |c.terms| && 0 < t <= c.terms[c.leader[t]]
    && IsQuorum(c.electors[t], |c.terms|)
    && (forall w | w in c.electors[t] :: (t, w) in c.ballots && c.ballots[(t, w)] == c.leader[t])
    && (t, c.leader[t]) in c.candLog && c.initLog[t] == c.candLog[(t, c.leader[t])]
    && c.initLog[t] <= c.leaderLog[t]
    && (forall k | |c.initLog[t]| <= k < |c.leaderLog[t]| :: c.leaderLog[t][k].term == t)
    && (c.terms[c.leader[t]] == t ==> c.logs[c.leader[t]] == c.leaderLog[t])
  }

  ghost predicate LeadersOk(c: Core)
    requires ShapeOk(c)
  {
    forall t | t in c.leader :: LeaderOk(c, t)
  }

  ghost predicate LogOk(leaderLog: map<nat, Log>, log: Log, bound: int) {
    Rooted(leaderLog, log) && LastTerm(log) <= bound
  }

  ghost predicate LogsOk(c: Core)
    requires ShapeOk(c)
  {
    && (forall v | 0 <= v < |c.logs| :: LogOk(c.leaderLog, c.logs[v], c.terms[v]))
    && (forall k | k in c.candLog :: LogOk(c.leaderLog, c.candLog[k], k.0 - 1))
    && (forall t | t in c.leaderLog :: LogOk(c.leaderLog, c.leaderLog[t], t))
  }

  ghost predicate AcksOk(c: Core)
    requires ShapeOk(c)
  {
    && (forall t, v | (t, v) in c.acked ::
          v < |c.terms| && t in c.leader && t <= c.terms[v] && c.acked[(t, v)] < |c.leaderLog[t]|)
    && (forall t, i | (t, i) in c.commits :: CanCommit(c, t, i, c.commits[(t, i)]))
  }

  ghost predicate Basic(c: Core) {
    ShapeOk(c) && BallotsOk(c) && LeadersOk(c) && LogsOk(c) && AcksOk(c)
  }

  /** Logs of leaders only grow. */
  ghost predicate Grows(m: map<nat, Log>, m': map<nat, Log>) {
    forall t | t in m :: t in m' && m[t] <= m'[t]
  }

  lemma RootedGrows(m: map<nat, Log>, m': map<nat, Log>, log: Log)
    requires Rooted(m, log) && Grows(m, m')
    ensures Rooted(m', log)
  {
    forall k | 0 < k < |log|
      ensures var t := log[k].term;
              t > 0 && t in m' && k < |m'[t]| && log[..k + 1] == m'[t][..k + 1]
    {
      var t := log[k].term;
      assert t in m && m[t] <= m'[t];
      assert m[t][..k + 1] == m'[t][..k + 1];
    }
  }

  /** Log matching: rooted logs that agree on the term at an index agree on everything up to it. */
  lemma RootedMatch(m: map<nat, Log>, a: Log, b: Log, k: nat)
    requires Rooted(m, a) && Rooted(m, b)
    requires k < |a| && k < |b| && a[k].term == b[k].term
    ensures a[..k + 1] == b[..k + 1]
  {
    if k == 0 {
      assert a[..1] == [a[0]] && b[..1] == [b[0]];
    }
  }

  lemma RootedPrefix(m: map<nat, Log>, log: Log, k: nat)
    requires Rooted(m, log) && k < |log|
    ensures Rooted(m, log[..k + 1])
    ensures LastTerm(log[..k + 1]) == log[k].term
  {
    var p := log[..k + 1];
    forall j | 0 < j < |p|
      ensures var t := p[j].term;
              t > 0 && t in m && j < |m[t]| && p[..j + 1] == m[t][..j + 1]
    {
      assert p[..j + 1] == log[..j + 1];
    }
  }

  /** Election safety: no term is won twice. */
  lemma OneWinner(c: Core, v: nat, t: nat, q: set<nat>)
    requires Basic(c) && t in c.leader
    requires IsQuorum(q, |c.terms|)
    requires forall w | w in q :: (t, w) in c.ballots && c.ballots[(t, w)] == v
    ensures c.leader[t] == v
  {
    var w := QuorumsMeet(q, c.electors[t], |c.terms|);
  }

  ghost predicate TermsGrow(a: seq<nat>, b: seq<nat>) {
    |a| == |b| && forall v | 0 <= v < |a| :: a[v] <= b[v]
  }

  /** Ballots and offered logs are only added to. */
  ghost predicate Adds<K, V>(m: map<K, V>, m': map<K, V>) {
    forall k | k in m :: k in m' && m'[k] == m[k]
  }

  lemma BallotsFrame(c: Core, c': Core)
    requires BallotsOk(c) && TermsGrow(c.terms, c'.terms)
    requires c'.ballots == c.ballots && c'.candLog == c.candLog
    ensures BallotsOk(c')
  {
  }

  lemma LeaderFrame(c: Core, c': Core, t: nat)
    requires ShapeOk(c) && ShapeOk(c') && TermsGrow(c.terms, c'.terms)
    requires t in c.leader && LeaderOk(c, t)
    requires Adds(c.ballots, c'.ballots) && Adds(c.candLog, c'.candLog)
    requires t in c'.leader && c'.leader[t] == c.leader[t] && c'.electors[t] == c.electors[t]
    requires c'.initLog[t] == c.initLog[t] && c'.leaderLog[t] == c.leaderLog[t]
    requires c.terms[c.leader[t]] == t ==> c'.logs[c.leader[t]] == c.logs[c.leader[t]]
    ensures LeaderOk(c', t)
  {
    hide IsQuorum;
  }

  lemma LeadersFrame(c: Core, c': Core)
    requires ShapeOk(c) && ShapeOk(c') && LeadersOk(c) && TermsGrow(c.terms, c'.terms)
    requires Adds(c.ballots, c'.ballots) && Adds(c.candLog, c'.candLog)
    requires c'.leader == c.leader && c'.electors == c.electors && c'.initLog == c.initLog
    requires c'.leaderLog == c.leaderLog
    requires forall v | 0 <= v < |c.logs| ::
               c'.logs[v] == c.logs[v] || (c.terms[v] in c.leader ==> c.leader[c.terms[v]] != v)
    ensures LeadersOk(c')
  {
    forall t | t in c'.leader ensures LeaderOk(c', t) {
      LeaderFrame(c, c', t);
    }
  }

  lemma LogGrows(m: map<nat, Log>, m': map<nat, Log>, log: Log, bound: int, bound': int)
    requires LogOk(m, log, bound) && Grows(m, m') && bound <= bound'
    ensures LogOk(m', log, bound')
  {
    RootedGrows(m, m', log);
  }

  /** Logs that are kept stay rooted while terms and leaders' logs grow. */
  lemma LogsFrame(c: Core, c': Core)
    requires ShapeOk(c) && LogsOk(c) && TermsGrow(c.terms, c'.terms) && Grows(c.leaderLog, c'.leaderLog)
    ensures forall v | 0 <= v < |c.logs| :: LogOk(c'.leaderLog, c.logs[v], c'.terms[v])
    ensures forall k | k in c.candLog :: LogOk(c'.leaderLog, c.candLog[k], k.0 - 1)
    ensures forall t | t in c.leaderLog :: LogOk(c'.leaderLog, c.leaderLog[t], t)
  {
    hide LogOk, Grows;
    forall v | 0 <= v < |c.logs| ensures LogOk(c'.leaderLog, c.logs[v], c'.terms[v]) {
      LogGrows(c.leaderLog, c'.leaderLog, c.logs[v], c.terms[v], c'.terms[v]);
    }
    forall k | k in c.candLog ensures LogOk(c'.leaderLog, c.candLog[k], k.0 - 1) {
      LogGrows(c.leaderLog, c'.leaderLog, c.candLog[k], k.0 - 1, k.0 - 1);
    }
    forall t | t in c.leaderLog ensures LogOk(c'.leaderLog, c.leaderLog[t], t) {
      LogGrows(c.leaderLog, c'.leaderLog, c.leaderLog[t], t, t);
    }
  }

  lemma AcksFrame(c: Core, c': Core)
    requires ShapeOk(c) && ShapeOk(c') && AcksOk(c) && TermsGrow(c.terms, c'.terms)
    requires c'.acked == c.acked && c'.commits == c.commits
    requires Adds(c.leader, c'.leader) && Grows(c.leaderLog, c'.leaderLog)
    ensures AcksOk(c')
  {
    hide HeldBy, AckedIn;
  }

  lemma BumpBasic(c: Core, v: nat, t: nat)
    requires Basic(c) && CanBump(c, v, t)
    ensures Basic(Bump(c, v, t))
  {
    hide BallotsOk, LeadersOk, LogOk, AcksOk;
    var c' := Bump(c, v, t);
    BallotsFrame(c, c');
    LeadersFrame(c, c');
    LogsFrame(c, c');
    AcksFrame(c, c');
  }

  lemma StandBasic(c: Core, v: nat)
    requires Basic(c) && CanStand(c, v)
    ensures Basic(Stand(c, v))
  {
    hide LeadersOk, AcksOk, LogOk;
    var c' := Stand(c, v);
    assert BallotsOk(c');
    LeadersFrame(c, c');
    LogsFrame(c, c');
    AcksFrame(c, c');
  }

  lemma VoteBasic(c: Core, v: nat, t: nat, d: nat)
    requires Basic(c) && CanVote(c, v, t, d)
    ensures Basic(Vote(c, v, t, d))
  {
    hide LeadersOk, LogOk, AcksOk;
    var c' := Vote(c, v, t, d);
    assert BallotsOk(c');
    LeadersFrame(c, c');
    LogsFrame(c, c');
    AcksFrame(c, c');
  }

  lemma ElectLeader(c: Core, v: nat, t: nat, q: set<nat>)
    requires Basic(c) && CanElect(c, v, t, q)
    ensures ShapeOk(Elect(c, v, t, q)) && LeaderOk(Elect(c, v, t, q), t)
    ensures Grows(c.leaderLog, Elect(c, v, t, q).leaderLog)
  {
    hide LogsOk, AcksOk, LeadersOk, IsQuorum;
  }

  lemma ElectBasic(c: Core, v: nat, t: nat, q: set<nat>)
    requires Basic(c) && CanElect(c, v, t, q)
    ensures Basic(Elect(c, v, t, q))
  {
    hide BallotsOk, LogOk, LeaderOk, AcksOk, HeldBy, IsQuorum, Grows;
    var c' := Elect(c, v, t, q);
    ElectLeader(c, v, t, q);
    BallotsFrame(c, c');
    AcksFrame(c, c');
    LogsFrame(c, c');
    forall u | u in c'.leader ensures LeaderOk(c', u) {
      if u != t {
        LeaderFrame(c, c', u);
      }
    }
  }

  lemma RootedExtend(m: map<nat, Log>, log: Log, e: Entry)
    requires LogOk(m, log, e.term)
    requires 0 < e.term && e.term in m && m[e.term] == log + [e]
    ensures LogOk(m, log + [e], e.term)
  {
    var a := log + [e];
    forall k | 0 < k < |a|
      ensures var t := a[k].term;
              t > 0 && t in m && k < |m[t]| && a[..k + 1] == m[t][..k + 1]
    {
      if k < |log| {
        assert a[..k + 1] == log[..k + 1];
      }
    }
  }

  lemma AppendLeader(c: Core, t: nat, e: Entry)
    requires Basic(c) && CanAppend(c, t) && e.term == t
    ensures ShapeOk(Append(c, t, e)) && LeaderOk(Append(c, t, e), t)
    ensures 0 < t && Grows(c.leaderLog, Append(c, t, e).leaderLog)
  {
    hide BallotsOk, LogsOk, AcksOk, IsQuorum;
    assert LeaderOk(c, t);
    hide LeadersOk;
  }

  lemma AppendBasic(c: Core, t: nat, e: Entry)
    requires Basic(c) && CanAppend(c, t) && e.term == t
    ensures Basic(Append(c, t, e))
  {
    hide BallotsOk, LogOk, LeaderOk, AcksOk, HeldBy, IsQuorum, Grows;
    var c' := Append(c, t, e);
    AppendLeader(c, t, e);
    BallotsFrame(c, c');
    AcksFrame(c, c');
    LogsFrame(c, c');
    RootedExtend(c'.leaderLog, c.leaderLog[t], e);
    forall u | u in c'.leader ensures LeaderOk(c', u) {
      if u != t {
        AppendOther(c, t, e, u);
      }
    }
  }

  lemma AppendOther(c: Core, t: nat, e: Entry, u: nat)
    requires Basic(c) && CanAppend(c, t) && u in c.leader && u != t
    ensures var c' := Append(c, t, e); ShapeOk(c') && LeaderOk(c', u)
  {
    hide LogsOk, AcksOk;
    assert LeaderOk(c, u);
    hide LeadersOk, LeaderOk, BallotsOk;
    LeaderFrame(c, Append(c, t, e), u);
  }

  lemma LogPrefix(m: map<nat, Log>, log: Log, bound: int, k: nat)
    requires LogOk(m, log, bound) && k < |log|
    ensures LogOk(m, log[..k + 1], bound)
  {
    RootedPrefix(m, log, k);
  }

  lemma AcceptBasic(c: Core, v: nat, t: nat, end: nat)
    requires Basic(c) && CanAccept(c, v, t, end)
    ensures Basic(Accept(c, v, t, end))
  {
    hide LogOk, LeadersOk, BallotsOk, AcksOk;
    var c' := Accept(c, v, t, end);
    LogPrefix(c.leaderLog, c.leaderLog[t], t, end);
    LogsFrame(c, c');
    BallotsFrame(c, c');
    LeadersFrame(c, c');
    assert Acked(c, t, v) < |c.leaderLog[t]| by { AckBound(c, t, v); }
    AckBasic(c, c', t, v, Max(Acked(c, t, v), end));
  }

  lemma AckBound(c: Core, t: nat, v: nat)
    requires Basic(c) && t in c.leader
    ensures Acked(c, t, v) < |c.leaderLog[t]|
  {
    assert LogOk(c.leaderLog, c.leaderLog[t], t);
  }

  /** Raising one acknowledgement keeps every commit decision supported. */
  lemma AckBasic(c: Core, c': Core, t: nat, v: nat, k: nat)
    requires ShapeOk(c) && ShapeOk(c') && AcksOk(c) && c'.terms == c.terms
    requires c'.acked == c.acked[(t, v) := k] && c'.commits == c.commits
    requires c'.leader == c.leader && c'.leaderLog == c.leaderLog
    requires v < |c.terms| && t in c.leader && t <= c.terms[v] && Acked(c, t, v) <= k < |c.leaderLog[t]|
    ensures AcksOk(c')
  {
    forall u, i | (u, i) in c'.commits
      ensures CanCommit(c', u, i, c'.commits[(u, i)])
    {
      assert CanCommit(c, u, i, c.commits[(u, i)]);
    }
  }

  lemma SelfAckBasic(c: Core, t: nat)
    requires Basic(c) && CanSelfAck(c, t)
    ensures Basic(SelfAck(c, t))
  {
    hide LogOk, LeadersOk, BallotsOk;
    var c' := SelfAck(c, t);
    BallotsFrame(c, c');
    LeadersFrame(c, c');
    LogsFrame(c, c');
    AckBasic(c, c', t, c.leader[t], |c.leaderLog[t]| - 1);
  }

  lemma CommitBasic(c: Core, t: nat, i: nat, q: set<nat>)
    requires Basic(c) && CanCommit(c, t, i, q)
    ensures Basic(Commit(c, t, i, q))
  {
    hide LogOk, LeadersOk, BallotsOk, HeldBy;
    var c' := Commit(c, t, i, q);
    BallotsFrame(c, c');
    LeadersFrame(c, c');
    LogsFrame(c, c');
    forall u, j | (u, j) in c'.commits
      ensures CanCommit(c', u, j, c'.commits[(u, j)])
    {
      if (u, j) != (t, i) {
        assert CanCommit(c, u, j, c.commits[(u, j)]);
      }
    }
  }
}
