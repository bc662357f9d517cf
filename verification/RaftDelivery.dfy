/** Which deliveries of AppendEntries calls are harmless. An accepted call cuts the follower's log right
    after `prevIndex`, whatever the follower acknowledged before. */
module RaftDelivery {
  import opened RaftTypes
  import opened RaftNode
  import opened RaftProtocol
  import opened RaftCore
  import opened RaftInvariant
  import opened RaftSteps
  import opened RaftSafety
  import opened RaftTheorems

  /** The log has everything the call carried, where the call put it. */
  predicate Holds(log: Log, m: AppendArgs) {
    End(m) < |log| && log[m.prevIndex].term == m.prevTerm && log[m.prevIndex + 1..End(m) + 1] == m.entries
  }

  lemma LinkedAppends(c: Core, s: State, k: nat)
    requires Linked(c, s) && k < |s.sent|
    ensures AppendLinked(c, s.sent[k]) && forall r | r in s.appendReps :: AppendLinked(c, r.args)
  {
    hide NodesLinked, VotesLinked, AppendLinked;
  }

  /** In every run, an accepted call leaves the follower with all it acknowledged in that term if and only
      if none of the acknowledged calls ends after it. */
  lemma AcceptedCallKeeps(run: seq<State>, i: nat, k: nat)
    requires IsRun(run) && i < |run|
    requires Requested(run[i], ReceiveAppend(k)) && InBounds(run[i], ReceiveAppend(k))
    requires OnAppend(run[i].nodes[run[i].sent[k].to], run[i].sent[k]).1.success
    ensures var s, m := run[i], run[i].sent[k];
            (forall r | r in s.appendReps && Acknowledges(r, m) :: Holds(OnAppend(s.nodes[m.to], m).0.log, r.args))
            <==> CutsNothing(s, ReceiveAppend(k))
  {
    hide IsRun, Linked, Basic, Evolves, OnAppend, NodeLinked, AppendLinked, LogsOk, LogOk;
    var cores := RunRecords(run);
    var c, s, m := cores[i], run[i], run[i].sent[k];
    var nd := s.nodes[m.to];
    LinkedAppends(c, s, k);
    LinkedNode(c, s, m.to);
    AcceptedIsPrefix(c, m.to, nd, m);
    forall r | r in s.appendReps && Acknowledges(r, m)
      ensures Holds(OnAppend(nd, m).0.log, r.args) <==> End(r.args) <= End(m)
    {
      HeldByPrefix(c, m, r.args);
    }
  }

  lemma AcceptedIsPrefix(c: Core, v: nat, nd: Node, m: AppendArgs)
    requires Basic(c) && NodeLinked(c, v, nd) && AppendLinked(c, m) && nd.log != [] && nd.snap < |nd.log|
    requires OnAppend(nd, m).1.success
    ensures OnAppend(nd, m).0.log == c.leaderLog[m.term][..End(m) + 1]
  {
    hide Basic, NodeLinked, AppendLinked, LogsOk, LogOk, FirstForFrom;
    NodeInRange(c, v, nd);
    LogOfNode(c, v, nd);
    AcceptShape(nd, m);
    AcceptedLog(c, nd.log, c.terms[v], m);
  }

  /** A log cut at the end of one call holds another call of that term exactly when that one ends no later. */
  lemma HeldByPrefix(c: Core, m: AppendArgs, a: AppendArgs)
    requires AppendLinked(c, m) && AppendLinked(c, a) && a.term == m.term
    ensures Holds(c.leaderLog[m.term][..End(m) + 1], a) <==> End(a) <= End(m)
  {
    var l := c.leaderLog[m.term];
    if End(a) <= End(m) {
      assert l[..End(m) + 1][a.prevIndex + 1..End(a) + 1] == l[a.prevIndex + 1..End(a) + 1];
    }
  }

  // ---- Send order is enough ----

  /** Every answered call was made no later than the one handled last for that peer and term. */
  ghost predicate RepliesHandled(s: State) {
    forall r | r in s.appendReps :: exists j :: 0 <= j < |s.sent| && AnsweredAt(s, r, j)
  }

  ghost predicate AnsweredAt(s: State, r: AppendRep, j: nat)
    requires j < |s.sent|
  {
    s.sent[j] == r.args && (r.args.to, r.args.term) in s.handled && j <= s.handled[(r.args.to, r.args.term)]
  }

  lemma RepliesHandledStep(s: State, a: Action)
    requires RepliesHandled(s) && Requested(s, a) && InBounds(s, a) && InOrder(s, a)
    ensures RepliesHandled(Step(s, a))
  {
    hide InBounds, OnAppend, OnRequestVote, OnVoteReply, OnAppendReply, Replicate;
    var s' := Step(s, a);
    forall r | r in s'.appendReps ensures exists j :: 0 <= j < |s'.sent| && AnsweredAt(s', r, j) {
      if r in s.appendReps {
        var j: nat :| j < |s.sent| && AnsweredAt(s, r, j);
        assert AnsweredAt(s', r, j);
      } else {
        assert AnsweredAt(s', r, a.k);
      }
    }
  }

  lemma InOrderCutsNothing(c: Core, s: State, a: Action)
    requires Linked(c, s) && RepliesHandled(s) && Requested(s, a) && InBounds(s, a) && InOrder(s, a)
    ensures CutsNothing(s, a)
  {
    hide NodesLinked, VotesLinked, AppendLinked, AppendRepLinked, InBounds, OnAppend;
    if a.ReceiveAppend? {
      forall r | r in s.appendReps && Acknowledges(r, s.sent[a.k]) ensures End(r.args) <= End(s.sent[a.k]) {
        var j: nat :| j < |s.sent| && AnsweredAt(s, r, j);
      }
    }
  }

  lemma {:induction false} OrderedReplies(run: seq<State>)
    requires IsOrderedRun(run)
    ensures IsRun(run) && RepliesHandled(run[|run| - 1])
  {
    hide RepliesHandled, InBounds, Step;
    var n := |run| - 1;
    if n == 0 {
      NoReplies(run[0]);
    } else {
      OrderedReplies(run[..n]);
      assert run[..n][n - 1] == run[n - 1];
      forall i | 0 < i < |run| ensures Next(run[i - 1], run[i]) {
        assert NextInOrder(run[i - 1], run[i]);
      }
      var s := run[n - 1];
      assert NextInOrder(s, run[n]);
      var a :| Requested(s, a) && InBounds(s, a) && InOrder(s, a) && run[n] == Step(s, a);
      RepliesHandledStep(s, a);
    }
  }

  lemma NoReplies(s: State)
    requires s.appendReps == {}
    ensures RepliesHandled(s)
  {
  }

  /** A run whose followers handle each term's calls in the order they were made never cuts an
      acknowledged entry, so every result about such runs covers it. */
  lemma OrderedIsKeeping(run: seq<State>)
    requires IsOrderedRun(run)
    ensures IsKeepingRun(run)
  {
    hide IsRun, Linked, Basic, Evolves, RepliesHandled, InBounds, InOrder, CutsNothing, Step;
    OrderedReplies(run);
    var cores := RunRecords(run);
    forall i | 0 < i < |run| ensures NextKeeping(run[i - 1], run[i]) {
      OrderedReplies(run[..i]);
      var s := run[i - 1];
      assert s == run[..i][i - 1];
      assert NextInOrder(s, run[i]);
      var a :| Requested(s, a) && InBounds(s, a) && InOrder(s, a) && run[i] == Step(s, a);
      InOrderCutsNothing(cores[i - 1], s, a);
    }
  }
}
