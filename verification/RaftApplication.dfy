/** What the peers deliver to their services. */
module RaftApplication {
  import opened RaftTypes
  import opened RaftNode
  import opened RaftProtocol
  import opened RaftTheorems

  /** The next delivery of the peer has `e` at index `k`. */
  ghost predicate Delivers(nd: Node, k: nat, e: Entry) {
    && nd.log != []
    && var from := if nd.applied < nd.snap then nd.snap else nd.applied;
       from < k <= from + |Pending(nd)| && e == Pending(nd)[k - from - 1]
  }

  /** A peer delivers the entries of its log from its applied index, or its snapshot if that is larger, up to the
      commit index, each at its own index, and then counts them as applied. */
  lemma DeliversCommitted(nd: Node, k: nat, e: Entry)
    requires nd.log != []
    ensures Delivers(nd, k, e) <==>
              nd.applied < k && nd.snap < k && k <= nd.commit && k < |nd.log| && e == nd.log[k]
    ensures Delivers(nd, k, e) ==> k <= ApplyEntries(nd).applied
    ensures nd.applied <= ApplyEntries(nd).applied && nd.snap <= ApplyEntries(nd).applied
    ensures ApplyEntries(nd) == nd.(applied := ApplyEntries(nd).applied)
  {
  }

  /** In every run whose accepted calls cut nothing acknowledged: entries that any two peers deliver at one index,
      at any two times, are equal. */
  lemma DeliveriesAgree(run: seq<State>, i: nat, j: nat, v: nat, w: nat, k: nat, e: Entry, e': Entry)
    requires IsKeepingRun(run) && i < |run| && j < |run| && v < |run[i].nodes| && w < |run[j].nodes|
    requires Delivers(run[i].nodes[v], k, e) && Delivers(run[j].nodes[w], k, e')
    ensures e == e'
  {
    hide IsKeepingRun, Delivers;
    assert run[i].nodes[v].log != [] && run[j].nodes[w].log != []
           by { HasLog(run[i].nodes[v], k, e); HasLog(run[j].nodes[w], k, e'); }
    DeliversCommitted(run[i].nodes[v], k, e);
    DeliversCommitted(run[j].nodes[w], k, e');
    StateMachineSafety(run, i, j, v, w, k);
  }

  lemma HasLog(nd: Node, k: nat, e: Entry)
    requires Delivers(nd, k, e)
    ensures nd.log != []
  {
  }

  /** Only a restart takes a peer's applied index back, so until then no index is delivered again. */
  lemma AppliedGrows(s: State, a: Action, v: nat)
    requires Requested(s, a) && InBounds(s, a) && v < |s.nodes| && !(a.Crash? && a.v == v)
    ensures s.nodes[v].applied <= Step(s, a).nodes[v].applied
  {
    hide Messages, MajorityIndex, FirstForFrom;
    if a.ApplyCommitted? {
      DeliversCommitted(s.nodes[a.v], 0, Dummy);
    }
  }
}
