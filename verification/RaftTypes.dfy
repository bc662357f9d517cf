/** Values shared by the Raft modules: log entries, RPC arguments and replies, and
    arithmetic about logs and majorities. */
module RaftTypes {

  /** The payload of a log entry; opaque to Raft. */
  type Command = string

  datatype Entry = Entry(term: nat, valid: bool, command: Command)

  /** A log as one uncompacted sequence; index 0 holds the dummy entry. */
  type Log = seq<Entry>

  const InvalidTerm: nat := 0
  const InvalidIndex: nat := 0

  /** The dummy entry every log starts with. */
  const Dummy: Entry := Entry(InvalidTerm, false, "")

  function LastIndex(log: Log): int {
    |log| - 1
  }

  function LastTerm(log: Log): nat
    requires log != []
  {
    log[|log| - 1].term
  }

  /** A voter whose log is `mine` refuses a candidate whose last entry is (index, term). */
  predicate MoreUpToDate(mine: Log, index: int, term: nat)
    requires mine != []
  {
    if LastTerm(mine) != term then LastTerm(mine) > term else LastIndex(mine) > index
  }

  /** First index at or above `from` holding an entry of `term`; the scan stops at a larger term. */
  function FirstForFrom(log: Log, from: nat, term: nat): nat
    decreases |log| - from
  {
    if from >= |log| then InvalidIndex
    else if log[from].term == term then from
    else if log[from].term > term then InvalidIndex
    else FirstForFrom(log, from + 1, term)
  }

  /** Terms never decrease along a log. */
  ghost predicate SortedTerms(log: Log) {
    forall i, j | 0 <= i <= j < |log| :: log[i].term <= log[j].term
  }

  /** On a sorted log the scan finds the smallest index at or above `from` with that term,
      and answers `InvalidIndex` exactly when there is none. */
  lemma {:induction false} FirstForFromSpec(log: Log, from: nat, term: nat)
    requires SortedTerms(log)
    ensures var r := FirstForFrom(log, from, term);
            if exists k :: from <= k < |log| && log[k].term == term
            then from <= r < |log| && log[r].term == term && forall k | from <= k < r :: log[k].term != term
            else r == InvalidIndex
    decreases |log| - from
  {
    if from < |log| && log[from].term < term {
      FirstForFromSpec(log, from + 1, term);
    }
  }

  // ---- Majorities ----

  /** The ids of a cluster of `n` peers. */
  function Peers(n: nat): (r: set<nat>)
    ensures forall p :: p in r <==> 0 <= p < n
    ensures |r| == n
  {
    if n == 0 then {} else Peers(n - 1) + {n - 1}
  }

  ghost predicate IsQuorum(q: set<nat>, n: nat) {
    (forall p | p in q :: p < n) && |q| > n / 2
  }

  lemma SubsetSize<T>(a: set<T>, b: set<T>)
    requires a <= b
    ensures |a| <= |b|
  {
    assert b == a + (b - a);
  }

  /** Two majorities of one cluster share a member. */
  lemma QuorumsMeet(q1: set<nat>, q2: set<nat>, n: nat) returns (v: nat)
    requires IsQuorum(q1, n) && IsQuorum(q2, n)
    ensures v in q1 && v in q2
  {
    if q1 * q2 == {} {
      assert |q1 + q2| == |q1| + |q2|;
      SubsetSize(q1 + q2, Peers(n));
      assert false;
    }
    v :| v in q1 * q2;
  }
}
