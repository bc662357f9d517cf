/** A peer's log with compaction: a snapshot index and the entries above it. */
module RaftLogs {
  import opened RaftTypes

  /** `full` is the log as if it had never been compacted. `Valid` says that compaction is invisible:
      sizes, terms from the snapshot index on and entries above it are those of `full`. */
  class RaftLog {
    var snapLastIdx: nat
    var snapLastTerm: nat
    var snapshot: string
    var tailLog: seq<Entry>
    ghost var full: Log

    ghost predicate Valid()
      reads this
    {
      && tailLog != []
      && snapLastIdx + |tailLog| == |full|
      && snapLastTerm == tailLog[0].term == full[snapLastIdx].term
      && tailLog[1..] == full[snapLastIdx + 1..]
    }

    /** The log of a snapshot and the entries above it; `covered` is what the snapshot stands for. */
    constructor (snapLastIdx: nat, snapLastTerm: nat, snapshot: string, entries: seq<Entry>, ghost covered: Log)
      requires |covered| == snapLastIdx + 1 && covered[snapLastIdx].term == snapLastTerm
      ensures Valid() && full == covered + entries
      ensures this.snapLastIdx == snapLastIdx && this.snapshot == snapshot
    {
      this.snapLastIdx, this.snapLastTerm, this.snapshot := snapLastIdx, snapLastTerm, snapshot;
      tailLog := [Entry(snapLastTerm, false, "")] + entries;
      full := covered + entries;
    }

    function Size(): (n: nat)
      requires Valid()
      reads this
      ensures n == |full|
    {
      snapLastIdx + |tailLog|
    }

    /** The position of a logical index in the tail; a caller outside the range panics. */
    function Idx(logicIdx: nat): (i: nat)
      requires Valid() && snapLastIdx <= logicIdx < Size()
      reads this
      ensures i < |tailLog| && tailLog[i].term == full[logicIdx].term
      ensures snapLastIdx < logicIdx ==> tailLog[i] == full[logicIdx]
    {
      var i := logicIdx - snapLastIdx;
      assert 0 < i ==> tailLog[1..][i - 1] == full[snapLastIdx + 1..][i - 1];
      i
    }

    function At(logicIdx: nat): (e: Entry)
      requires Valid() && snapLastIdx <= logicIdx < Size()
      reads this
      ensures e.term == full[logicIdx].term
      ensures snapLastIdx < logicIdx ==> e == full[logicIdx]
    {
      tailLog[Idx(logicIdx)]
    }

    function Last(): (r: (int, nat))
      requires Valid()
      reads this
      ensures r == (LastIndex(full), LastTerm(full))
    {
      var i := |tailLog| - 1;
      assert At(snapLastIdx + i).term == LastTerm(full);
      (snapLastIdx + i, tailLog[i].term)
    }

    method FirstFor(term: nat) returns (r: nat)
      requires Valid()
      ensures r == FirstForFrom(full, snapLastIdx, term)
    {
      var idx := 0;
      while idx < |tailLog|
        invariant 0 <= idx <= |tailLog|
        invariant FirstForFrom(full, snapLastIdx, term) == FirstForFrom(full, snapLastIdx + idx, term)
      {
        assert At(snapLastIdx + idx).term == full[snapLastIdx + idx].term;
        if tailLog[idx].term == term {
          return idx + snapLastIdx;
        } else if tailLog[idx].term > term {
          break;
        }
        idx := idx + 1;
      }
      return InvalidIndex;
    }

    function Tail(startIdx: nat): (r: seq<Entry>)
      requires Valid() && snapLastIdx <= startIdx
      reads this
      ensures |r| == if startIdx < |full| then |full| - startIdx else 0
      ensures snapLastIdx < startIdx < |full| ==> r == full[startIdx..]
      ensures startIdx == snapLastIdx ==> r[0].term == full[startIdx].term && r[1..] == full[startIdx + 1..]
    {
      if startIdx >= Size() then []
      else
        var i := Idx(startIdx);
        assert i > 0 ==> tailLog[i..] == tailLog[1..][i - 1..] == full[snapLastIdx + 1..][i - 1..];
        tailLog[i..]
    }

    /** The entries of a range above the snapshot. */
    method Range(start: nat, end: nat) returns (r: seq<Entry>)
      requires Valid() && snapLastIdx < start <= end < Size()
      ensures r == full[start..end + 1]
    {
      r := [];
      var i := start;
      while i <= end
        invariant start <= i <= end + 1 && r == full[start..i]
      {
        r := r + [At(i)];
        i := i + 1;
      }
    }

    method Append(e: Entry)
      requires Valid()
      modifies this
      ensures Valid() && full == old(full) + [e] && snapLastIdx == old(snapLastIdx)
    {
      tailLog := tailLog + [e];
      full := full + [e];
    }

    method AppendFrom(logicPrevIndex: nat, entries: seq<Entry>)
      requires Valid() && snapLastIdx <= logicPrevIndex < Size()
      modifies this
      ensures Valid() && full == old(full)[..logicPrevIndex + 1] + entries && snapLastIdx == old(snapLastIdx)
    {
      var i := Idx(logicPrevIndex);
      ghost var tail0, full0 := tailLog, full;
      tailLog := tailLog[..i + 1] + entries;
      full := full[..logicPrevIndex + 1] + entries;
      assert tailLog[1..] == tail0[1..][..i] + entries;
      assert full[snapLastIdx + 1..] == full0[snapLastIdx + 1..][..i] + entries;
    }

    /** Checkpoint up to `index`; a checkpoint at or below the current one changes nothing. */
    method DoSnapshot(index: nat, snapshot: string)
      requires Valid() && index < Size()
      modifies this
      ensures Valid() && full == old(full)
      ensures snapLastIdx == if index <= old(snapLastIdx) then old(snapLastIdx) else index
      ensures index <= old(snapLastIdx) ==> unchanged(this)
      ensures index > old(snapLastIdx) ==> this.snapshot == snapshot
    {
      if index <= snapLastIdx {
        return;
      }
      var i := Idx(index);
      assert tailLog[i + 1..] == tailLog[1..][i..] == full[snapLastIdx + 1..][i..];
      snapLastTerm := tailLog[i].term;
      tailLog := [Entry(snapLastTerm, false, "")] + tailLog[i + 1..];
      snapLastIdx := index;
      this.snapshot := snapshot;
    }
  }
}
