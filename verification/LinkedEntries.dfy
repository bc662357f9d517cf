/** The doubly linked list of calls and returns that the checker edits in place. */
module LinkedEntries {

  datatype Entry<I, O> = Call(id: nat, input: I) | Return(id: nat, output: O)

  datatype Value<I, O> = Head | In(input: I) | Out(output: O)

  class Node<I, O> {
    const value: Value<I, O>
    const id: int
    const match_: Node?<I, O>    // the return of a call; null for a return
    ghost const index: nat       // where the node stands in the full list; 0 for the head
    var next: Node?<I, O>
    var prev: Node?<I, O>

    constructor (value: Value<I, O>, match_: Node?<I, O>, id: int, ghost index: nat)
      ensures this.value == value && this.match_ == match_ && this.id == id && this.index == index
      ensures next == null && prev == null
    {
      this.value, this.match_, this.id, this.index := value, match_, id, index;
      next, prev := null, null;
    }
  }

  // ---- Neighbours among the indices that are in the list ----

  /** The first index from `k` on that is in the list; `n` if there is none. */
  ghost function Up(alive: set<nat>, k: nat, n: nat): (r: nat)
    requires k <= n
    ensures k <= r <= n && (r < n ==> r in alive) && forall j | k <= j < r :: j !in alive
    decreases n - k
  {
    if k == n || k in alive then k else Up(alive, k + 1, n)
  }

  /** The last index up to `k` that is in the list; -1 if there is none. */
  ghost function Down(alive: set<nat>, k: int): (r: int)
    requires -1 <= k
    ensures -1 <= r <= k && (r >= 0 ==> r in alive) && forall j: nat | r < j <= k :: j !in alive
    decreases k + 1
  {
    if k == -1 || k in alive then k else Down(alive, k - 1)
  }

  /** All nodes of the full list, at their indices. */
  ghost predicate Indexed<I, O>(all: seq<Node<I, O>>) {
    forall i | 0 <= i < |all| :: all[i].index == i
  }

  ghost function NodeAt<I, O>(all: seq<Node<I, O>>, k: int): Node?<I, O> {
    if 0 <= k < |all| then all[k] else null
  }

  /** The pointers of node `i`, as indices: `nx` and `pv`. */
  ghost predicate PointsTo<I, O>(all: seq<Node<I, O>>, i: nat, nx: int, pv: int)
    requires i < |all|
    reads all[i]
  {
    all[i].next == NodeAt(all, nx) && all[i].prev == NodeAt(all, pv)
  }

  ghost predicate Pointers<I, O>(all: seq<Node<I, O>>, nx: seq<nat>, pv: seq<int>)
    reads all
  {
    && Indexed(all) && |nx| == |pv| == |all|
    && forall i | 0 <= i < |all| :: PointsTo(all, i, nx[i], pv[i])
  }

  /** Index `x` points to its neighbours among `alive`. */
  ghost predicate Kept(nx: seq<nat>, pv: seq<int>, alive: set<nat>, x: nat)
    requires x < |nx| == |pv|
  {
    nx[x] == Up(alive, x + 1, |nx|) && pv[x] == Down(alive, x - 1)
  }

  /** In the list of the indices `alive`, 0 being the head, each index points to its neighbours. */
  ghost predicate Linked(nx: seq<nat>, pv: seq<int>, alive: set<nat>) {
    && |nx| == |pv| && 0 in alive
    && forall i | i in alive :: i < |nx| && Kept(nx, pv, alive, i)
  }

  lemma {:induction false} UpUnique(alive: set<nat>, k: nat, n: nat, r: nat)
    requires k <= r <= n && (r < n ==> r in alive) && forall j | k <= j < r :: j !in alive
    ensures Up(alive, k, n) == r
    decreases n - k
  {
    if k < r {
      UpUnique(alive, k + 1, n, r);
    }
  }

  lemma {:induction false} DownUnique(alive: set<nat>, k: int, r: int)
    requires -1 <= r <= k && (r >= 0 ==> r in alive) && forall j: nat | r < j <= k :: j !in alive
    ensures Down(alive, k) == r
    decreases k
  {
    if r < k {
      DownUnique(alive, k - 1, r);
    }
  }

  lemma UpWithout(alive: set<nat>, x: nat, k: nat, n: nat)
    requires k <= n && x < n && x in alive
    ensures Up(alive - {x}, k, n) == if Up(alive, k, n) == x then Up(alive, x + 1, n) else Up(alive, k, n)
  {
    hide Up;
    UpUnique(alive - {x}, k, n, if Up(alive, k, n) == x then Up(alive, x + 1, n) else Up(alive, k, n));
  }

  lemma DownWithout(alive: set<nat>, x: nat, k: int)
    requires -1 <= k && x in alive
    ensures Down(alive - {x}, k) == if Down(alive, k) == x then Down(alive, x - 1) else Down(alive, k)
  {
    hide Down;
    DownUnique(alive - {x}, k, if Down(alive, k) == x then Down(alive, x - 1) else Down(alive, k));
  }

  /** An index's successor is `x` exactly when it is the predecessor of `x`. */
  lemma Neighbours(alive: set<nat>, i: nat, x: nat, n: nat)
    requires i < n && x < n && i in alive && x in alive
    ensures Up(alive, i + 1, n) == x <==> i == Down(alive, x - 1)
  {
    hide Up, Down;
    if i == Down(alive, x - 1) {
      UpUnique(alive, i + 1, n, x);
    }
    if Up(alive, i + 1, n) == x {
      DownUnique(alive, x - 1, i);
    }
  }

  /** Take a node out; its own pointers stay. */
  method Unlink<I, O>(node: Node<I, O>, ghost all: seq<Node<I, O>>, ghost nx: seq<nat>, ghost pv: seq<int>)
    returns (ghost nx': seq<nat>, ghost pv': seq<int>)
    requires Pointers(all, nx, pv) && node.index < |all| && all[node.index] == node
    requires 0 <= pv[node.index] < |all| && pv[node.index] != node.index
    modifies (set o | o in all)`next, (set o | o in all)`prev
    ensures Pointers(all, nx', pv')
    ensures nx' == UnlinkedNext(nx, pv, node.index) && pv' == UnlinkedPrev(nx, pv, node.index)
  {
    nx', pv' := UnlinkedNext(nx, pv, node.index), UnlinkedPrev(nx, pv, node.index);
    node.prev.next := node.next;
    if node.next != null {
      node.next.prev := node.prev;
    }
  }

  /** Put a node back where its own pointers say. */
  method Relink<I, O>(node: Node<I, O>, ghost all: seq<Node<I, O>>, ghost nx: seq<nat>, ghost pv: seq<int>)
    returns (ghost nx': seq<nat>, ghost pv': seq<int>)
    requires Pointers(all, nx, pv) && node.index < |all| && all[node.index] == node
    requires 0 <= pv[node.index] < |all| && pv[node.index] != node.index
    modifies (set o | o in all)`next, (set o | o in all)`prev
    ensures Pointers(all, nx', pv')
    ensures nx' == RelinkedNext(nx, pv, node.index) && pv' == RelinkedPrev(nx, pv, node.index)
  {
    nx', pv' := RelinkedNext(nx, pv, node.index), RelinkedPrev(nx, pv, node.index);
    node.prev.next := node;
    if node.next != null {
      node.next.prev := node;
    }
  }

  /** Pointers outside `alive` do not change. */
  ghost predicate SameOutside(nx: seq<nat>, pv: seq<int>, nx': seq<nat>, pv': seq<int>, alive: set<nat>) {
    && |nx| == |pv| == |nx'| == |pv'|
    && forall i: nat | i < |nx| && i !in alive :: nx'[i] == nx[i] && pv'[i] == pv[i]
  }

  ghost function UnlinkedNext(nx: seq<nat>, pv: seq<int>, x: nat): seq<nat>
    requires x < |nx| == |pv| && 0 <= pv[x] < |nx|
  {
    nx[pv[x] := nx[x]]
  }

  ghost function UnlinkedPrev(nx: seq<nat>, pv: seq<int>, x: nat): seq<int>
    requires x < |nx| == |pv|
  {
    if nx[x] < |nx| then pv[nx[x] := pv[x]] else pv
  }

  ghost function RelinkedNext(nx: seq<nat>, pv: seq<int>, x: nat): seq<nat>
    requires x < |nx| == |pv| && 0 <= pv[x] < |nx|
  {
    nx[pv[x] := x]
  }

  ghost function RelinkedPrev(nx: seq<nat>, pv: seq<int>, x: nat): seq<int>
    requires x < |nx| == |pv|
  {
    if nx[x] < |nx| then pv[nx[x] := x] else pv
  }

  lemma UnlinkKeeps(nx: seq<nat>, pv: seq<int>, alive: set<nat>, x: nat, i: nat)
    requires |nx| == |pv| && 0 < x < |nx| && i < |nx| && x in alive && i in alive && i != x
    requires 0 <= pv[x] < |nx| && Kept(nx, pv, alive, x) && Kept(nx, pv, alive, i)
    ensures Kept(UnlinkedNext(nx, pv, x), UnlinkedPrev(nx, pv, x), alive - {x}, i)
  {
    hide Up, Down;
    UpWithout(alive, x, i + 1, |nx|);
    DownWithout(alive, x, i - 1);
    Neighbours(alive, i, x, |nx|);
    Neighbours(alive, x, i, |nx|);
  }

  lemma UnlinkLinked(nx: seq<nat>, pv: seq<int>, alive: set<nat>, x: nat)
    requires Linked(nx, pv, alive) && 0 < x && x in alive && 0 <= pv[x] < |nx|
    ensures Linked(UnlinkedNext(nx, pv, x), UnlinkedPrev(nx, pv, x), alive - {x})
  {
    hide Kept;
    forall i | i in alive - {x} ensures Kept(UnlinkedNext(nx, pv, x), UnlinkedPrev(nx, pv, x), alive - {x}, i) {
      UnlinkKeeps(nx, pv, alive, x, i);
    }
  }

  lemma UnlinkSame(nx: seq<nat>, pv: seq<int>, alive: set<nat>, x: nat)
    requires |nx| == |pv| && 0 < x < |nx| && 0 <= pv[x] < |nx| && Kept(nx, pv, alive, x)
    ensures SameOutside(nx, pv, UnlinkedNext(nx, pv, x), UnlinkedPrev(nx, pv, x), alive - {x})
  {
    hide Up, Down;
  }

  lemma RelinkKeeps(nx: seq<nat>, pv: seq<int>, alive: set<nat>, x: nat, i: nat)
    requires |nx| == |pv| && 0 < x < |nx| && i < |nx| && x in alive && i in alive && i != x
    requires 0 <= pv[x] < |nx| && Kept(nx, pv, alive, x) && Kept(nx, pv, alive - {x}, i)
    ensures Kept(RelinkedNext(nx, pv, x), RelinkedPrev(nx, pv, x), alive, i)
  {
    hide Up, Down;
    UpWithout(alive, x, i + 1, |nx|);
    DownWithout(alive, x, i - 1);
    Neighbours(alive, i, x, |nx|);
    Neighbours(alive, x, i, |nx|);
  }

  lemma RelinkSelf(nx: seq<nat>, pv: seq<int>, alive: set<nat>, x: nat)
    requires |nx| == |pv| && 0 < x < |nx| && 0 <= pv[x] < |nx| && Kept(nx, pv, alive, x)
    ensures Kept(RelinkedNext(nx, pv, x), RelinkedPrev(nx, pv, x), alive, x)
  {
    hide Up, Down;
  }

  lemma RelinkLinked(nx: seq<nat>, pv: seq<int>, alive: set<nat>, x: nat)
    requires Linked(nx, pv, alive - {x}) && 0 < x < |nx| && x in alive && 0 <= pv[x] < |nx| && Kept(nx, pv, alive, x)
    ensures Linked(RelinkedNext(nx, pv, x), RelinkedPrev(nx, pv, x), alive)
  {
    hide Kept;
    forall i | i in alive ensures i < |nx| && Kept(RelinkedNext(nx, pv, x), RelinkedPrev(nx, pv, x), alive, i) {
      if i == x {
        RelinkSelf(nx, pv, alive, x);
      } else {
        assert i in alive - {x};
        RelinkKeeps(nx, pv, alive, x, i);
      }
    }
  }

  lemma RelinkSame(nx: seq<nat>, pv: seq<int>, alive: set<nat>, x: nat)
    requires |nx| == |pv| && 0 < x < |nx| && 0 <= pv[x] < |nx| && Kept(nx, pv, alive, x)
    ensures SameOutside(nx, pv, RelinkedNext(nx, pv, x), RelinkedPrev(nx, pv, x), alive - {x})
  {
    hide Up, Down;
  }

  // ---- A call with its return ----

  /** The pointers after taking out index `x`, then `y`. */
  ghost predicate LiftedPointers(nx: seq<nat>, pv: seq<int>, nx': seq<nat>, pv': seq<int>, alive: set<nat>, x: nat,
      y: nat)
  {
    && |nx| == |pv| == |nx'| == |pv'| && x < |nx| && y < |nx|
    && Linked(nx', pv', alive - {x} - {y})
    && Kept(nx', pv', alive, x) && Kept(nx', pv', alive - {x}, y)
    && SameOutside(nx, pv, nx', pv', alive)
  }

  lemma LiftPointers(nx: seq<nat>, pv: seq<int>, alive: set<nat>, x: nat, y: nat)
    requires Linked(nx, pv, alive) && 0 < x < y && x in alive && y in alive
    ensures 0 <= pv[x] < |nx| && pv[x] != x
    ensures var nx1, pv1 := UnlinkedNext(nx, pv, x), UnlinkedPrev(nx, pv, x);
            && 0 <= pv1[y] < |nx| && pv1[y] != y
            && LiftedPointers(nx, pv, UnlinkedNext(nx1, pv1, y), UnlinkedPrev(nx1, pv1, y), alive, x, y)
  {
    hide Kept, UnlinkedNext, UnlinkedPrev, Up, Down;
    RealPrev(nx, pv, alive, x);
    var nx1, pv1 := UnlinkedNext(nx, pv, x), UnlinkedPrev(nx, pv, x);
    UnlinkLinked(nx, pv, alive, x);
    UnlinkSame(nx, pv, alive, x);
    RealPrev(nx1, pv1, alive - {x}, y);
    var nx2, pv2 := UnlinkedNext(nx1, pv1, y), UnlinkedPrev(nx1, pv1, y);
    UnlinkLinked(nx1, pv1, alive - {x}, y);
    UnlinkSame(nx1, pv1, alive - {x}, y);
    KeptSame(nx, pv, nx1, pv1, alive - {x}, alive, x);
    KeptSame(nx1, pv1, nx2, pv2, alive - {x} - {y}, alive, x);
    KeptSame(nx1, pv1, nx2, pv2, alive - {x} - {y}, alive - {x}, y);
  }

  lemma RealPrev(nx: seq<nat>, pv: seq<int>, alive: set<nat>, x: nat)
    requires |nx| == |pv| && 0 in alive && 0 < x < |nx| && Kept(nx, pv, alive, x)
    ensures 0 <= pv[x] < x
  {
  }

  lemma KeptSame(nx: seq<nat>, pv: seq<int>, nx': seq<nat>, pv': seq<int>, same: set<nat>, alive: set<nat>, x: nat)
    requires SameOutside(nx, pv, nx', pv', same) && x < |nx| && x !in same && Kept(nx, pv, alive, x)
    ensures Kept(nx', pv', alive, x)
  {
  }

  /** Putting back `y`, then `x`, undoes it. */
  lemma UnliftPointers(nx: seq<nat>, pv: seq<int>, alive: set<nat>, x: nat, y: nat)
    requires |nx| == |pv| && 0 < x < y < |nx| && x in alive && y in alive && 0 in alive
    requires Linked(nx, pv, alive - {x} - {y}) && Kept(nx, pv, alive, x) && Kept(nx, pv, alive - {x}, y)
    ensures 0 <= pv[y] < |nx| && pv[y] != y
    ensures var nx1, pv1 := RelinkedNext(nx, pv, y), RelinkedPrev(nx, pv, y);
            && 0 <= pv1[x] < |nx| && pv1[x] != x
            && Linked(RelinkedNext(nx1, pv1, x), RelinkedPrev(nx1, pv1, x), alive)
            && SameOutside(nx, pv, RelinkedNext(nx1, pv1, x), RelinkedPrev(nx1, pv1, x), alive)
  {
    hide Kept, RelinkedNext, RelinkedPrev, Up, Down;
    RealPrev(nx, pv, alive - {x}, y);
    var nx1, pv1 := RelinkedNext(nx, pv, y), RelinkedPrev(nx, pv, y);
    RelinkLinked(nx, pv, alive - {x}, y);
    RelinkSame(nx, pv, alive - {x}, y);
    KeptSame(nx, pv, nx1, pv1, alive - {x} - {y}, alive, x);
    RealPrev(nx1, pv1, alive, x);
    RelinkLinked(nx1, pv1, alive, x);
    RelinkSame(nx1, pv1, alive, x);
  }

  /** A call in the list has a successor, since its return comes later. */
  lemma KeptNextIsReal(nx: seq<nat>, pv: seq<int>, alive: set<nat>, x: nat, y: nat)
    requires |nx| == |pv| && x < y < |nx| && y in alive && Kept(nx, pv, alive, x)
    ensures nx[x] <= y
  {
  }

  lemma NextIsReal(nx: seq<nat>, pv: seq<int>, alive: set<nat>, x: nat, y: nat)
    requires Linked(nx, pv, alive) && x in alive && y in alive && x < y
    ensures nx[x] <= y < |nx|
  {
    KeptNextIsReal(nx, pv, alive, x, y);
  }

  ghost predicate IsPair<I, O>(entry: Node<I, O>, all: seq<Node<I, O>>) {
    && entry.match_ != null && 0 < entry.index < entry.match_.index < |all|
    && all[entry.index] == entry && all[entry.match_.index] == entry.match_
  }

  /** Take a call and its return out of the list. */
  method Lift<I, O>(entry: Node<I, O>, ghost all: seq<Node<I, O>>, ghost nx: seq<nat>, ghost pv: seq<int>,
      ghost alive: set<nat>)
    returns (ghost nx': seq<nat>, ghost pv': seq<int>)
    requires IsPair(entry, all) && entry.index in alive && entry.match_.index in alive
    requires Pointers(all, nx, pv) && Linked(nx, pv, alive)
    modifies (set o | o in all)`next, (set o | o in all)`prev
    ensures Pointers(all, nx', pv')
    ensures LiftedPointers(nx, pv, nx', pv', alive, entry.index, entry.match_.index)
  {
    hide Kept, UnlinkedNext, UnlinkedPrev, Linked;
    LiftPointers(nx, pv, alive, entry.index, entry.match_.index);
    NextIsReal(nx, pv, alive, entry.index, entry.match_.index);
    assert PointsTo(all, entry.index, nx[entry.index], pv[entry.index]);
    assert entry.prev != null && entry.next != null;
    ghost var nx1, pv1 := Unlink(entry, all, nx, pv);
    nx', pv' := Unlink(entry.match_, all, nx1, pv1);
  }

  /** Put a call and its return back: the reverse of `Lift`. */
  method Unlift<I, O>(entry: Node<I, O>, ghost all: seq<Node<I, O>>, ghost nx: seq<nat>, ghost pv: seq<int>,
      ghost alive: set<nat>)
    returns (ghost nx': seq<nat>, ghost pv': seq<int>)
    requires IsPair(entry, all) && entry.index in alive && entry.match_.index in alive && 0 in alive
    requires Pointers(all, nx, pv) && Linked(nx, pv, alive - {entry.index} - {entry.match_.index})
    requires Kept(nx, pv, alive, entry.index) && Kept(nx, pv, alive - {entry.index}, entry.match_.index)
    modifies (set o | o in all)`next, (set o | o in all)`prev
    ensures Pointers(all, nx', pv') && Linked(nx', pv', alive) && SameOutside(nx, pv, nx', pv', alive)
  {
    hide Kept, RelinkedNext, RelinkedPrev, Linked;
    UnliftPointers(nx, pv, alive, entry.index, entry.match_.index);
    KeptNextIsReal(nx, pv, alive, entry.index, entry.match_.index);
    assert PointsTo(all, entry.index, nx[entry.index], pv[entry.index]);
    assert entry.next != null;
    ghost var nx1, pv1 := Relink(entry.match_, all, nx, pv);
    nx', pv' := Relink(entry, all, nx1, pv1);
  }

  // ---- Building the list ----

  /** Put `n` just before `mark`; a missing mark changes nothing. */
  method InsertBefore<I, O>(n: Node<I, O>, mark: Node?<I, O>) returns (r: Node<I, O>)
    requires mark != null ==> n != mark && mark.prev != n && mark.prev != mark
    modifies n`next, n`prev, (if mark == null then {} else {mark})`prev
    modifies (if mark == null || mark.prev == null then {} else {mark.prev})`next
    ensures r == n
    ensures mark == null ==> n.next == old(n.next) && n.prev == old(n.prev)
    ensures mark != null ==> mark.prev == n && n.next == mark
    ensures mark != null && old(mark.prev) == null ==> n.prev == old(n.prev)
    ensures mark != null && old(mark.prev) != null ==> n.prev == old(mark.prev) && n.prev.next == n
  {
    if mark != null {
      var beforeMark := mark.prev;
      mark.prev := n;
      n.next := mark;
      if beforeMark != null {
        n.prev := beforeMark;
        beforeMark.next := n;
      }
    }
    return n;
  }

  /** Node `k` of a list that starts at index `base`. */
  ghost predicate ChainAt<I, O>(list: seq<Node<I, O>>, base: nat, k: nat)
    requires k < |list|
    reads list[k]
  {
    list[k].index == base + k && list[k].next == NodeAt(list, k + 1) && list[k].prev == NodeAt(list, k - 1)
  }

  ghost predicate Chain<I, O>(list: seq<Node<I, O>>, base: nat)
    reads list
  {
    forall k: nat | k < |list| :: ChainAt(list, base, k)
  }

  lemma NoChain<I, O>(base: nat)
    ensures Chain<I, O>([], base)
  {
  }

  /** A new first node. */
  method Prepend<I, O>(n: Node<I, O>, root: Node?<I, O>, ghost list: seq<Node<I, O>>, ghost base: nat)
    requires Chain(list, base + 1) && root == NodeAt(list, 0) && n.index == base && n.next == null && n.prev == null
    modifies n`next, n`prev, (if root == null then {} else {root})`prev
    ensures Chain([n] + list, base) && n.next == root
  {
    ghost var list' := [n] + list;
    assert root != null ==> ChainAt(list, base + 1, 0);
    var _ := InsertBefore(n, root);
    forall k: nat | k < |list'| ensures ChainAt(list', base, k) {
      if k > 0 {
        assert old(ChainAt(list, base + 1, k - 1));
        assert list'[k] == list[k - 1];
      }
    }
  }

  /** The number of nodes from `n` on. */
  method Length<I, O>(n: Node?<I, O>, ghost list: seq<Node<I, O>>, ghost base: nat) returns (l: nat)
    requires Chain(list, base) && n == NodeAt(list, 0)
    ensures l == |list|
  {
    l := 0;
    var at := n;
    while at != null
      invariant l <= |list| && at == NodeAt(list, l)
      decreases |list| - l
    {
      assert ChainAt(list, base, l);
      at := at.next;
      l := l + 1;
    }
  }
}
