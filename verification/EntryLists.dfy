/** The linked list built from a history, and what it keeps while operations are lifted out of it. */
module EntryLists {
  import opened Linearizability
  import opened LinkedEntries

  /** The calls and returns in `entries` are those of `h`, at their positions. */
  ghost predicate Represents<I, O>(entries: seq<Entry<I, O>>, h: History<I, O>) {
    && HistoryOk(h) && |entries| == 2 * |h.inputs|
    && (forall c: nat | c < |h.inputs| ::
          entries[h.calls[c]] == Call(c, h.inputs[c]) && entries[h.rets[c]] == Return(c, h.outputs[c]))
    && (forall k: nat | k < |entries| :: entries[k].id < |h.inputs| && k == Position(h, entries[k]))
  }

  ghost function Position<I, O>(h: History<I, O>, e: Entry<I, O>): nat
    requires e.id < |h.calls| == |h.rets|
  {
    if e.Call? then h.calls[e.id] else h.rets[e.id]
  }

  /** Where the node of a call or a return stands: one after its position, the head being 0. */
  ghost function CallAt<I, O>(h: History<I, O>, c: nat): nat
    requires c < |h.calls|
  {
    h.calls[c] + 1
  }

  ghost function ReturnAt<I, O>(h: History<I, O>, c: nat): nat
    requires c < |h.rets|
  {
    h.rets[c] + 1
  }

  function ValueOf<I, O>(e: Entry<I, O>): Value<I, O> {
    match e
    case Call(_, input) => In(input)
    case Return(_, output) => Out(output)
  }

  /** The node for entry `k`. */
  ghost predicate NodeOk<I, O>(all: seq<Node<I, O>>, entries: seq<Entry<I, O>>, h: History<I, O>, k: nat)
    requires Represents(entries, h) && |all| == |entries| + 1 && k < |entries|
  {
    && all[k + 1].id == entries[k].id && all[k + 1].value == ValueOf(entries[k])
    && all[k + 1].match_ == if entries[k].Call? then all[ReturnAt(h, entries[k].id)] else null
  }

  ghost predicate NodesOk<I, O>(all: seq<Node<I, O>>, entries: seq<Entry<I, O>>, h: History<I, O>) {
    && Represents(entries, h) && |all| == |entries| + 1 && Indexed(all)
    && forall k: nat | k < |entries| :: NodeOk(all, entries, h, k)
  }

  /** The head, and the nodes of the operations not in `ids`. */
  ghost function Alive<I, O>(entries: seq<Entry<I, O>>, ids: set<nat>): set<nat> {
    (set k: nat | k < |entries| && entries[k].id !in ids :: k + 1) + {0}
  }

  lemma AliveWithout<I, O>(entries: seq<Entry<I, O>>, h: History<I, O>, ids: set<nat>, c: nat)
    requires Represents(entries, h) && c < |h.inputs|
    ensures Alive(entries, ids + {c}) == Alive(entries, ids) - {CallAt(h, c)} - {ReturnAt(h, c)}
    ensures 0 < CallAt(h, c) < ReturnAt(h, c) <= |entries|
    ensures c !in ids ==> CallAt(h, c) in Alive(entries, ids) && ReturnAt(h, c) in Alive(entries, ids)
  {
    assert h.calls[c] < h.rets[c];
    forall k: nat | k < |entries|
      ensures entries[k].id !in ids + {c} <==> entries[k].id !in ids && k != h.calls[c] && k != h.rets[c]
    {
      assert k == Position(h, entries[k]);
    }
  }

  /** A lifted call and its return still point to the neighbours they had when they were lifted. */
  ghost predicate StillPoints<I, O>(nx: seq<nat>, pv: seq<int>, entries: seq<Entry<I, O>>, h: History<I, O>,
      ids: set<nat>, c: nat)
    requires Represents(entries, h) && c < |h.inputs| && |nx| == |pv| == |entries| + 1
  {
    var alive := Alive(entries, ids);
    && Kept(nx, pv, alive, CallAt(h, c))
    && Kept(nx, pv, alive - {CallAt(h, c)}, ReturnAt(h, c))
  }

  ghost predicate StackLinks<I, O>(nx: seq<nat>, pv: seq<int>, entries: seq<Entry<I, O>>, h: History<I, O>, p: seq<nat>)
    requires Represents(entries, h) && |nx| == |pv| == |entries| + 1 && InRange(p, |h.inputs|)
  {
    forall i | 0 <= i < |p| :: StillPoints(nx, pv, entries, h, Ids(p[..i]), p[i])
  }

  /** The list is the history without the operations of `p`, and can be restored in reverse order. */
  ghost predicate LinksOk<I, O>(nx: seq<nat>, pv: seq<int>, entries: seq<Entry<I, O>>, h: History<I, O>, p: seq<nat>) {
    && Represents(entries, h) && |nx| == |pv| == |entries| + 1 && InRange(p, |h.inputs|)
    && Linked(nx, pv, Alive(entries, Ids(p)))
    && StackLinks(nx, pv, entries, h, p)
  }

  // ---- Lifting an operation, and undoing it ----

  lemma StillSame<I, O>(nx: seq<nat>, pv: seq<int>, nx': seq<nat>, pv': seq<int>, entries: seq<Entry<I, O>>,
      h: History<I, O>, same: set<nat>, ids: set<nat>, c: nat)
    requires Represents(entries, h) && c < |h.inputs| && |nx| == |entries| + 1 && SameOutside(nx, pv, nx', pv', same)
    requires StillPoints(nx, pv, entries, h, ids, c) && CallAt(h, c) !in same && ReturnAt(h, c) !in same
    ensures StillPoints(nx', pv', entries, h, ids, c)
  {
    hide Kept, Represents, SameOutside, Alive;
    Bounds(entries, h, c);
    KeptSame(nx, pv, nx', pv', same, Alive(entries, ids), CallAt(h, c));
    KeptSame(nx, pv, nx', pv', same, Alive(entries, ids) - {CallAt(h, c)}, ReturnAt(h, c));
  }

  lemma Bounds<I, O>(entries: seq<Entry<I, O>>, h: History<I, O>, c: nat)
    requires Represents(entries, h) && c < |h.inputs|
    ensures c < |h.calls| == |h.rets| && 0 < CallAt(h, c) < ReturnAt(h, c) <= |entries|
  {
  }

  lemma NotAlive<I, O>(entries: seq<Entry<I, O>>, h: History<I, O>, ids: set<nat>, c: nat)
    requires Represents(entries, h) && c < |h.inputs| && c in ids
    ensures CallAt(h, c) !in Alive(entries, ids) && ReturnAt(h, c) !in Alive(entries, ids)
  {
  }

  /** Pointers that only changed inside the list keep every lifted operation restorable. */
  lemma StackLinksSame<I, O>(nx: seq<nat>, pv: seq<int>, nx': seq<nat>, pv': seq<int>, entries: seq<Entry<I, O>>,
      h: History<I, O>, p: seq<nat>, r: seq<nat>)
    requires Represents(entries, h) && |nx| == |pv| == |entries| + 1 && InRange(p, |h.inputs|)
    requires StackLinks(nx, pv, entries, h, p) && r <= p
    requires |nx'| == |pv'| == |nx| && SameOutside(nx, pv, nx', pv', Alive(entries, Ids(r)))
    ensures InRange(r, |h.inputs|) && StackLinks(nx', pv', entries, h, r)
  {
    hide Represents, SameOutside, Alive, StillPoints;
    assert forall i | 0 <= i < |r| :: r[i] == p[i];
    forall i | 0 <= i < |r| ensures StillPoints(nx', pv', entries, h, Ids(r[..i]), r[i]) {
      assert r[..i] == p[..i];
      NotAlive(entries, h, Ids(r), r[i]);
      StillSame(nx, pv, nx', pv', entries, h, Alive(entries, Ids(r)), Ids(r[..i]), r[i]);
    }
  }

  lemma LiftLinks<I, O>(nx: seq<nat>, pv: seq<int>, nx': seq<nat>, pv': seq<int>, entries: seq<Entry<I, O>>,
      h: History<I, O>, p: seq<nat>, c: nat)
    requires LinksOk(nx, pv, entries, h, p) && c < |h.inputs| && c !in Ids(p)
    requires LiftedPointers(nx, pv, nx', pv', Alive(entries, Ids(p)), CallAt(h, c), ReturnAt(h, c))
    ensures LinksOk(nx', pv', entries, h, p + [c])
  {
    hide Represents, SameOutside, Alive, StillPoints, Linked, Kept;
    AliveWithout(entries, h, Ids(p), c);
    IdsSnoc(p, c);
    StackLinksSame(nx, pv, nx', pv', entries, h, p, p);
    forall i | 0 <= i <= |p| ensures StillPoints(nx', pv', entries, h, Ids((p + [c])[..i]), (p + [c])[i]) {
      assert (p + [c])[..i] == p[..i];
      if i == |p| {
        assert p[..i] == p;
        StillAgain(nx', pv', entries, h, Ids(p), c);
      }
    }
  }

  lemma StillAgain<I, O>(nx: seq<nat>, pv: seq<int>, entries: seq<Entry<I, O>>, h: History<I, O>, ids: set<nat>, c: nat)
    requires Represents(entries, h) && c < |h.inputs| && |nx| == |pv| == |entries| + 1
    requires 0 < CallAt(h, c) < ReturnAt(h, c) <= |entries|
    requires Kept(nx, pv, Alive(entries, ids), CallAt(h, c))
    requires Kept(nx, pv, Alive(entries, ids) - {CallAt(h, c)}, ReturnAt(h, c))
    ensures StillPoints(nx, pv, entries, h, ids, c)
  {
  }

  lemma UnliftLinks<I, O>(nx: seq<nat>, pv: seq<int>, nx': seq<nat>, pv': seq<int>, entries: seq<Entry<I, O>>,
      h: History<I, O>, r: seq<nat>, c: nat)
    requires LinksOk(nx, pv, entries, h, r + [c])
    requires Linked(nx', pv', Alive(entries, Ids(r))) && SameOutside(nx, pv, nx', pv', Alive(entries, Ids(r)))
    ensures LinksOk(nx', pv', entries, h, r)
  {
    hide Represents, Alive, StillPoints, Linked, Kept, StackLinks;
    StackLinksSame(nx, pv, nx', pv', entries, h, r + [c], r);
  }

  // ---- Building the list ----

  /** `list` holds the nodes of the entries from `i` on, and among them the one of entry `k`. */
  ghost predicate BuiltAt<I, O>(list: seq<Node<I, O>>, entries: seq<Entry<I, O>>, h: History<I, O>, i: nat, k: nat)
    requires Represents(entries, h) && i <= k < |entries| && |list| == |entries| - i
  {
    && list[k - i].id == entries[k].id && list[k - i].value == ValueOf(entries[k])
    && list[k - i].match_ == if entries[k].Call? then NodeAt(list, h.rets[entries[k].id] - i) else null
  }

  ghost predicate Built<I, O>(list: seq<Node<I, O>>, entries: seq<Entry<I, O>>, h: History<I, O>, i: nat) {
    && Represents(entries, h) && i <= |entries| && |list| == |entries| - i
    && forall k | i <= k < |entries| :: BuiltAt(list, entries, h, i, k)
  }

  /** The table of returns seen so far. */
  ghost predicate Matched<I, O>(matching: map<nat, Node<I, O>>, list: seq<Node<I, O>>, entries: seq<Entry<I, O>>,
      h: History<I, O>, i: nat)
    requires Represents(entries, h) && i <= |entries| && |list| == |entries| - i
  {
    forall c: nat | c < |h.inputs| && h.rets[c] >= i :: c in matching && matching[c] == list[h.rets[c] - i]
  }

  lemma BuildStep<I, O>(list: seq<Node<I, O>>, entries: seq<Entry<I, O>>, h: History<I, O>, i: nat, n: Node<I, O>)
    requires Built(list, entries, h, i + 1) && n.id == entries[i].id && n.value == ValueOf(entries[i])
    requires n.match_ == if entries[i].Call? then NodeAt(list, h.rets[entries[i].id] - i - 1) else null
    ensures Built([n] + list, entries, h, i)
  {
    var list' := [n] + list;
    forall k | i <= k < |entries| ensures BuiltAt(list', entries, h, i, k) {
      assert k == Position(h, entries[k]);
      if k > i {
        assert BuiltAt(list, entries, h, i + 1, k);
        assert list'[k - i] == list[k - i - 1];
      }
    }
  }

  lemma MatchedCall<I, O>(matching: map<nat, Node<I, O>>, list: seq<Node<I, O>>, entries: seq<Entry<I, O>>,
      h: History<I, O>, i: nat, n: Node<I, O>)
    requires Represents(entries, h) && i < |entries| && |list| == |entries| - i - 1
             && Matched(matching, list, entries, h, i + 1)
    requires entries[i].Call?
    ensures Matched(matching, [n] + list, entries, h, i)
  {
    forall c: nat | c < |h.inputs| && h.rets[c] >= i ensures c in matching
      && matching[c] == ([n] + list)[h.rets[c] - i]
    {
      assert entries[h.rets[c]].Return?;
    }
  }

  lemma MatchedReturn<I, O>(matching: map<nat, Node<I, O>>, list: seq<Node<I, O>>, entries: seq<Entry<I, O>>,
      h: History<I, O>, i: nat, n: Node<I, O>)
    requires Represents(entries, h) && i < |entries| && |list| == |entries| - i - 1
             && Matched(matching, list, entries, h, i + 1)
    requires entries[i].Return?
    ensures Matched(matching[entries[i].id := n], [n] + list, entries, h, i)
  {
    assert i == Position(h, entries[i]);
  }

  /** One node per entry, in order, calls pointing to their returns. */
  method MakeLinkedEntries<I, O>(entries: seq<Entry<I, O>>, ghost h: History<I, O>)
    returns (root: Node?<I, O>, ghost list: seq<Node<I, O>>)
    requires Represents(entries, h)
    ensures Built(list, entries, h, 0) && Chain(list, 1) && root == NodeAt(list, 0)
    ensures forall k: nat | k < |list| :: fresh(list[k])
  {
    hide Represents, BuiltAt, Chain, Matched;
    root, list := null, [];
    var matching: map<nat, Node<I, O>> := map[];
    var i := |entries|;
    NoChain<I, O>(i + 1);
    assert Matched(matching, list, entries, h, i) by { MatchedNone(entries, h); }
    while i > 0
      invariant 0 <= i <= |entries| && Built(list, entries, h, i) && Chain(list, i + 1) && root == NodeAt(list, 0)
      invariant Matched(matching, list, entries, h, i)
      invariant forall k: nat | k < |list| :: fresh(list[k])
    {
      i := i - 1;
      var elem := entries[i];
      if elem.Return? {
        var entry := new Node(Out(elem.output), null, elem.id, i + 1);
        MatchedReturn(matching, list, entries, h, i, entry);
        matching := matching[elem.id := entry];
        BuildStep(list, entries, h, i, entry);
        Prepend(entry, root, list, i + 1);
        root, list := entry, [entry] + list;
      } else {
        MatchedHere(matching, list, entries, h, i);
        var entry := new Node(In(elem.input), matching[elem.id], elem.id, i + 1);
        MatchedCall(matching, list, entries, h, i, entry);
        BuildStep(list, entries, h, i, entry);
        Prepend(entry, root, list, i + 1);
        root, list := entry, [entry] + list;
      }
    }
  }

  lemma BuiltSize<I, O>(list: seq<Node<I, O>>, entries: seq<Entry<I, O>>, h: History<I, O>)
    requires Built(list, entries, h, 0)
    ensures |list| == |entries| == 2 * |h.inputs|
  {
  }

  lemma MatchedNone<I, O>(entries: seq<Entry<I, O>>, h: History<I, O>)
    requires Represents(entries, h)
    ensures Matched(map[], [], entries, h, |entries|)
  {
  }

  /** The return of a call has been seen when its call comes. */
  lemma MatchedHere<I, O>(matching: map<nat, Node<I, O>>, list: seq<Node<I, O>>, entries: seq<Entry<I, O>>,
      h: History<I, O>, i: nat)
    requires Represents(entries, h) && i < |entries| && |list| == |entries| - i - 1
             && Matched(matching, list, entries, h, i + 1)
    requires entries[i].Call?
    ensures entries[i].id in matching && entries[i].id < |h.rets|
    ensures matching[entries[i].id] == NodeAt(list, h.rets[entries[i].id] - i - 1)
  {
    assert i == Position(h, entries[i]);
  }

  // ---- The list during the search ----

  /** The nodes `all` form the list of the history without the operations of `p`. */
  ghost predicate ListOk<I, O>(all: seq<Node<I, O>>, nx: seq<nat>, pv: seq<int>, entries: seq<Entry<I, O>>,
      h: History<I, O>, p: seq<nat>)
    reads all
  {
    NodesOk(all, entries, h) && Pointers(all, nx, pv) && LinksOk(nx, pv, entries, h, p)
  }

  lemma FullyLinked<I, O>(nx: seq<nat>, pv: seq<int>, entries: seq<Entry<I, O>>)
    requires |nx| == |pv| == |entries| + 1 && forall k: nat | k < |nx| :: nx[k] == k + 1 && pv[k] == k - 1
    ensures Linked(nx, pv, Alive(entries, {}))
  {
    var alive := Alive(entries, {});
    assert forall k: nat | k <= |entries| :: k in alive by {
      forall k: nat | k <= |entries| ensures k in alive {
        if k > 0 {
          assert entries[k - 1].id !in {};
        }
      }
    }
    assert forall k | k in alive :: k <= |entries|;
  }

  lemma StartLinks<I, O>(nx: seq<nat>, pv: seq<int>, entries: seq<Entry<I, O>>, h: History<I, O>)
    requires Represents(entries, h)
    requires |nx| == |pv| == |entries| + 1 && forall k: nat | k < |nx| :: nx[k] == k + 1 && pv[k] == k - 1
    ensures LinksOk(nx, pv, entries, h, [])
  {
    hide Represents, Alive, Linked, StillPoints;
    assert Ids([]) == {};
    FullyLinked(nx, pv, entries);
  }

  lemma StartNodes<I, O>(head: Node<I, O>, list: seq<Node<I, O>>, entries: seq<Entry<I, O>>, h: History<I, O>)
    requires Built(list, entries, h, 0) && Chain([head] + list, 0)
    ensures NodesOk([head] + list, entries, h)
  {
    hide Represents, Position;
    var all := [head] + list;
    forall i | 0 <= i < |all| ensures all[i].index == i {
      assert ChainAt(all, 0, i);
    }
    forall k: nat | k < |entries| ensures NodeOk(all, entries, h, k) {
      assert BuiltAt(list, entries, h, 0, k);
      InBounds(entries, h, k);
    }
  }

  lemma InBounds<I, O>(entries: seq<Entry<I, O>>, h: History<I, O>, k: nat)
    requires Represents(entries, h) && k < |entries|
    ensures entries[k].id < |h.calls| == |h.rets| && h.rets[entries[k].id] < |entries|
  {
  }

  lemma StartPointers<I, O>(all: seq<Node<I, O>>, nx: seq<nat>, pv: seq<int>)
    requires Chain(all, 0) && |nx| == |pv| == |all| && forall k: nat | k < |nx| :: nx[k] == k + 1 && pv[k] == k - 1
    ensures Pointers(all, nx, pv)
  {
    forall i | 0 <= i < |all| ensures all[i].index == i && PointsTo(all, i, nx[i], pv[i]) {
      assert ChainAt(all, 0, i);
    }
  }

  /** A node in the list points to the next index in the list. */
  lemma NextInList<I, O>(all: seq<Node<I, O>>, nx: seq<nat>, pv: seq<int>, entries: seq<Entry<I, O>>, h: History<I, O>,
      p: seq<nat>, e: nat)
    requires ListOk(all, nx, pv, entries, h, p) && e in Alive(entries, Ids(p))
    ensures e < |all| == |entries| + 1 && all[e].next == NodeAt(all, Up(Alive(entries, Ids(p)), e + 1, |all|))
  {
    hide Represents, Alive, Up, Down, StackLinks, NodeOk;
    assert Kept(nx, pv, Alive(entries, Ids(p)), e);
    assert PointsTo(all, e, nx[e], pv[e]);
  }

  /** What a node in the list stands for: an operation not in `p`. */
  lemma CallHere<I, O>(all: seq<Node<I, O>>, nx: seq<nat>, pv: seq<int>, entries: seq<Entry<I, O>>, h: History<I, O>,
      p: seq<nat>, e: nat)
    requires ListOk(all, nx, pv, entries, h, p) && e in Alive(entries, Ids(p)) && 0 < e < |all| && all[e].match_ != null
    ensures var c := all[e].id;
            && 0 <= c < |h.inputs| == |h.outputs| == |h.calls| == |h.rets| && c !in Ids(p)
            && e == CallAt(h, c) < ReturnAt(h, c) <= |entries| && all[e].match_ == all[ReturnAt(h, c)]
            && all[e].value == In(h.inputs[c]) && all[e].match_.value == Out(h.outputs[c])
            && ReturnAt(h, c) in Alive(entries, Ids(p)) && |all| == |entries| + 1
  {
    hide StackLinks, Linked, Pointers;
    assert NodeOk(all, entries, h, e - 1);
    var c := entries[e - 1].id;
    assert e - 1 == Position(h, entries[e - 1]);
    assert NodeOk(all, entries, h, h.rets[c]);
  }

  lemma ReturnHere<I, O>(all: seq<Node<I, O>>, nx: seq<nat>, pv: seq<int>, entries: seq<Entry<I, O>>, h: History<I, O>,
      p: seq<nat>, e: nat)
    requires ListOk(all, nx, pv, entries, h, p) && e in Alive(entries, Ids(p)) && 0 < e < |all| && all[e].match_ == null
    ensures var d := all[e].id; 0 <= d < |h.inputs| == |h.rets| && d !in Ids(p) && e == ReturnAt(h, d)
  {
    hide StackLinks, Linked, Pointers;
    assert NodeOk(all, entries, h, e - 1);
    assert e - 1 == Position(h, entries[e - 1]);
  }

  /** Between neighbours in the list, all operations are lifted. */
  lemma Gap<I, O>(entries: seq<Entry<I, O>>, h: History<I, O>, ids: set<nat>, e: nat, e': nat)
    requires Represents(entries, h) && 0 < e <= |entries| + 1 && e' == Up(Alive(entries, ids), e, |entries| + 1)
    ensures forall d: nat | d < |h.inputs| && d !in ids ::
              !(e - 1 <= h.calls[d] < e' - 1) && !(e - 1 <= h.rets[d] < e' - 1)
  {
    hide Up;
    forall d: nat | d < |h.inputs| && d !in ids ensures !(e - 1 <= h.calls[d] < e' - 1)
      && !(e - 1 <= h.rets[d] < e' - 1)
    {
      assert h.calls[d] + 1 in Alive(entries, ids) && h.rets[d] + 1 in Alive(entries, ids);
    }
  }

  /** An empty list: every operation has been lifted. */
  lemma NoneLeft<I, O>(entries: seq<Entry<I, O>>, h: History<I, O>, ids: set<nat>)
    requires Represents(entries, h) && Up(Alive(entries, ids), 1, |entries| + 1) == |entries| + 1
    ensures forall d: nat | d < |h.inputs| :: d in ids
  {
    hide Up;
    Gap(entries, h, ids, 1, |entries| + 1);
  }

  /** The call `c` is in the list: it and its return come out. */
  method LiftCall<I, O>(entry: Node<I, O>, ghost all: seq<Node<I, O>>, ghost nx: seq<nat>, ghost pv: seq<int>,
                        ghost entries: seq<Entry<I, O>>, ghost h: History<I, O>, ghost p: seq<nat>, ghost c: nat)
    returns (ghost nx': seq<nat>, ghost pv': seq<int>)
    requires ListOk(all, nx, pv, entries, h, p) && c < |h.inputs| && c !in Ids(p) && entry == all[CallAt(h, c)]
    modifies (set o | o in all)`next, (set o | o in all)`prev
    ensures ListOk(all, nx', pv', entries, h, p + [c])
  {
    hide Represents, Alive, Kept, LiftedPointers, StackLinks, NodeOk;
    AliveWithout(entries, h, Ids(p), c);
    CallNode(all, entries, h, c);
    nx', pv' := Lift(entry, all, nx, pv, Alive(entries, Ids(p)));
    LiftLinks(nx, pv, nx', pv', entries, h, p, c);
  }

  lemma CallNode<I, O>(all: seq<Node<I, O>>, entries: seq<Entry<I, O>>, h: History<I, O>, c: nat)
    requires NodesOk(all, entries, h) && c < |h.inputs|
    ensures CallAt(h, c) < ReturnAt(h, c) < |all| && IsPair(all[CallAt(h, c)], all)
    ensures all[CallAt(h, c)].match_ == all[ReturnAt(h, c)] && all[CallAt(h, c)].index == CallAt(h, c)
    ensures all[ReturnAt(h, c)].index == ReturnAt(h, c) && all[CallAt(h, c)].id == c
  {
    assert NodeOk(all, entries, h, h.calls[c]);
  }

  /** The operation lifted last goes back into the list. */
  method UnliftCall<I, O>(entry: Node<I, O>, ghost all: seq<Node<I, O>>, ghost nx: seq<nat>, ghost pv: seq<int>,
                          ghost entries: seq<Entry<I, O>>, ghost h: History<I, O>, ghost r: seq<nat>, ghost c: nat)
    returns (ghost nx': seq<nat>, ghost pv': seq<int>)
    requires ListOk(all, nx, pv, entries, h, r + [c]) && c < |h.inputs| && c !in Ids(r) && entry == all[CallAt(h, c)]
    modifies (set o | o in all)`next, (set o | o in all)`prev
    ensures ListOk(all, nx', pv', entries, h, r)
  {
    hide Represents, Alive, Kept, StackLinks, NodeOk;
    AliveWithout(entries, h, Ids(r), c);
    CallNode(all, entries, h, c);
    IdsSnoc(r, c);
    LastStillPoints(nx, pv, entries, h, r, c);
    nx', pv' := Unlift(entry, all, nx, pv, Alive(entries, Ids(r)));
    UnliftLinks(nx, pv, nx', pv', entries, h, r, c);
  }

  lemma LastStillPoints<I, O>(nx: seq<nat>, pv: seq<int>, entries: seq<Entry<I, O>>, h: History<I, O>, r: seq<nat>,
      c: nat)
    requires LinksOk(nx, pv, entries, h, r + [c]) && c < |h.inputs|
    ensures StillPoints(nx, pv, entries, h, Ids(r), c) && 0 in Alive(entries, Ids(r))
  {
    hide Represents, Kept;
    assert (r + [c])[..|r|] == r;
    assert StillPoints(nx, pv, entries, h, Ids((r + [c])[..|r|]), (r + [c])[|r|]);
  }
}
