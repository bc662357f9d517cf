/** The shard controller: a history of configurations, extended by joins, leaves and moves. */
module ShardController {
  import opened Assignments
  import opened Collections
  import opened Levelling

  const NShards: nat := 10

  type Groups = map<int, seq<string>>

  datatype Config = Config(num: nat, shards: Owners, groups: Groups)

  function Unowned(): (r: Owners)
    ensures |r| == NShards && forall s | 0 <= s < NShards :: r[s] == 0
  {
    seq(NShards, _ => 0)
  }

  function DefaultConfig(): Config {
    Config(0, Unowned(), map[])
  }

  ghost predicate HasGroup(groups: Groups) {
    exists g :: g in groups
  }

  /** Without groups nobody owns anything; otherwise every shard has a group. */
  ghost predicate ConfigOk(c: Config) {
    && |c.shards| == NShards && 0 !in c.groups
    && forall s | 0 <= s < NShards :: if c.groups == map[] then c.shards[s] == 0 else c.shards[s] in c.groups
  }

  // ---- Walking over maps and sorting ids ----

  /** The ids in some order. */
  ghost function Enumerate(s: set<int>): (r: seq<int>)
    ensures Distinct(r) && forall g :: g in r <==> g in s
  {
    if s == {} then [] else
    NotEmpty(s);
    var g :| g in s;
    Enumerate(s - {g}) + [g]
  }

  ghost function Gids(groups: Groups): (r: seq<int>)
    ensures Distinct(r) && forall g :: g in r <==> g in groups
  {
    Enumerate(groups.Keys)
  }

  ghost predicate Ascending(s: seq<int>) {
    forall i, j | 0 <= i < j < |s| :: s[i] < s[j]
  }

  method InsertGid(s: seq<int>, x: int) returns (r: seq<int>)
    requires Ascending(s) && x !in s
    ensures Ascending(r) && forall g :: g in r <==> g in s || g == x
  {
    var k := |s|;
    while k > 0 && x < s[k - 1]
      invariant 0 <= k <= |s| && forall j | k <= j < |s| :: x < s[j]
    {
      k := k - 1;
    }
    r := s[..k] + [x] + s[k..];
    assert r[k] == x;
    assert forall j | 0 <= j < |s| :: s[j] == if j < k then r[j] else r[j + 1];
  }

  /** The keys of a map, in whatever order it is walked, then sorted. */
  method SortedGids(m: Lists) returns (gids: seq<int>)
    ensures Ascending(gids) && forall g :: g in gids <==> g in m
  {
    gids := [];
    var left := m.Keys;
    while left != {}
      invariant left <= m.Keys && Ascending(gids) && forall g :: g in gids <==> g in m.Keys - left
      decreases left
    {
      NotEmpty(left);
      var g :| g in left;
      gids := InsertGid(gids, g);
      left := left - {g};
    }
  }

  method GidWithMaxShards(m: Lists) returns (maxGid: int)
    requires exists g :: g in m
    ensures IsMax(m, maxGid)
  {
    if 0 in m && |m[0]| > 0 {
      return 0;
    }
    var gids := SortedGids(m);
    var maxShards := -1;
    maxGid := -1;
    var k := 0;
    while k < |gids|
      invariant 0 <= k <= |gids|
      invariant k == 0 ==> maxShards == -1
      invariant k > 0 ==> maxGid in gids[..k] && maxShards == |m[maxGid]|
      invariant forall j | 0 <= j < k :: |m[gids[j]]| < maxShards || (|m[gids[j]]| == maxShards && maxGid <= gids[j])
    {
      assert gids[k] in gids;
      if |m[gids[k]]| > maxShards {
        maxGid, maxShards := gids[k], |m[gids[k]]|;
      }
      k := k + 1;
    }
    assert gids[..k] == gids;
  }

  /** What the loop sees of the lists when there is no group: it takes -1 for one. */
  ghost function Padded(m: Lists): Lists {
    if exists g :: g in m && g != 0 then m else m[-1 := []]
  }

  lemma PaddedAt(m: Lists)
    ensures forall g | g in m :: g in Padded(m) && Padded(m)[g] == m[g]
    ensures Padded(m) != m ==> (forall g | g in m :: g == 0) && Padded(m) == m[-1 := []] && IsMin(Padded(m), -1)
    ensures (forall g | g in m :: g == 0) ==> Padded(m) == m[-1 := []] && IsMin(Padded(m), -1)
  {
    var p := m[-1 := []];
    if forall g | g in m :: g == 0 {
      assert forall h | h in p && h != 0 :: h == -1;
      assert IsMin(p, -1);
    }
  }

  method GidWithMinShards(m: Lists) returns (minGid: int)
    requires forall g | g in m :: |m[g]| <= NShards
    ensures IsMin(Padded(m), minGid) && (minGid in m || minGid == -1)
  {
    var gids := SortedGids(m);
    var minShards := NShards + 1;
    minGid := -1;
    var k := 0;
    while k < |gids|
      invariant 0 <= k <= |gids|
      invariant minShards == NShards + 1 ==> minGid == -1 && forall j | 0 <= j < k :: gids[j] == 0
      invariant minShards <= NShards ==> minGid in gids[..k] && minGid != 0 && minShards == |m[minGid]|
      invariant minShards <= NShards + 1
      invariant forall j | 0 <= j < k && gids[j] != 0 ::
                minShards < |m[gids[j]]| || (minShards == |m[gids[j]]| && minGid <= gids[j])
    {
      assert gids[k] in gids;
      if gids[k] != 0 && |m[gids[k]]| < minShards {
        minGid, minShards := gids[k], |m[gids[k]]|;
      }
      k := k + 1;
    }
    assert gids[..k] == gids;
    PaddedAt(m);
    if minShards == NShards + 1 {
      assert forall g | g in m :: g == 0;
    } else {
      RealKey(m, minGid);
    }
  }

  // ---- Lists and assignments ----

  /** The shards of one owner, in order, among the first `n`. */
  function Listing(own: Owners, g: int, n: nat): (r: seq<nat>)
    requires n <= |own|
    ensures forall i | 0 <= i < |r| :: r[i] < n && own[r[i]] == g
    ensures forall i, j | 0 <= i < j < |r| :: r[i] < r[j]
    ensures forall s: nat | s < n && own[s] == g :: s in r
  {
    if n == 0 then []
    else if own[n - 1] == g then Listing(own, g, n - 1) + [n - 1]
    else Listing(own, g, n - 1)
  }

  ghost predicate Owns(own: Owners, g: int, n: nat)
    requires n <= |own|
  {
    exists s | 0 <= s < n :: own[s] == g
  }

  /** The lists of the groups, and of whoever else owns a shard. */
  ghost predicate AreListings(m: Lists, gids: set<int>, own: Owners, n: nat)
    requires n <= |own|
  {
    forall g: int :: (g in m <==> g in gids || Owns(own, g, n)) && (g in m ==> m[g] == Listing(own, g, n))
  }

  lemma ListingsOk(m: Lists, gids: set<int>, own: Owners)
    requires AreListings(m, gids, own, |own|)
    ensures ListsOk(m, own)
  {
  }

  lemma {:induction false} ListingNone(own: Owners, g: int, n: nat)
    requires n <= |own| && !Owns(own, g, n)
    ensures Listing(own, g, n) == []
  {
    if n > 0 {
      assert own[n - 1] != g;
      assert forall s | 0 <= s < n - 1 :: own[s] != g;
      ListingNone(own, g, n - 1);
    }
  }

  lemma ListingStep(m: Lists, gids: set<int>, own: Owners, n: nat)
    requires n < |own| && AreListings(m, gids, own, n)
    ensures var g := own[n]; AreListings(m[g := (if g in m then m[g] else []) + [n]], gids, own, n + 1)
  {
    var k := own[n];
    if k !in m {
      ListingNone(own, k, n);
    }
    forall g: int ensures Owns(own, g, n + 1) <==> Owns(own, g, n) || g == k {
      if g == k {
        assert own[n] == g;
      } else if Owns(own, g, n) {
        var s :| 0 <= s < n && own[s] == g;
        assert 0 <= s < n + 1;
      }
    }
  }

  /** An empty list for each group, whatever the order the groups are walked in; then each shard to its owner. */
  method BuildLists(groups: Groups, shards: Owners) returns (m: Lists)
    ensures AreListings(m, groups.Keys, shards, |shards|)
  {
    hide Listing;
    m := map[];
    var left := groups.Keys;
    while left != {}
      invariant left <= groups.Keys && (forall g: int :: g in m <==> g in groups.Keys - left) && forall g | g in m ::
                m[g] == []
      decreases left
    {
      NotEmpty(left);
      var g :| g in left;
      m := m[g := []];
      left := left - {g};
    }
    assert AreListings(m, groups.Keys, shards, 0) by { ListingsStart(m, groups.Keys, shards); }
    var s := 0;
    while s < |shards|
      invariant 0 <= s <= |shards| && AreListings(m, groups.Keys, shards, s)
    {
      ListingStep(m, groups.Keys, shards, s);
      var gid := shards[s];
      m := m[gid := (if gid in m then m[gid] else []) + [s]];
      s := s + 1;
    }
  }

  lemma ListingsStart(m: Lists, gids: set<int>, own: Owners)
    requires (forall g: int :: g in m <==> g in gids) && forall g | g in m :: m[g] == []
    ensures AreListings(m, gids, own, 0)
  {
  }

  /** Store the lists back into an assignment; the order in which they are walked does not matter. */
  method StoreLists(m: Lists, ghost own: Owners) returns (shards: Owners)
    requires ListsOk(m, own) && |own| == NShards
    ensures shards == own
  {
    shards := Unowned();
    var left := m.Keys;
    while left != {}
      invariant left <= m.Keys && |shards| == NShards
      invariant forall s | 0 <= s < NShards && own[s] !in left :: shards[s] == own[s]
      decreases left
    {
      NotEmpty(left);
      var g :| g in left;
      assert ListOf(m[g], own, g);
      var k := 0;
      while k < |m[g]|
        invariant 0 <= k <= |m[g]| && |shards| == NShards
        invariant forall s | 0 <= s < NShards && own[s] !in left :: shards[s] == own[s]
        invariant forall j | 0 <= j < k :: shards[m[g][j]] == g
      {
        shards := shards[m[g][k] := g];
        k := k + 1;
      }
      forall s | 0 <= s < NShards && own[s] == g ensures shards[s] == g {
        assert s in m[g];
      }
      left := left - {g};
    }
  }

  /** The levelling loop: it ends, balanced, with one move for each shard that changed owner. */
  method LevelShards(m0: Lists, ghost a: Owners, ghost gs: seq<int>)
    returns (m: Lists, ghost own: Owners, ghost trace: seq<Lists>)
    requires ListsOk(Padded(m0), a) && KeysAre(Padded(m0), gs) && |a| == NShards
    ensures |own| == NShards && ListsOk(m, own) && Balanced(own, gs) && Fair(a, own, gs)
    ensures Rounds(trace) && trace[0] == Padded(m0) && trace[|trace| - 1] == m && Done(m)
            && |trace| - 1 == Changes(a, own)
  {
    hide Count, Unchanged, ListsOk, Fair, Balanced, Round, Done, Ends, KeysAre, Padded;
    m, own, trace := m0, a, [Padded(m0)];
    FairStart(a, gs);
    AllUnchanged(a);
    while true
      invariant |own| == NShards && ListsOk(Padded(m), own) && KeysAre(Padded(m), gs) && Fair(a, own, gs)
      invariant Rounds(trace) && trace[0] == Padded(m0) && trace[|trace| - 1] == Padded(m)
                && |trace| - 1 == Changes(a, own)
      decreases Unchanged(a, own)
    {
      ghost var p := Padded(m);
      ListsShort(m, own, gs);
      var maxGid := GidWithMaxShards(m);
      var minGid := GidWithMinShards(m);
      MaxOfPadded(m, own, maxGid);
      var least := if minGid in m then m[minGid] else [];
      LeastOfPadded(m, minGid);
      if maxGid != 0 && |m[maxGid]| - |least| <= 1 {
        assert p == m by { RealKey(m, maxGid); }
        BalancedEnd(m, own, gs, maxGid, minGid);
        assert Done(m) by { IsDone(m, maxGid, minGid); }
        return;
      }
      EndsOf(p, own, gs, maxGid, minGid);
      RoundStep(a, p, own, gs, maxGid, minGid);
      ghost var m' := MoveOne(p, maxGid, minGid);
      own, trace := own[p[maxGid][0] := minGid], trace + [m'];
      assert m[minGid := least + [m[maxGid][0]]] == p[minGid := p[minGid] + [p[maxGid][0]]]
             by { PadUpdate(m, minGid, least + [m[maxGid][0]]); }
      m := m[minGid := least + [m[maxGid][0]]];
      m := m[maxGid := m[maxGid][1..]];
      assert m == m';
      assert Padded(m) == m by { RealKey(m, minGid); }
    }
  }

  lemma {:induction false} AllUnchanged(a: Owners)
    ensures Unchanged(a, a) == |a|
  {
    if a != [] {
      AllUnchanged(a[..|a| - 1]);
    }
  }

  lemma IsDone(m: Lists, x: int, y: int)
    requires IsMax(m, x) && IsMin(m, y) && Level(m, x, y)
    ensures Done(m)
  {
  }

  lemma ListsShort(m: Lists, own: Owners, gs: seq<int>)
    requires ListsOk(Padded(m), own) && |own| == NShards
    ensures (exists g :: g in m) && forall g | g in m :: |m[g]| <= NShards
  {
    hide ListOf, Count;
    var p := Padded(m);
    forall g | g in p ensures |p[g]| <= NShards {
      ListCount(p[g], own, g);
    }
    SomeShard(p, own);
    PaddedAt(m);
    var some := own[0];
    assert some in m;
    forall g | g in m ensures |m[g]| <= NShards {
      assert g in p;
    }
  }

  lemma MaxOfPadded(m: Lists, own: Owners, x: int)
    requires ListsOk(Padded(m), own) && |own| > 0 && IsMax(m, x)
    ensures x in m && IsMax(Padded(m), x) && Padded(m)[x] == m[x]
  {
    hide ListOf, Padded;
    SomeShard(Padded(m), own);
    PaddedAt(m);
    var some := own[0];
    if Padded(m) != m {
      assert some in m && some == 0 && |m[0]| > 0;
    }
  }

  lemma LeastOfPadded(m: Lists, y: int)
    requires IsMin(Padded(m), y) && (y in m || y == -1)
    ensures Padded(m)[y] == if y in m then m[y] else []
  {
  }

  lemma RealKey(m: Lists, g: int)
    requires g in m && g != 0
    ensures Padded(m) == m
  {
  }

  lemma PadUpdate(m: Lists, y: int, list: seq<nat>)
    requires IsMin(Padded(m), y)
    ensures m[y := list] == Padded(m)[y := list]
  {
  }

  lemma RoundStep(a: Owners, m: Lists, own: Owners, gs: seq<int>, x: int, y: int)
    requires |a| == |own| && ListsOk(m, own) && KeysAre(m, gs) && Fair(a, own, gs) && Ends(own, gs, x, y)
    requires IsMax(m, x) && IsMin(m, y) && !Level(m, x, y) && m[x] != []
    ensures var s, m' := m[x][0], MoveOne(m, x, y);
            && s < |own| && Round(m, m') && ListsOk(m', own[s := y]) && KeysAre(m', gs) && Fair(a, own[s := y], gs)
            && Unchanged(a, own[s := y]) == Unchanged(a, own) - 1
            && x != y && m' == m[y := m[y] + [s]][x := m[y := m[y] + [s]][x][1..]]
  {
    hide Count, Unchanged, ListsOk, Fair, ListOf;
    MoveLists(m, own, x, y);
    FairStep(a, own, gs, m[x][0], x, y);
  }

  // ---- Join ----

  /** Groups that are there already keep their servers. */
  function JoinedGroups(old_: Groups, new_: Groups): Groups {
    new_ + old_
  }

  /** Every old group keeps its servers, every new one has those given, and there is no other. */
  ghost predicate GroupsAdded(old_: Groups, new_: Groups, all: Groups) {
    && (forall g | g in old_ :: g in all && all[g] == old_[g])
    && (forall g | g in new_ && g !in old_ :: g in all && all[g] == new_[g])
    && (forall g | g in all :: g in old_ || g in new_)
  }

  lemma JoinedAre(old_: Groups, new_: Groups)
    ensures GroupsAdded(old_, new_, JoinedGroups(old_, new_))
  {
  }

  method AddGroups(old_: Groups, new_: Groups) returns (groups: Groups)
    ensures groups == JoinedGroups(old_, new_)
  {
    groups := old_;
    var left := new_.Keys;
    while left != {}
      invariant left <= new_.Keys
      invariant forall g: int :: g in groups <==> g in old_ || (g in new_ && g !in left)
      invariant forall g | g in groups :: groups[g] == if g in old_ then old_[g] else new_[g]
      decreases left
    {
      NotEmpty(left);
      var g :| g in left;
      if g !in groups {
        groups := groups[g := new_[g]];
      }
      left := left - {g};
    }
    assert forall g: int :: g in groups <==> g in JoinedGroups(old_, new_);
    assert forall g: int | g in groups :: groups[g] == JoinedGroups(old_, new_)[g];
  }

  /** Who takes shards in a join: the groups, or -1 if there are none. */
  function Takers(groups: Groups): set<int> {
    if groups == map[] then {-1} else groups.Keys
  }

  /** What a join makes of the last configuration. */
  ghost predicate IsJoin(c: Config, groups: Groups, c': Config, trace: seq<Lists>)
    requires |c.shards| == |c'.shards|
  {
    && c'.groups == JoinedGroups(c.groups, groups)
    && Rounds(trace) && AreListings(trace[0], Takers(c'.groups), c.shards, |c.shards|) && Done(trace[|trace| - 1])
    && ListsOk(trace[|trace| - 1], c'.shards)
  }

  /** No balanced assignment of the shards moves fewer of them. */
  ghost predicate MovesFewest(a: Owners, f: Owners, gs: seq<int>)
    requires |a| == |f|
  {
    forall b: Owners | |b| == |a| && Balanced(b, gs) :: Changes(a, f) <= Changes(a, b)
  }

  lemma FewestMoves(a: Owners, f: Owners, gs: seq<int>)
    requires |a| == |f| && Distinct(gs) && gs != [] && Balanced(f, gs) && Fair(a, f, gs)
    ensures MovesFewest(a, f, gs)
  {
    hide Count, Unchanged, Fair, Balanced;
    FairEnd(a, f, gs);
    forall b: Owners | |b| == |a| && Balanced(b, gs) ensures Changes(a, f) <= Changes(a, b) {
      Optimal(a, f, b, gs);
    }
  }

  lemma JoinKeys(c: Config, groups: Groups, m: Lists)
    requires ConfigOk(c) && 0 !in groups
    requires AreListings(m, Takers(JoinedGroups(c.groups, groups)), c.shards, |c.shards|)
    ensures KeysAre(m, Enumerate(Takers(JoinedGroups(c.groups, groups)))) && ListsOk(m, c.shards)
  {
    hide Listing;
    var takers := Takers(JoinedGroups(c.groups, groups));
    var gs := Enumerate(takers);
    SomeTaker(JoinedGroups(c.groups, groups));
    ListingsOk(m, takers, c.shards);
    forall g | g in m ensures g in gs || g == 0 {
    }
  }

  /** The lists that the loop starts from, with -1 for a group if there is none. */
  lemma PaddedLists(c: Config, groups: Groups, m: Lists)
    requires ConfigOk(c) && 0 !in groups
    requires AreListings(m, JoinedGroups(c.groups, groups).Keys, c.shards, |c.shards|)
    ensures AreListings(Padded(m), Takers(JoinedGroups(c.groups, groups)), c.shards, |c.shards|)
  {
    hide Listing;
    var all := JoinedGroups(c.groups, groups);
    if all == map[] {
      assert c.groups == map[];
      ListingNone(c.shards, -1, |c.shards|);
      assert forall g | g in m :: g == 0;
    } else {
      SomeGid(all);
      var g := Gids(all)[0];
      assert g in Gids(all);
      RealKey(m, g);
    }
  }

  lemma SomeTaker(groups: Groups)
    ensures Enumerate(Takers(groups)) != []
  {
    var gs := Enumerate(Takers(groups));
    if groups == map[] {
      assert -1 in gs;
    } else {
      SomeGid(groups);
    }
  }

  method MakeJoin(last: Config, num: nat, groups: Groups) returns (c: Config, ghost trace: seq<Lists>)
    requires ConfigOk(last) && 0 !in groups
    ensures c.num == num && |c.shards| == NShards && IsJoin(last, groups, c, trace)
    ensures var gs := Enumerate(Takers(c.groups)); Balanced(c.shards, gs) && MovesFewest(last.shards, c.shards, gs)
    ensures |trace| - 1 == Changes(last.shards, c.shards)
  {
    hide Count, Unchanged, Fair, Balanced, Listing, AreListings, ListsOk, KeysAre, Round, Done, MovesFewest, Padded,
      Takers;
    var newGroups := AddGroups(last.groups, groups);
    var gidToShards := BuildLists(newGroups, last.shards);
    PaddedLists(last, groups, gidToShards);
    JoinKeys(last, groups, Padded(gidToShards));
    ghost var gs := Enumerate(Takers(newGroups));
    var levelled, own, rounds := LevelShards(gidToShards, last.shards, gs);
    FewestMoves(last.shards, own, gs) by { SomeTaker(newGroups); }
    var newShards := StoreLists(levelled, own);
    c := Config(num, newShards, newGroups);
    trace := rounds;
  }

  lemma SomeGid(groups: Groups)
    requires groups != map[]
    ensures Gids(groups) != [] && HasGroup(groups)
  {
    if !(exists g :: g in groups) {
      assert false;
    }
    var g :| g in groups;
    assert g in Gids(groups);
  }

  /** Two replicas that apply the same join to the same configuration get the same assignment, though they walk
      their maps in different orders. */
  lemma JoinIsDeterministic(c: Config, groups: Groups, c1: Config, t1: seq<Lists>, c2: Config, t2: seq<Lists>)
    requires |c.shards| == |c1.shards| == |c2.shards| && IsJoin(c, groups, c1, t1) && IsJoin(c, groups, c2, t2)
    ensures c1.shards == c2.shards && c1.groups == c2.groups
  {
    hide Round, Done, Listing, ListOf;
    SameListings(t1[0], t2[0], Takers(c1.groups), c.shards);
    LevellingIsDeterministic(t1, t2);
    SameOwners(t1[|t1| - 1], c1.shards, c2.shards);
  }

  lemma SameListings(m1: Lists, m2: Lists, gids: set<int>, own: Owners)
    requires AreListings(m1, gids, own, |own|) && AreListings(m2, gids, own, |own|)
    ensures m1 == m2
  {
    hide Listing;
    assert forall g: int :: g in m1 <==> g in m2;
    assert forall g: int | g in m1 :: m1[g] == m2[g];
  }

  lemma SameOwners(m: Lists, a: Owners, b: Owners)
    requires ListsOk(m, a) && ListsOk(m, b) && |a| == |b|
    ensures a == b
  {
    forall s | 0 <= s < |a| ensures a[s] == b[s] {
      assert ListOf(m[a[s]], a, a[s]) && ListOf(m[a[s]], b, a[s]);
      assert s in m[a[s]];
    }
  }

  // ---- Leave ----

  /** The shards of one group are given up. */
  ghost function Vacate(own: Owners, g: int): (r: Owners)
    ensures |r| == |own| && forall s | 0 <= s < |own| :: r[s] == if own[s] == g then 0 else own[s]
  {
    seq(|own|, s requires 0 <= s < |own| => if own[s] == g then 0 else own[s])
  }

  ghost function VacateAll(own: Owners, gids: seq<int>): (r: Owners)
    ensures |r| == |own| && forall s | 0 <= s < |own| :: r[s] == if own[s] in gids then 0 else own[s]
  {
    seq(|own|, s requires 0 <= s < |own| => if own[s] in gids then 0 else own[s])
  }

  ghost function SetOfGids(gids: seq<int>): set<int> {
    set g | g in gids
  }

  /** The shards given up, in the order of the leaving groups. */
  function Departed(m: Lists, gids: seq<int>): seq<nat> {
    if gids == [] then [] else (if gids[0] in m then m[gids[0]] else []) + Departed(m - {gids[0]}, gids[1..])
  }

  /** Lists for part of an assignment: shards that nobody owns are in a list of their own. */
  ghost predicate Parted(m: Lists, rest: seq<nat>, own: Owners) {
    && 0 !in m && ListOf(rest, own, 0)
    && (forall g | g in m :: ListOf(m[g], own, g))
    && (forall s | 0 <= s < |own| :: own[s] in m || own[s] == 0)
  }

  lemma VacateRest(rest: seq<nat>, list: seq<nat>, own: Owners, g: int)
    requires ListOf(rest, own, 0) && ListOf(list, own, g) && g != 0
    ensures ListOf(rest + list, Vacate(own, g), 0)
  {
    var own', r := Vacate(own, g), rest + list;
    forall i, j | 0 <= i < j < |r| ensures r[i] != r[j] {
      if i < |rest| <= j {
        assert own[rest[i]] == 0 && own[list[j - |rest|]] == g;
      }
    }
    forall s: nat | s < |own'| && own'[s] == 0 ensures s in r {
      if own[s] == g {
        assert s in list;
      } else {
        assert s in rest;
      }
    }
  }

  lemma VacateElse(list: seq<nat>, own: Owners, g: int, h: int)
    requires ListOf(list, own, h) && h != g && h != 0
    ensures ListOf(list, Vacate(own, g), h)
  {
  }

  lemma PartedStep(m: Lists, rest: seq<nat>, own: Owners, g: int)
    requires Parted(m, rest, own)
    ensures Parted(m - {g}, rest + (if g in m then m[g] else []), Vacate(own, g))
  {
    hide ListOf;
    var m', own' := m - {g}, Vacate(own, g);
    if g in m {
      VacateRest(rest, m[g], own, g);
    } else {
      assert own' == own by {
        forall s | 0 <= s < |own| ensures own'[s] == own[s] {
          assert own[s] in m || own[s] == 0;
        }
      }
      assert rest + [] == rest;
    }
    forall h | h in m' ensures ListOf(m'[h], own', h) {
      VacateElse(m[h], own, g, h);
    }
  }

  /** Take the leaving groups out. */
  method RemoveGroups(groups: Groups, m: Lists, gids: seq<int>, ghost own: Owners)
    returns (groups': Groups, m': Lists, unassigned: seq<nat>)
    ensures groups' == groups - SetOfGids(gids) && m' == m - SetOfGids(gids) && unassigned == Departed(m, gids)
    ensures Parted(m, [], own) ==> Parted(m', unassigned, VacateAll(own, gids))
  {
    hide Parted, Departed;
    groups', m', unassigned := groups, m, [];
    ghost var own' := own;
    var k := 0;
    assert gids[0..] == gids;
    assert groups - SetOfGids([]) == groups && m - SetOfGids([]) == m;
    assert VacateAll(own, []) == own;
    while k < |gids|
      invariant 0 <= k <= |gids|
      invariant groups' == groups - SetOfGids(gids[..k]) && m' == m - SetOfGids(gids[..k])
                && own' == VacateAll(own, gids[..k])
      invariant unassigned + Departed(m', gids[k..]) == Departed(m, gids)
      invariant Parted(m, [], own) ==> Parted(m', unassigned, own')
    {
      var gid := gids[k];
      RemoveStep(groups, m, own, gids, k);
      DepartedStep(m', gids, k);
      if Parted(m, [], own) {
        PartedStep(m', unassigned, own', gid);
      }
      ghost var before := unassigned;
      own' := Vacate(own', gid);
      if gid in groups' {
        groups' := groups' - {gid};
      }
      if gid in m' {
        unassigned := unassigned + m'[gid];
        m' := m' - {gid};
      } else {
        assert m' - {gid} == m' && before + [] == before;
      }
      k := k + 1;
    }
    assert gids[..k] == gids && gids[k..] == [];
    DepartedNone(m');
  }

  lemma DepartedNone(m: Lists)
    ensures Departed(m, []) == []
  {
  }

  lemma DepartedStep(m: Lists, gids: seq<int>, k: nat)
    requires k < |gids|
    ensures Departed(m, gids[k..]) == (if gids[k] in m then m[gids[k]] else []) + Departed(m - {gids[k]}, gids[k + 1..])
  {
    assert gids[k..][0] == gids[k] && gids[k..][1..] == gids[k + 1..];
  }

  lemma RemoveStep(groups: Groups, m: Lists, own: Owners, gids: seq<int>, k: nat)
    requires k < |gids|
    ensures (groups - SetOfGids(gids[..k])) - {gids[k]} == groups - SetOfGids(gids[..k + 1])
    ensures gids[k] !in groups - SetOfGids(gids[..k]) ==>
            groups - SetOfGids(gids[..k]) == groups - SetOfGids(gids[..k + 1])
    ensures (m - SetOfGids(gids[..k])) - {gids[k]} == m - SetOfGids(gids[..k + 1])
    ensures Vacate(VacateAll(own, gids[..k]), gids[k]) == VacateAll(own, gids[..k + 1])
  {
    assert gids[..k + 1] == gids[..k] + [gids[k]];
    assert SetOfGids(gids[..k + 1]) == SetOfGids(gids[..k]) + {gids[k]};
  }

  /** The smallest id among the groups with the fewest shards. */
  ghost predicate IsMinOwner(own: Owners, gids: set<int>, y: int) {
    y in gids && forall h | h in gids :: Count(own, y) < Count(own, h) || (Count(own, y) == Count(own, h) && y <= h)
  }

  /** One shard after the other to the group with the fewest. */
  ghost predicate Reassigned(own: Owners, gids: set<int>, list: seq<nat>, own': Owners)
    decreases list
  {
    if list == [] then own' == own
    else list[0] < |own| && exists y :: IsMinOwner(own, gids, y) && Reassigned(own[list[0] := y], gids, list[1..], own')
  }

  lemma {:induction false} ReassignedOnce(own: Owners, gids: set<int>, list: seq<nat>, own1: Owners, own2: Owners)
    requires Reassigned(own, gids, list, own1) && Reassigned(own, gids, list, own2)
    ensures own1 == own2
    decreases list
  {
    hide Count;
    if list != [] {
      var y1 :| IsMinOwner(own, gids, y1) && Reassigned(own[list[0] := y1], gids, list[1..], own1);
      var y2 :| IsMinOwner(own, gids, y2) && Reassigned(own[list[0] := y2], gids, list[1..], own2);
      assert y1 == y2;
      ReassignedOnce(own[list[0] := y1], gids, list[1..], own1, own2);
    }
  }

  /** Within one, among some groups. */
  ghost predicate Even(own: Owners, gids: set<int>) {
    forall g, h | g in gids && h in gids :: Count(own, g) <= Count(own, h) + 1
  }

  /** Only the listed shards get a new owner, and loads within one stay so. */
  lemma {:induction false} ReassignedKeeps(own: Owners, gids: set<int>, list: seq<nat>, own': Owners)
    requires Reassigned(own, gids, list, own') && ListOf(list, own, 0) && 0 !in gids
    ensures |own'| == |own| && forall s | 0 <= s < |own| :: if own[s] == 0 then own'[s] in gids else own'[s] == own[s]
    ensures Even(own, gids) ==> Even(own', gids)
    decreases list
  {
    hide Count;
    if list != [] {
      var y :| IsMinOwner(own, gids, y) && Reassigned(own[list[0] := y], gids, list[1..], own');
      MoveFrom(list, own, 0, y);
      EvenStep(own, gids, list[0], y);
      ReassignedKeeps(own[list[0] := y], gids, list[1..], own');
    }
  }

  lemma EvenStep(own: Owners, gids: set<int>, s: nat, y: int)
    requires s < |own| && own[s] == 0 && 0 !in gids && IsMinOwner(own, gids, y)
    ensures Even(own, gids) ==> Even(own[s := y], gids)
  {
    hide Count;
    forall g | g in gids ensures Count(own[s := y], g) == Count(own, g) + (if g == y then 1 else 0) {
      CountMove(own, s, y, g);
    }
  }

  method ReassignShards(m0: Lists, list: seq<nat>, ghost own0: Owners) returns (m: Lists, ghost own: Owners)
    requires Parted(m0, list, own0) && (exists g :: g in m0) && |own0| == NShards
    ensures |own| == NShards && Parted(m, [], own) && Reassigned(own0, m0.Keys, list, own)
  {
    hide Count, Parted, Reassigned, ListOf;
    m, own := m0, own0;
    var k := 0;
    assert list[0..] == list;
    while k < |list|
      invariant 0 <= k <= |list| && |own| == NShards && Parted(m, list[k..], own) && m.Keys == m0.Keys
      invariant forall r :: Reassigned(own, m0.Keys, list[k..], r) ==> Reassigned(own0, m0.Keys, list, r)
    {
      PartedShort(m, list[k..], own);
      var minGid := GidWithMinShards(m);
      AssignStep(m, list, k, own, minGid);
      forall r | Reassigned(own[list[k] := minGid], m0.Keys, list[k + 1..], r)
        ensures Reassigned(own0, m0.Keys, list, r)
      {
        AssignChain(own, m0.Keys, list, k, minGid, r);
      }
      own := own[list[k] := minGid];
      m := m[minGid := m[minGid] + [list[k]]];
      k := k + 1;
    }
    assert list[k..] == [];
    assert Reassigned(own, m0.Keys, [], own) by { NothingLeft(own, m0.Keys); }
  }

  lemma NothingLeft(own: Owners, gids: set<int>)
    ensures Reassigned(own, gids, [], own)
  {
  }

  lemma AssignChain(own: Owners, gids: set<int>, list: seq<nat>, k: nat, y: int, r: Owners)
    requires k < |list| && list[k] < |own| && IsMinOwner(own, gids, y)
             && Reassigned(own[list[k] := y], gids, list[k + 1..], r)
    ensures Reassigned(own, gids, list[k..], r)
  {
    hide IsMinOwner;
    assert list[k..][0] == list[k] && list[k..][1..] == list[k + 1..];
  }

  lemma PartedShort(m: Lists, rest: seq<nat>, own: Owners)
    requires Parted(m, rest, own) && |own| == NShards && exists g :: g in m
    ensures (exists g :: g in m && g != 0) && forall g | g in m :: |m[g]| <= NShards
  {
    hide ListOf, Count;
    var g :| g in m;
    assert g in m && g != 0;
    forall h | h in m ensures |m[h]| <= NShards {
      ListCount(m[h], own, h);
    }
  }

  lemma AssignStep(m: Lists, list: seq<nat>, k: nat, own: Owners, y: int)
    requires k < |list| && Parted(m, list[k..], own) && IsMin(m, y)
    ensures list[k] < |own| && IsMinOwner(own, m.Keys, y)
    ensures Parted(m[y := m[y] + [list[k]]], list[k + 1..], own[list[k] := y])
  {
    hide Count, ListOf;
    var rest := list[k..];
    assert rest[0] == list[k] && rest[1..] == list[k + 1..];
    assert list[k] < |own| && own[list[k]] == 0 by { HeadOfList(rest, own); }
    forall g | g in m ensures |m[g]| == Count(own, g) {
      ListCount(m[g], own, g);
    }
    MoveFrom(rest, own, 0, y);
    var m', own' := m[y := m[y] + [list[k]]], own[list[k] := y];
    forall g | g in m' ensures ListOf(m'[g], own', g) {
      if g == y {
        MoveTo(m[y], own, list[k], y);
      } else {
        MoveElse(m[g], own, list[k], y, g);
      }
    }
  }

  lemma HeadOfList(list: seq<nat>, own: Owners)
    requires ListOf(list, own, 0) && list != []
    ensures list[0] < |own| && own[list[0]] == 0
  {
  }

  /** What a leave makes of the last configuration. */
  ghost predicate IsLeave(c: Config, gids: seq<int>, c': Config) {
    && c'.groups == c.groups - SetOfGids(gids)
    && if c'.groups == map[] then c'.shards == Unowned()
       else exists m :: AreListings(m, c.groups.Keys, c.shards, |c.shards|)
                        && Reassigned(VacateAll(c.shards, gids), c'.groups.Keys, Departed(m, gids), c'.shards)
  }

  /** Replicas agree on what a leave does. */
  lemma LeaveIsDeterministic(c: Config, gids: seq<int>, c1: Config, c2: Config)
    requires IsLeave(c, gids, c1) && IsLeave(c, gids, c2)
    ensures c1.shards == c2.shards && c1.groups == c2.groups
  {
    hide Listing, Reassigned, AreListings;
    if c1.groups != map[] {
      var m1 :| AreListings(m1, c.groups.Keys, c.shards, |c.shards|)
                && Reassigned(VacateAll(c.shards, gids), c1.groups.Keys, Departed(m1, gids), c1.shards);
      var m2 :| AreListings(m2, c.groups.Keys, c.shards, |c.shards|)
                && Reassigned(VacateAll(c.shards, gids), c2.groups.Keys, Departed(m2, gids), c2.shards);
      SameListings(m1, m2, c.groups.Keys, c.shards);
      ReassignedOnce(VacateAll(c.shards, gids), c1.groups.Keys, Departed(m1, gids), c1.shards, c2.shards);
    }
  }

  lemma {:induction false} CountVacated(own: Owners, gids: seq<int>, g: int)
    requires g !in gids && g != 0
    ensures Count(VacateAll(own, gids), g) == Count(own, g)
  {
    if own != [] {
      var k := |own| - 1;
      CountVacated(own[..k], gids, g);
      assert VacateAll(own, gids)[..k] == VacateAll(own[..k], gids);
    }
  }

  /** No assignment to the groups that stay moves fewer shards. */
  ghost predicate LeavesFewest(a: Owners, f: Owners, staying: set<int>)
    requires |a| == |f|
  {
    forall b: Owners | |b| == |a| && (forall s | 0 <= s < |b| :: b[s] in staying) :: Changes(a, f) <= Changes(a, b)
  }

  /** A leave reassigns only the shards of the leaving groups, which is the fewest, and keeps the loads within
      one if they were. */
  ghost predicate LeaveKeeps(c: Config, gids: seq<int>, c': Config)
    requires |c.shards| == |c'.shards|
  {
    && (forall s | 0 <= s < |c.shards| :: if c.shards[s] in gids then c'.shards[s] in c'.groups
        else c'.shards[s] == c.shards[s])
    && (Balanced(c.shards, Gids(c.groups)) ==> Balanced(c'.shards, Gids(c'.groups)))
    && LeavesFewest(c.shards, c'.shards, c'.groups.Keys)
  }

  lemma LeaveIsFewest(a: Owners, gids: seq<int>, f: Owners, staying: set<int>)
    requires |a| == |f| && forall s | 0 <= s < |a| && a[s] !in gids :: f[s] == a[s]
    requires forall g | g in staying :: g !in gids
    ensures LeavesFewest(a, f, staying)
  {
    hide Changes;
    forall b: Owners | |b| == |a| && (forall s | 0 <= s < |b| :: b[s] in staying)
      ensures Changes(a, f) <= Changes(a, b)
    {
      KeepsMore(a, f, b);
    }
  }

  lemma LeaveKept(c: Config, gids: seq<int>, list: seq<nat>, c': Config)
    requires ConfigOk(c) && c'.groups == c.groups - SetOfGids(gids) && c'.groups != map[] && |c'.shards| == NShards
    requires ListOf(list, VacateAll(c.shards, gids), 0)
             && Reassigned(VacateAll(c.shards, gids), c'.groups.Keys, list, c'.shards)
    ensures LeaveKeeps(c, gids, c') && ConfigOk(c')
  {
    hide Count, ListOf, Reassigned, LeavesFewest;
    var own := VacateAll(c.shards, gids);
    assert c.groups != map[];
    ReassignedKeeps(own, c'.groups.Keys, list, c'.shards);
    LeaveIsFewest(c.shards, gids, c'.shards, c'.groups.Keys);
    if Balanced(c.shards, Gids(c.groups)) {
      forall g, h | g in c'.groups && h in c'.groups ensures Count(own, g) <= Count(own, h) + 1 {
        CountVacated(c.shards, gids, g);
        CountVacated(c.shards, gids, h);
        assert g in Gids(c.groups) && h in Gids(c.groups);
      }
      assert Even(own, c'.groups.Keys);
      assert Even(c'.shards, c'.groups.Keys);
      assert OwnedBy(c'.shards, Gids(c'.groups));
    }
  }

  lemma PartedStart(c: Config, m: Lists)
    requires ConfigOk(c) && c.groups != map[] && AreListings(m, c.groups.Keys, c.shards, |c.shards|)
    ensures Parted(m, [], c.shards)
  {
    hide Listing;
    ListingsOk(m, c.groups.Keys, c.shards);
    assert forall s | 0 <= s < |c.shards| :: c.shards[s] != 0;
  }

  lemma LeaveLists(c: Config, m: Lists, gids: seq<int>)
    requires ConfigOk(c) && c.groups != map[] && AreListings(m, c.groups.Keys, c.shards, |c.shards|)
    ensures (m - SetOfGids(gids)).Keys == (c.groups - SetOfGids(gids)).Keys
  {
    hide Listing;
    assert forall g: int :: g in m <==> g in c.groups;
  }

  method MakeLeave(last: Config, num: nat, gids: seq<int>) returns (c: Config)
    requires ConfigOk(last)
    ensures c.num == num && ConfigOk(c) && IsLeave(last, gids, c)
    ensures c.groups != map[] ==> LeaveKeeps(last, gids, c)
  {
    hide Count, Listing, AreListings, ListOf, Parted, Reassigned, Balanced, LeaveKeeps, ListsOk;
    var lists := BuildLists(last.groups, last.shards);
    var newGroups, kept, unassigned := RemoveGroups(last.groups, lists, gids, last.shards);
    var newShards: Owners := Unowned();
    if |newGroups| != 0 {
      PartedStart(last, lists);
      LeaveLists(last, lists, gids);
      assert exists g :: g in kept by { HasKeys(newGroups, kept); }
      var placed, own := ReassignShards(kept, unassigned, VacateAll(last.shards, gids));
      assert ListsOk(placed, own) by { PartedIsOk(placed, own); }
      newShards := StoreLists(placed, own);
      c := Config(num, newShards, newGroups);
      assert ListOf(unassigned, VacateAll(last.shards, gids), 0)
             by { RestOfParted(kept, unassigned, VacateAll(last.shards, gids)); }
      LeaveKept(last, gids, unassigned, c);
    } else {
      assert newGroups == map[];
      c := Config(num, newShards, newGroups);
    }
  }

  lemma HasKeys(groups: Groups, m: Lists)
    requires |groups| != 0 && m.Keys == groups.Keys
    ensures exists g :: g in m
  {
    if !(exists g :: g in m) {
      assert false;
    }
  }

  lemma PartedIsOk(m: Lists, own: Owners)
    requires Parted(m, [], own)
    ensures ListsOk(m, own)
  {
  }

  lemma RestOfParted(m: Lists, rest: seq<nat>, own: Owners)
    requires Parted(m, rest, own)
    ensures ListOf(rest, own, 0)
  {
  }

  // ---- The state machine ----

  class CtrlerStateMachine {
    var configs: seq<Config>

    /** Configuration `i` has number `i`; every configuration is well formed. */
    ghost predicate Valid()
      reads this
    {
      |configs| > 0 && configs[0] == DefaultConfig() && forall i | 0 <= i < |configs| ::
        configs[i].num == i && ConfigOk(configs[i])
    }

    constructor ()
      ensures Valid() && configs == [DefaultConfig()]
    {
      configs := [DefaultConfig()];
    }

    /** A number out of range asks for the latest. */
    method Query(num: int) returns (c: Config)
      requires Valid()
      ensures c == configs[if 0 <= num < |configs| then num else |configs| - 1]
      ensures ConfigOk(c) && (0 <= num < |configs| ==> c.num == num)
    {
      if num < 0 || num >= |configs| {
        return configs[|configs| - 1];
      }
      return configs[num];
    }

    /** The new groups get shards: balanced, with the fewest shards changing owner, each moved once. Without any
        group the loop gives every shard to -1, and the configuration is not well formed. */
    method Join(groups: Groups) returns (ghost trace: seq<Lists>)
      requires Valid() && 0 !in groups
      modifies this
      ensures |configs| == |old(configs)| + 1 && old(configs) <= configs
              && configs[|old(configs)|].num == |old(configs)|
      ensures var c, c' := old(configs)[|old(configs)| - 1], configs[|old(configs)|];
              && |c'.shards| == NShards && IsJoin(c, groups, c', trace) && |trace| - 1 == Changes(c.shards, c'.shards)
              && GroupsAdded(c.groups, groups, c'.groups)
              && (c'.groups != map[] ==>
                    Balanced(c'.shards, Gids(c'.groups)) && MovesFewest(c.shards, c'.shards, Gids(c'.groups)))
              && (c'.groups == map[] ==> forall s | 0 <= s < NShards :: c'.shards[s] == -1)
      ensures Valid() <==> configs[|old(configs)|].groups != map[]
    {
      hide Balanced, MovesFewest, Rounds, AreListings, Done, ListsOk, Unchanged;
      var num := |configs|;
      var lastConfig := configs[num - 1];
      var c, t := MakeJoin(lastConfig, num, groups);
      JoinValid(lastConfig, groups, c);
      JoinedAre(lastConfig.groups, groups);
      trace := t;
      configs := configs + [c];
    }

    /** The leaving groups' shards go to those that stay. */
    method Leave(gids: seq<int>)
      requires Valid()
      modifies this
      ensures Valid() && |configs| == |old(configs)| + 1 && old(configs) <= configs
      ensures var c, c' := old(configs)[|old(configs)| - 1], configs[|old(configs)|];
              IsLeave(c, gids, c') && (c'.groups != map[] ==> LeaveKeeps(c, gids, c'))
    {
      hide LeaveKeeps, IsLeave;
      var num := |configs|;
      var lastConfig := configs[num - 1];
      var c := MakeLeave(lastConfig, num, gids);
      configs := configs + [c];
    }

    /** The shard goes to `gid`, whether or not there is such a group. */
    method Move(shard: nat, gid: int)
      requires Valid() && shard < NShards
      modifies this
      ensures |configs| == |old(configs)| + 1 && old(configs) <= configs
      ensures var c := old(configs)[|old(configs)| - 1];
              && configs[|old(configs)|] == Config(c.num + 1, c.shards[shard := gid], c.groups)
              && (Valid() <==> if c.groups == map[] then gid == 0 else gid in c.groups)
    {
      var num := |configs|;
      var lastConfig := configs[num - 1];
      var newConfig := Config(num, lastConfig.shards[shard := gid], lastConfig.groups);
      MoveValid(lastConfig, shard, gid, newConfig);
      configs := configs + [newConfig];
    }
  }

  /** Only a join that leaves no group makes a configuration that is not well formed. */
  lemma JoinValid(c: Config, groups: Groups, c': Config)
    requires ConfigOk(c) && 0 !in groups && c'.groups == JoinedGroups(c.groups, groups) && |c'.shards| == NShards
    requires Balanced(c'.shards, Enumerate(Takers(c'.groups)))
    ensures ConfigOk(c') <==> c'.groups != map[]
    ensures c'.groups == map[] ==> forall s | 0 <= s < NShards :: c'.shards[s] == -1
  {
    hide Count;
    if c'.groups == map[] {
      forall s | 0 <= s < NShards ensures c'.shards[s] == -1 {
        assert c'.shards[s] in Enumerate(Takers(c'.groups));
      }
      assert c'.shards[0] == -1;
    } else {
      SomeGid(c'.groups);
      JoinOk(c, groups, c');
    }
  }

  lemma JoinOk(c: Config, groups: Groups, c': Config)
    requires ConfigOk(c) && 0 !in groups && c'.groups == JoinedGroups(c.groups, groups) && |c'.shards| == NShards
    requires Balanced(c'.shards, Gids(c'.groups)) && HasGroup(c'.groups)
    ensures ConfigOk(c')
  {
    hide Count;
    var g :| g in c'.groups;
    assert c'.groups != map[];
  }

  // ---- Runs of the controller ----

  datatype Change = JoinGroups(groups: Groups) | LeaveGroups(gids: seq<int>) | MoveShard(shard: nat, gid: int)

  ghost predicate Changed(c: Config, ch: Change, c': Config) {
    && c'.num == c.num + 1 && |c.shards| == |c'.shards| == NShards
    && match ch
       case JoinGroups(groups) => 0 !in groups && HasGroup(c'.groups) && Joins(c, groups, c')
       case LeaveGroups(gids) => IsLeave(c, gids, c')
       case MoveShard(shard, gid) =>
         shard < NShards && gid in c.groups && c'.shards == c.shards[shard := gid] && c'.groups == c.groups
  }

  ghost predicate Joins(c: Config, groups: Groups, c': Config)
    requires |c.shards| == |c'.shards|
  {
    exists trace :: IsJoin(c, groups, c', trace)
  }

  ghost predicate IsHistory(configs: seq<Config>, changes: seq<Change>) {
    && |configs| == |changes| + 1 && configs[0] == DefaultConfig()
    && forall i | 0 <= i < |changes| :: Changed(configs[i], changes[i], configs[i + 1])
  }

  /** After some rounds. */
  lemma {:induction false} TraceFair(a: Owners, gs: seq<int>, trace: seq<Lists>, i: nat) returns (own: Owners)
    requires Rounds(trace) && i < |trace| && ListsOk(trace[0], a) && KeysAre(trace[0], gs) && |a| == NShards
    ensures |own| == NShards && ListsOk(trace[i], own) && KeysAre(trace[i], gs) && Fair(a, own, gs)
  {
    hide Count, ListsOk, KeysAre, Fair, Ends, ListOf;
    if i == 0 {
      own := a;
      FairStart(a, gs);
    } else {
      var before := TraceFair(a, gs, trace, i - 1);
      var m := trace[i - 1];
      assert Round(trace[i - 1], trace[i - 1 + 1]);
      var x, y :| IsMax(m, x) && IsMin(m, y) && !Level(m, x, y) && m[x] != [] && trace[i] == MoveOne(m, x, y);
      EndsOf(m, before, gs, x, y);
      RoundStep(a, m, before, gs, x, y);
      own := before[m[x][0] := y];
    }
  }

  lemma SomeKey(groups: Groups)
    requires HasGroup(groups)
    ensures groups != map[]
  {
    var g :| g in groups;
    assert g in groups;
  }

  /** Every join ends balanced and moves the fewest shards. */
  lemma JoinLevels(c: Config, groups: Groups, c': Config, trace: seq<Lists>)
    requires ConfigOk(c) && |c'.shards| == NShards && IsJoin(c, groups, c', trace) && 0 !in groups
             && HasGroup(c'.groups)
    ensures ConfigOk(c') && Balanced(c'.shards, Gids(c'.groups)) && MovesFewest(c.shards, c'.shards, Gids(c'.groups))
    ensures GroupsAdded(c.groups, groups, c'.groups)
  {
    hide Count, ListOf, KeysAre, Fair, Unchanged, Listing, Round, MovesFewest, Balanced, ListsOk;
    var gs := Gids(c'.groups);
    SomeKey(c'.groups);
    JoinKeys(c, groups, trace[0]);
    var own := TraceFair(c.shards, gs, trace, |trace| - 1);
    var m := trace[|trace| - 1];
    var x, y :| IsMax(m, x) && IsMin(m, y) && Level(m, x, y);
    BalancedEnd(m, own, gs, x, y);
    SameOwners(m, own, c'.shards);
    SomeGid(c'.groups);
    FewestMoves(c.shards, c'.shards, gs);
    JoinOk(c, groups, c');
    JoinedAre(c.groups, groups);
  }

  lemma LeaveOk(c: Config, gids: seq<int>, c': Config)
    requires ConfigOk(c) && |c'.shards| == NShards && IsLeave(c, gids, c')
    ensures ConfigOk(c') && (c'.groups != map[] ==> LeaveKeeps(c, gids, c'))
  {
    hide Count, ListOf, Reassigned, Listing, AreListings, LeaveKeeps, Parted;
    if c'.groups != map[] {
      var m :| AreListings(m, c.groups.Keys, c.shards, |c.shards|)
               && Reassigned(VacateAll(c.shards, gids), c'.groups.Keys, Departed(m, gids), c'.shards);
      assert c.groups != map[];
      PartedStart(c, m);
      AllParted(m, gids, [], c.shards);
      assert [] + Departed(m, gids) == Departed(m, gids);
      RestOfParted(m - SetOfGids(gids), Departed(m, gids), VacateAll(c.shards, gids));
      LeaveKept(c, gids, Departed(m, gids), c');
    }
  }

  lemma {:induction false} AllParted(m: Lists, gids: seq<int>, rest: seq<nat>, own: Owners)
    requires Parted(m, rest, own)
    ensures Parted(m - SetOfGids(gids), rest + Departed(m, gids), VacateAll(own, gids))
    decreases gids
  {
    hide Parted;
    if gids == [] {
      assert m - SetOfGids(gids) == m && rest + [] == rest && VacateAll(own, gids) == own;
    } else {
      var g, more := gids[0], gids[1..];
      var list := if g in m then m[g] else [];
      PartedStep(m, rest, own, g);
      AllParted(m - {g}, more, rest + list, Vacate(own, g));
      assert gids == [g] + more;
      assert SetOfGids(gids) == {g} + SetOfGids(more);
      assert (m - {g}) - SetOfGids(more) == m - SetOfGids(gids);
      assert VacateAll(Vacate(own, g), more) == VacateAll(own, gids);
      assert rest + list + Departed(m - {g}, more) == rest + Departed(m, gids);
    }
  }

  /** In every run, configuration `i` has number `i`, and either there are no groups and nobody owns a shard, or
      every shard is owned by a current group. */
  lemma {:induction false} HistoryOk(configs: seq<Config>, changes: seq<Change>, i: nat)
    requires IsHistory(configs, changes) && i < |configs|
    ensures configs[i].num == i && ConfigOk(configs[i])
  {
    hide ConfigOk, IsJoin, IsLeave;
    if i == 0 {
      DefaultOk();
    } else {
      HistoryOk(configs, changes, i - 1);
      var c, ch, c' := configs[i - 1], changes[i - 1], configs[i - 1 + 1];
      assert Changed(c, ch, c');
      match ch {
        case JoinGroups(groups) =>
          var trace :| IsJoin(c, groups, c', trace);
          JoinLevels(c, groups, c', trace);
        case LeaveGroups(gids) =>
          LeaveOk(c, gids, c');
        case MoveShard(shard, gid) =>
          MoveOk(c, shard, gid, c');
      }
    }
  }

  lemma DefaultOk()
    ensures ConfigOk(DefaultConfig())
  {
  }

  lemma MoveValid(c: Config, shard: nat, gid: int, c': Config)
    requires ConfigOk(c) && shard < NShards && c'.shards == c.shards[shard := gid] && c'.groups == c.groups
    ensures ConfigOk(c') <==> if c.groups == map[] then gid == 0 else gid in c.groups
  {
    assert c'.shards[shard] == gid;
  }

  lemma MoveOk(c: Config, shard: nat, gid: int, c': Config)
    requires ConfigOk(c) && shard < NShards && gid in c.groups && c'.shards == c.shards[shard := gid]
             && c'.groups == c.groups
    ensures ConfigOk(c')
  {
  }

  /** Runs of joins and leaves alone stay balanced within one. */
  lemma {:induction false} HistoryBalanced(configs: seq<Config>, changes: seq<Change>, i: nat)
    requires IsHistory(configs, changes) && i < |configs| && forall j | 0 <= j < i :: !changes[j].MoveShard?
    ensures configs[i].groups != map[] ==> Balanced(configs[i].shards, Gids(configs[i].groups))
  {
    hide ConfigOk, IsJoin, Balanced, AreListings, Reassigned;
    if i > 0 {
      HistoryBalanced(configs, changes, i - 1);
      HistoryOk(configs, changes, i - 1);
      var c, ch, c' := configs[i - 1], changes[i - 1], configs[i - 1 + 1];
      assert Changed(c, ch, c');
      match ch {
        case JoinGroups(groups) =>
          var trace :| IsJoin(c, groups, c', trace);
          JoinLevels(c, groups, c', trace);
        case LeaveGroups(gids) =>
          LeaveOk(c, gids, c');
        case MoveShard(shard, gid) =>
          assert false;
      }
    }
  }

  /** Replicas that apply the same changes have the same configurations. */
  lemma {:induction false} ReplicasAgree(configs1: seq<Config>, configs2: seq<Config>, changes: seq<Change>, i: nat)
    requires IsHistory(configs1, changes) && IsHistory(configs2, changes) && i < |configs1|
    ensures configs1[i] == configs2[i]
  {
    hide IsJoin, IsLeave;
    if i > 0 {
      ReplicasAgree(configs1, configs2, changes, i - 1);
      var c, ch, c1, c2 := configs1[i - 1], changes[i - 1], configs1[i - 1 + 1], configs2[i - 1 + 1];
      assert Changed(c, ch, c1) && Changed(c, ch, c2);
      match ch {
        case JoinGroups(groups) =>
          var t1 :| IsJoin(c, groups, c1, t1);
          var t2 :| IsJoin(c, groups, c2, t2);
          JoinIsDeterministic(c, groups, c1, t1, c2, t2);
        case LeaveGroups(gids) =>
          LeaveIsDeterministic(c, gids, c1, c2);
        case MoveShard(shard, gid) =>
      }
    }
  }
}
