/** The levelling loop of the controller: from the group with the most shards to the group with the fewest. */
module Levelling {
  import opened Assignments
  import opened Collections

  type Lists = map<int, seq<nat>>        // the shards of each group

  /** The list holds exactly the shards of the group. */
  ghost predicate ListOf(list: seq<nat>, own: Owners, g: int) {
    && Distinct(list)
    && (forall i | 0 <= i < |list| :: list[i] < |own| && own[list[i]] == g)
    && (forall s: nat | s < |own| && own[s] == g :: s in list)
  }

  /** The lists spell out the assignment. */
  ghost predicate ListsOk(m: Lists, own: Owners) {
    && (forall s | 0 <= s < |own| :: own[s] in m)
    && (forall g | g in m :: ListOf(m[g], own, g))
  }

  // ---- Lengths are counts ----

  ghost function Held(own: Owners, g: int): set<nat> {
    set s: nat | s < |own| && own[s] == g
  }

  lemma {:induction false} HeldCount(own: Owners, g: int)
    ensures |Held(own, g)| == Count(own, g)
  {
    if own != [] {
      var r, k := own[..|own| - 1], |own| - 1;
      HeldCount(r, g);
      assert Held(own, g) == Held(r, g) + (if own[k] == g then {k} else {});
    }
  }

  ghost function SetOf(list: seq<nat>): set<nat> {
    set s | s in list
  }

  lemma {:induction false} SetOfList(list: seq<nat>)
    requires Distinct(list)
    ensures |SetOf(list)| == |list|
  {
    if list != [] {
      var r, k := list[..|list| - 1], list[|list| - 1];
      SetOfList(r);
      assert list == r + [k];
      assert k !in SetOf(r) && SetOf(list) == SetOf(r) + {k};
    }
  }

  lemma ListCount(list: seq<nat>, own: Owners, g: int)
    requires ListOf(list, own, g)
    ensures |list| == Count(own, g)
  {
    SetOfList(list);
    HeldCount(own, g);
    assert SetOf(list) == Held(own, g);
  }

  lemma {:induction false} CountMove(own: Owners, s: nat, y: int, g: int)
    requires s < |own| && own[s] != y
    ensures Count(own[s := y], g) == Count(own, g) - (if own[s] == g then 1 else 0) + (if y == g then 1 else 0)
  {
    var k := |own| - 1;
    var own' := own[s := y];
    if s == k {
      assert own'[..k] == own[..k];
    } else {
      assert own'[..k] == own[..k][s := y];
      CountMove(own[..k], s, y, g);
    }
  }

  lemma {:induction false} UnchangedMove(a: Owners, own: Owners, s: nat, y: int)
    requires |a| == |own| && s < |own| && own[s] == a[s] != y
    ensures Unchanged(a, own[s := y]) == Unchanged(a, own) - 1
  {
    var k := |own| - 1;
    var own' := own[s := y];
    if s == k {
      assert own'[..k] == own[..k];
    } else {
      assert own'[..k] == own[..k][s := y];
      UnchangedMove(a[..k], own[..k], s, y);
    }
  }

  // ---- The two ends ----

  /** Unassigned shards go first; then the smallest id among the groups with the most shards. */
  ghost predicate IsMax(m: Lists, g: int) {
    && g in m
    && if 0 in m && |m[0]| > 0 then g == 0
       else forall h | h in m :: |m[h]| < |m[g]| || (|m[h]| == |m[g]| && g <= h)
  }

  /** The smallest id among the real groups with the fewest shards. */
  ghost predicate IsMin(m: Lists, g: int) {
    g in m && g != 0 && forall h | h in m && h != 0 :: |m[g]| < |m[h]| || (|m[g]| == |m[h]| && g <= h)
  }

  lemma MaxUnique(m: Lists, g: int, h: int)
    requires IsMax(m, g) && IsMax(m, h)
    ensures g == h
  {
  }

  lemma MinUnique(m: Lists, g: int, h: int)
    requires IsMin(m, g) && IsMin(m, h)
    ensures g == h
  {
  }

  predicate Level(m: Lists, x: int, y: int)
    requires x in m && y in m
  {
    x != 0 && |m[x]| - |m[y]| <= 1
  }

  function MoveOne(m: Lists, x: int, y: int): Lists
    requires x in m && y in m && m[x] != []
  {
    m[y := m[y] + [m[x][0]]][x := m[x][1..]]
  }

  lemma MoveLists(m: Lists, own: Owners, x: int, y: int)
    requires ListsOk(m, own) && x in m && y in m && x != y && m[x] != []
    ensures m[x][0] < |own| && own[m[x][0]] == x && ListsOk(MoveOne(m, x, y), own[m[x][0] := y])
  {
    var s := m[x][0];
    var own', m' := own[s := y], MoveOne(m, x, y);
    assert ListOf(m[x], own, x) && ListOf(m[y], own, y);
    forall g | g in m' ensures ListOf(m'[g], own', g) {
      assert ListOf(m[g], own, g);
      if g == x {
        MoveFrom(m[x], own, x, y);
      } else if g == y {
        MoveTo(m[y], own, s, y);
      } else {
        MoveElse(m[g], own, s, y, g);
      }
    }
  }

  lemma MoveFrom(list: seq<nat>, own: Owners, x: int, y: int)
    requires ListOf(list, own, x) && list != [] && x != y
    ensures ListOf(list[1..], own[list[0] := y], x)
  {
    forall s: nat | s < |own| && own[list[0] := y][s] == x ensures s in list[1..] {
      assert s in list;
    }
  }

  lemma MoveTo(list: seq<nat>, own: Owners, s: nat, y: int)
    requires ListOf(list, own, y) && s < |own| && own[s] != y
    ensures ListOf(list + [s], own[s := y], y)
  {
  }

  lemma MoveElse(list: seq<nat>, own: Owners, s: nat, y: int, g: int)
    requires ListOf(list, own, g) && s < |own| && own[s] != g && y != g
    ensures ListOf(list, own[s := y], g)
  {
  }

  // ---- The invariant ----

  /** What levelling has done to the groups so far, starting from the assignment `a`. */
  ghost predicate Fair(a: Owners, own: Owners, gs: seq<int>)
    requires |a| == |own|
  {
    && NoGain(a, own, 0)
    && (forall g | g in gs :: NoGain(a, own, g) || NoLoss(a, own, g))
    && (forall g, h | g in gs && h in gs && !NoGain(a, own, g) :: Count(own, g) <= Count(own, h) + 1)
    && (forall g, h | g in gs && h in gs && !NoLoss(a, own, g) ::
        Count(own, g) >= Count(own, h) - 1 && Count(own, 0) == 0)
    && (forall g, h | g in gs && h in gs && !NoGain(a, own, h) && !NoLoss(a, own, g) :: Count(own, h) <= Count(own, g))
  }

  lemma FairStart(a: Owners, gs: seq<int>)
    ensures Fair(a, a, gs)
  {
  }

  /** The ends of the lists are the ends of the counts. */
  ghost predicate Ends(own: Owners, gs: seq<int>, x: int, y: int) {
    && y in gs && x != y && (x in gs || x == 0) && 0 !in gs
    && (forall h | h in gs :: Count(own, y) <= Count(own, h))
    && (if x == 0 then Count(own, 0) > 0
        else Count(own, 0) == 0 && Count(own, x) >= Count(own, y) + 2 && forall h | h in gs ::
          Count(own, h) <= Count(own, x))
  }

  /** The giver has only given so far, and the taker only taken. */
  lemma EndsAreFree(a: Owners, own: Owners, gs: seq<int>, x: int, y: int)
    requires |a| == |own| && Fair(a, own, gs) && Ends(own, gs, x, y)
    ensures NoGain(a, own, x) && NoLoss(a, own, y)
  {
    hide Count, NoGain, NoLoss;
  }

  lemma FairFlags(a: Owners, own: Owners, s: nat, x: int, y: int, g: int)
    requires |a| == |own| && s < |own| && own[s] == a[s] == x != y
    requires NoGain(a, own, x) && NoLoss(a, own, y)
    ensures var own' := own[s := y];
            && NoGain(a, own', x) && NoLoss(a, own', y)
            && (g != y ==> NoGain(a, own', g) == NoGain(a, own, g))
            && (g != x ==> NoLoss(a, own', g) == NoLoss(a, own, g))
  {
    var own' := own[s := y];
    if g != y && NoGain(a, own', g) {
      forall t | 0 <= t < |a| && own[t] == g ensures a[t] == g {
        assert t != s ==> own'[t] == g;
      }
    }
    if g != x && NoLoss(a, own', g) {
      forall t | 0 <= t < |a| && a[t] == g ensures own[t] == g {
        assert own'[t] == g;
      }
    }
  }

  lemma FairStep(a: Owners, own: Owners, gs: seq<int>, s: nat, x: int, y: int)
    requires |a| == |own| && Fair(a, own, gs) && Ends(own, gs, x, y) && s < |own| && own[s] == x
    ensures a[s] == x && Fair(a, own[s := y], gs) && Unchanged(a, own[s := y]) == Unchanged(a, own) - 1
  {
    hide Count, Unchanged;
    EndsAreFree(a, own, gs, x, y);
    var own' := own[s := y];
    assert a[s] == x;
    UnchangedMove(a, own, s, y);
    forall g | g in gs || g == 0
      ensures Count(own', g) == Count(own, g) - (if x == g then 1 else 0) + (if y == g then 1 else 0)
      ensures NoGain(a, own', x) && NoLoss(a, own', y)
      ensures g != y ==> NoGain(a, own', g) == NoGain(a, own, g)
      ensures g != x ==> NoLoss(a, own', g) == NoLoss(a, own, g)
    {
      CountMove(own, s, y, g);
      FairFlags(a, own, s, x, y, g);
    }
    FairCounts(a, own, own', gs, x, y);
  }

  lemma FairCounts(a: Owners, own: Owners, own': Owners, gs: seq<int>, x: int, y: int)
    requires |a| == |own| == |own'| && Fair(a, own, gs) && Ends(own, gs, x, y)
    requires forall g | g in gs || g == 0 ::
               && Count(own', g) == Count(own, g) - (if x == g then 1 else 0) + (if y == g then 1 else 0)
               && NoGain(a, own', x) && NoLoss(a, own', y)
               && (g != y ==> NoGain(a, own', g) == NoGain(a, own, g))
               && (g != x ==> NoLoss(a, own', g) == NoLoss(a, own, g))
    ensures Fair(a, own', gs)
  {
    hide Count, NoGain, NoLoss;
  }

  /** Once level, the loads are balanced, and the shards that changed owner are the fewest possible. */
  lemma FairEnd(a: Owners, own: Owners, gs: seq<int>)
    requires |a| == |own| && Fair(a, own, gs)
    ensures Levelled(a, own, gs)
  {
    forall g, h | g in gs && h in gs && Count(own, h) > Count(a, h) && Count(own, g) < Count(a, g)
      ensures Count(own, h) <= Count(own, g)
    {
      if NoGain(a, own, h) {
        SameNoGain(a, own, h);
        SameAtMost(a, own, h);
      }
      if NoLoss(a, own, g) {
        SameNoLoss(a, own, g);
        SameAtMost(a, own, g);
      }
    }
  }

  // ---- The loop ----

  ghost predicate KeysAre(m: Lists, gs: seq<int>) {
    0 !in gs && gs != [] && Distinct(gs) && (forall g | g in gs :: g in m) && forall g | g in m :: g in gs || g == 0
  }

  lemma EndsOf(m: Lists, own: Owners, gs: seq<int>, x: int, y: int)
    requires ListsOk(m, own) && KeysAre(m, gs) && IsMax(m, x) && IsMin(m, y) && !Level(m, x, y) && |own| > 0
    ensures Ends(own, gs, x, y) && m[x] != []
  {
    hide ListOf, Count;
    forall g | g in m ensures |m[g]| == Count(own, g) {
      ListCount(m[g], own, g);
    }
    SomeShard(m, own);
    if 0 !in m {
      NoneHeld(own, 0);
    }
    assert y in gs && (x in gs || x == 0);
    var some := own[0];
    assert x == 0 ==> |m[some]| <= |m[0]| || |m[0]| > 0;
    assert x == 0 ==> |m[0]| == Count(own, 0);
    assert x != 0 ==> Count(own, 0) == 0 && Count(own, x) >= Count(own, y) + 2;
    assert x != y;
    forall h | h in gs ensures Count(own, y) <= Count(own, h) && (x != 0 ==> Count(own, h) <= Count(own, x)) {
      assert h in m && |m[h]| == Count(own, h);
    }
  }

  /** Some group has a shard. */
  lemma SomeShard(m: Lists, own: Owners)
    requires ListsOk(m, own) && |own| > 0
    ensures own[0] in m && |m[own[0]]| > 0
  {
    assert ListOf(m[own[0]], own, own[0]);
    assert 0 in m[own[0]];
  }

  lemma {:induction false} NoneHeld(own: Owners, g: int)
    requires g !in own
    ensures Count(own, g) == 0
  {
    if own != [] {
      assert forall s | 0 <= s < |own| - 1 :: own[..|own| - 1][s] == own[s];
      NoneHeld(own[..|own| - 1], g);
    }
  }

  lemma BalancedEnd(m: Lists, own: Owners, gs: seq<int>, x: int, y: int)
    requires ListsOk(m, own) && KeysAre(m, gs) && IsMax(m, x) && IsMin(m, y) && Level(m, x, y)
    ensures Balanced(own, gs)
  {
    hide Count;
    forall g | g in m ensures |m[g]| == Count(own, g) {
      ListCount(m[g], own, g);
    }
    forall s | 0 <= s < |own| ensures own[s] in gs {
      assert ListOf(m[own[s]], own, own[s]);
      assert s in m[own[s]];
    }
  }

  /** One round of the loop. */
  ghost predicate Round(m: Lists, m': Lists) {
    exists x, y :: IsMax(m, x) && IsMin(m, y) && !Level(m, x, y) && m[x] != [] && m' == MoveOne(m, x, y)
  }

  ghost predicate Done(m: Lists) {
    exists x, y :: IsMax(m, x) && IsMin(m, y) && Level(m, x, y)
  }

  /** The lists after each round, from the first to the last. */
  ghost predicate Rounds(trace: seq<Lists>) {
    |trace| > 0 && forall i | 0 <= i < |trace| - 1 :: Round(trace[i], trace[i + 1])
  }

  lemma RoundUnique(m: Lists, m1: Lists, m2: Lists)
    requires Round(m, m1)
    ensures Round(m, m2) ==> m1 == m2
    ensures !Done(m)
  {
    var x, y :| IsMax(m, x) && IsMin(m, y) && !Level(m, x, y) && m[x] != [] && m1 == MoveOne(m, x, y);
    if Round(m, m2) {
      var x2, y2 :| IsMax(m, x2) && IsMin(m, y2) && !Level(m, x2, y2) && m[x2] != [] && m2 == MoveOne(m, x2, y2);
      MaxUnique(m, x, x2);
      MinUnique(m, y, y2);
    }
    if Done(m) {
      var x3, y3 :| IsMax(m, x3) && IsMin(m, y3) && Level(m, x3, y3);
      MaxUnique(m, x, x3);
      MinUnique(m, y, y3);
      assert false;
    }
  }

  lemma {:induction false} SamePrefix(t1: seq<Lists>, t2: seq<Lists>, i: nat)
    requires Rounds(t1) && Rounds(t2) && t1[0] == t2[0] && i < |t1| && i < |t2|
    ensures t1[i] == t2[i]
  {
    hide Round;
    if i > 0 {
      SamePrefix(t1, t2, i - 1);
      assert Round(t1[i - 1], t1[i - 1 + 1]) && Round(t2[i - 1], t2[i - 1 + 1]);
      RoundUnique(t1[i - 1], t1[i], t2[i]);
    }
  }

  /** Replicas that start from the same lists go through the same rounds and stop at the same lists. */
  lemma LevellingIsDeterministic(t1: seq<Lists>, t2: seq<Lists>)
    requires Rounds(t1) && Rounds(t2) && t1[0] == t2[0] && Done(t1[|t1| - 1]) && Done(t2[|t2| - 1])
    ensures t1 == t2
  {
    hide Round, Done;
    if |t1| < |t2| {
      SamePrefix(t1, t2, |t1| - 1);
      RoundUnique(t1[|t1| - 1], t2[|t1|], t2[|t1|]);
    }
    if |t2| < |t1| {
      SamePrefix(t1, t2, |t2| - 1);
      RoundUnique(t2[|t2| - 1], t1[|t2|], t1[|t2|]);
    }
    forall i | 0 <= i < |t1| && i < |t2| ensures t1[i] == t2[i] {
      SamePrefix(t1, t2, i);
    }
  }
}
