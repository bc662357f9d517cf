/** Owners that leave a shard to nobody for a while. A change to nobody or from nobody moves no data, so what
    counts is the last group that owned the shard. */
module MigrationGaps {
  import opened MigrationCore

  /** The group that owns the shard at `m`, or owned it last before. */
  function LastOwner(own: Owners, m: nat): int
    requires m < |own|
  {
    if own[m] != 0 || m == 0 then own[m] else LastOwner(own, m - 1)
  }

  function LastOwners(own: Owners): Owners {
    seq(|own|, m requires 0 <= m < |own| => LastOwner(own, m))
  }

  /** The shard belongs to nobody at first, and to known groups afterwards. */
  ghost predicate KnownOwners(own: Owners, gids: set<int>) {
    |own| > 0 && own[0] == 0 && 0 !in gids && forall m | 0 <= m < |own| :: own[m] == 0 || own[m] in gids
  }

  /** At `m` a shard that was left to nobody is given to a group other than its last owner. */
  predicate GivenAway(own: Owners, m: nat) {
    0 < m < |own| && own[m - 1] == 0 && own[m] != 0 && LastOwner(own, m - 1) != 0 && LastOwner(own, m - 1) != own[m]
  }

  /** A shard left to nobody goes back to the group that had it. */
  ghost predicate ReturnsOk(own: Owners) {
    forall m: nat :: !GivenAway(own, m)
  }

  lemma {:induction false} LastOwnerIn(own: Owners, gids: set<int>, m: nat)
    requires KnownOwners(own, gids) && m < |own|
    ensures LastOwner(own, m) == 0 || LastOwner(own, m) in gids
  {
    if own[m] == 0 && m > 0 {
      LastOwnerIn(own, gids, m - 1);
    }
  }

  /** The last owners are owners that never go back to nobody. */
  lemma LastOwnersOk(own: Owners, gids: set<int>)
    requires KnownOwners(own, gids)
    ensures OwnersOk(LastOwners(own), gids)
  {
    forall m | 0 <= m < |own| ensures LastOwners(own)[m] == 0 || LastOwners(own)[m] in gids {
      LastOwnerIn(own, gids, m);
    }
  }

  /** The last owner changes exactly where the shard goes from one group straight to another. */
  lemma MovesMatch(own: Owners, m: nat)
    requires ReturnsOk(own) && 0 < m < |own|
    ensures Moves(LastOwners(own), m) <==> own[m - 1] != 0 && own[m] != 0 && own[m] != own[m - 1]
    ensures Moves(LastOwners(own), m) ==> LastOwners(own)[m - 1] == own[m - 1] && LastOwners(own)[m] == own[m]
  {
    assert !GivenAway(own, m);
  }

  lemma SameAdvanced(own: Owners, g: int, c: Cell)
    requires ReturnsOk(own) && c.num + 1 < |own| && g != 0
    ensures Advanced(LastOwners(own), g, c) == Advanced(own, g, c)
  {
    MovesMatch(own, c.num + 1);
  }

  /** A group that serves under the owners is the last owner. */
  lemma ServesAsLast(own: Owners, g: int, c: Cell)
    requires g != 0 && Serves(own, g, c)
    ensures Serves(LastOwners(own), g, c)
  {
  }

  /** Every step under the owners is the same step under the last owners. */
  lemma SameStep(own: Owners, s: State, g: int, a: Step)
    requires ReturnsOk(own) && 0 !in s.past && GroupsOk(s) && g in s.past && CanStep(own, s, g, a)
    ensures CanStep(LastOwners(own), s, g, a) && After(LastOwners(own), s, g, a) == After(own, s, g, a)
  {
    hide ReturnsOk, Advanced, Put, TableLe;
    var c := Cur(s, g);
    match a {
      case Accept(w) => ServesAsLast(own, g, c);
      case Advance => SameAdvanced(own, g, c);
      case Pull(k, from, j) =>
        assert s.past[g][k].num - 1 < |own|;
      case _ =>
    }
  }
}
