/** What the invariant of one shard says. */
module MigrationSafety {
  import opened MigrationCore

  lemma OneServer(own: Owners, s: State, tok: nat, g: int, h: int)
    requires Inv(own, s, tok) && g in s.past && h in s.past
    requires Serves(own, g, Cur(s, g)) && Serves(own, h, Cur(s, h))
    ensures g == h
  {
    hide PastsOk, MessagesOk, AllKept, AllReached, HolderOk;
    assert TokenOk(own, g, Cur(s, g), tok) && TokenOk(own, h, Cur(s, h), tok);
  }

  lemma ServerIsCurrent(own: Owners, s: State, tok: nat, g: int)
    requires Inv(own, s, tok) && g in s.past && Serves(own, g, Cur(s, g))
    ensures Cur(s, g).kv == Fold(s.writes) && Dominates(Cur(s, g).dup, s.writes)
  {
    hide PastsOk, MessagesOk, AllKept, AllReached, Fold, Dominates, OncePerClient;
    assert TokenOk(own, g, Cur(s, g), tok);
  }

  /** All accepted writes are at one group, which serves the shard or keeps it for its next owner. */
  lemma SomeoneHolds(own: Owners, s: State, tok: nat)
    requires Inv(own, s, tok) && s.writes != []
    ensures exists g ::
              && g in s.past && (Serves(own, g, Cur(s, g)) || Cur(s, g).status == MoveOut)
              && Cur(s, g).kv == Fold(s.writes)
  {
    hide PastsOk, MessagesOk, AllKept, AllReached, Fold, Dominates, OncePerClient;
    assert own[tok] in s.past;
  }

  lemma Start(own: Owners, s: State)
    requires OwnersOk(own, s.past.Keys) && s.migs == {} && s.gcs == {} && s.writes == []
    requires forall g | g in s.past :: s.past[g] == [Cell(0, Normal, map[], map[])]
    ensures Inv(own, s, 0)
  {
    hide OwnersOk;
    assert OwnersStart(own, s.past.Keys) by { OwnersFirst(own, s.past.Keys); }
  }

  ghost predicate OwnersStart(own: Owners, gids: set<int>) {
    |own| > 0 && own[0] == 0 && 0 !in gids && forall m: nat | Moves(own, m) :: own[m] in gids && own[m - 1] in gids
  }

  lemma OwnersFirst(own: Owners, gids: set<int>)
    requires OwnersOk(own, gids)
    ensures OwnersStart(own, gids)
  {
  }
}
