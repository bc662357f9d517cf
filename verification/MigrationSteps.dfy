/** Every step of the shard keeps the invariant. */
module MigrationSteps {
  import opened MigrationCore

  // ---- A group gets a new cell ----

  /** A later cell of the same group. */
  ghost predicate Follows(c: Cell, c': Cell) {
    c.num <= c'.num && (c.num == c'.num ==> Earlier(c.status, c'.status))
  }

  ghost function Next(s: State, g: int, c: Cell, writes: seq<Write>): State
    requires g in s.past
  {
    Push(s, g, c).(writes := writes)
  }

  lemma Curs(own: Owners, s: State, g: int, c: Cell, writes: seq<Write>)
    requires Ready(own, s) && g in s.past
    ensures var s' := Next(s, g, c, writes);
            && Ready(own, s') && s'.past.Keys == s.past.Keys && Cur(s', g) == c
            && forall h | h in s.past && h != g :: s'.past[h] == s.past[h] && Cur(s', h) == Cur(s, h)
  {
    var s' := Next(s, g, c, writes);
    assert s'.past.Keys == s.past.Keys;
  }

  lemma EarlierTrans(a: Status, b: Status, c: Status)
    requires Earlier(a, b) && Earlier(b, c)
    ensures Earlier(a, c)
  {
  }

  lemma PushGroupPast(own: Owners, s: State, g: int, c: Cell, writes: seq<Write>, h: int)
    requires Ready(own, s) && g in s.past && h in s.past && GroupPastOk(own, s, h)
    requires CellOk(own, g, c) && Follows(Cur(s, g), c)
    ensures Ready(own, Next(s, g, c, writes)) && h in Next(s, g, c, writes).past
            && GroupPastOk(own, Next(s, g, c, writes), h)
  {
    hide CellOk, Earlier, OwnersOk;
    var s' := Next(s, g, c, writes);
    Curs(own, s, g, c, writes);
    forall k | 0 <= k < |s'.past[h]| ensures PastOk(own, s', h, s'.past[h][k]) {
      if h == g && k < |s.past[g]| {
        assert PastOk(own, s, g, s.past[g][k]);
        if s.past[g][k].num == c.num {
          EarlierTrans(s.past[g][k].status, Cur(s, g).status, c.status);
        }
      } else if h == g {
        assert Earlier(c.status, c.status) by { EarlierSelf(c.status); }
      } else {
        assert PastOk(own, s, h, s.past[h][k]);
      }
    }
  }

  lemma EarlierSelf(a: Status)
    ensures Earlier(a, a)
  {
  }

  /** A move that was no longer pending stays so. */
  lemma PendingPush(own: Owners, s: State, g: int, c: Cell, writes: seq<Write>, m: nat)
    requires Ready(own, s) && g in s.past && Follows(Cur(s, g), c) && m < |own| && own[m] in s.past
    ensures Ready(own, Next(s, g, c, writes)) && own[m] in Next(s, g, c, writes).past
    ensures Pending(own, Next(s, g, c, writes), m) ==> Pending(own, s, m)
  {
    hide OwnersOk;
    Curs(own, s, g, c, writes);
  }

  lemma OwnersIn(own: Owners, s: State, m: nat)
    requires Ready(own, s) && Moves(own, m)
    ensures own[m] in s.past && own[m - 1] in s.past && own[m] != 0
  {
  }

  lemma PushReached(own: Owners, s: State, tok: nat, g: int, c: Cell, writes: seq<Write>)
    requires Ready(own, s) && g in s.past && Follows(Cur(s, g), c) && AllReached(own, s, tok)
    ensures Ready(own, Next(s, g, c, writes)) && AllReached(own, Next(s, g, c, writes), tok)
  {
    var s' := Next(s, g, c, writes);
    Curs(own, s, g, c, writes);
    forall k: nat ensures ReachedOk(own, s', tok, k) {
      assert ReachedOk(own, s, tok, k);
    }
  }

  lemma PushGcs(own: Owners, s: State, g: int, c: Cell, writes: seq<Write>, gc: Gc)
    requires Ready(own, s) && g in s.past && Follows(Cur(s, g), c) && GcOk(own, s, gc.num)
    ensures Ready(own, Next(s, g, c, writes)) && GcOk(own, Next(s, g, c, writes), gc.num)
  {
    hide Pending;
    Curs(own, s, g, c, writes);
    OwnersIn(own, s, gc.num);
    PendingPush(own, s, g, c, writes, gc.num);
  }

  /** The other groups' cells are as before. */
  lemma PushCells(own: Owners, s: State, tok: nat, g: int, c: Cell, writes: seq<Write>)
    requires Ready(own, s) && g in s.past && CellsOk(own, s, tok) && CellOk(own, g, c) && TokenOk(own, g, c, tok)
    ensures Ready(own, Next(s, g, c, writes)) && CellsOk(own, Next(s, g, c, writes), tok)
  {
    hide CellOk, TokenOk, OwnersOk;
    Curs(own, s, g, c, writes);
  }

  // ---- Nobody serves while a move is pending ----

  lemma Frozen(own: Owners, s: State, tok: nat, g: int, m: nat)
    requires Ready(own, s) && Moves(own, m) && own[m] in s.past && own[m - 1] in s.past && g in s.past
    requires KeptAt(own, s, tok, m) && Cur(s, own[m - 1]).num >= m && Pending(own, s, m)
    requires TokenOk(own, g, Cur(s, g), tok)
    ensures !Serves(own, g, Cur(s, g))
  {
    hide OwnersOk, Pending;
  }

  /** Where a move is pending and its old owner has let go, neither the data nor the writes change. */
  ghost predicate StillAt(own: Owners, s: State, g: int, c: Cell, writes: seq<Write>, m: nat)
    requires Ready(own, s) && g in s.past && Moves(own, m) && own[m] in s.past && own[m - 1] in s.past
  {
    Pending(own, s, m) && Cur(s, own[m - 1]).num >= m ==>
      writes == s.writes && (g == own[m - 1] ==> c.kv == Cur(s, g).kv)
  }

  ghost predicate Still(own: Owners, s: State, g: int, c: Cell, writes: seq<Write>)
    requires Ready(own, s) && g in s.past
  {
    forall m: nat | Moves(own, m) :: own[m] in s.past && own[m - 1] in s.past && StillAt(own, s, g, c, writes, m)
  }

  lemma HolderDominates(own: Owners, s: State, tok: nat, m: nat)
    requires Ready(own, s) && Moves(own, m) && own[m] in s.past && own[m - 1] in s.past
    requires HolderOk(own, s, tok) && KeptAt(own, s, tok, m) && Cur(s, own[m - 1]).num >= m && Pending(own, s, m)
    ensures tok > 0 && own[tok] == own[m - 1]
    ensures Cur(s, own[m - 1]).kv == Fold(s.writes) && Dominates(Cur(s, own[m - 1]).dup, s.writes)
  {
    hide Fold, Dominates, OncePerClient, Pending, Holds;
  }

  lemma PushRead(own: Owners, s: State, tok: nat, g: int, c: Cell, writes: seq<Write>, m: nat)
    requires Ready(own, s) && g in s.past && Moves(own, m) && own[m] in s.past && own[m - 1] in s.past
    requires GroupPastOk(own, s, own[m - 1]) && ReadsOk(own, s, m) && StillAt(own, s, g, c, writes, m)
             && Follows(Cur(s, g), c)
    requires var s' := Next(s, g, c, writes);
             Ready(own, s') && s'.past.Keys == s.past.Keys && HolderOk(own, s', tok) && KeptAt(own, s', tok, m)
    ensures ReadsOk(own, Next(s, g, c, writes), m)
  {
    hide OwnersOk, HolderOk, Pending, Dominates, KeptAt, CellOk;
    var s' := Next(s, g, c, writes);
    Curs(own, s, g, c, writes);
    PendingPush(own, s, g, c, writes, m);
    var P := own[m - 1];
    forall k | 0 <= k < |s'.past[P]| ensures ReadOk(own, s', m, s'.past[P][k]) {
      if Pending(own, s', m) && s'.past[P][k].num >= m {
        if k < |s.past[P]| {
          assert PastOk(own, s, P, s.past[P][k]) && ReadOk(own, s, m, s.past[P][k]);
        } else {
          HolderDominates(own, s', tok, m);
        }
      }
    }
  }

  lemma PushMig(own: Owners, s: State, g: int, c: Cell, writes: seq<Write>, mig: Mig)
    requires Ready(own, s) && g in s.past && MigOk(own, s, mig) && Follows(Cur(s, g), c)
    requires own[mig.num] in s.past && own[mig.num - 1] in s.past && StillAt(own, s, g, c, writes, mig.num)
    ensures Ready(own, Next(s, g, c, writes)) && MigOk(own, Next(s, g, c, writes), mig)
  {
    hide OwnersOk, Pending, Dominates;
    Curs(own, s, g, c, writes);
    PendingPush(own, s, g, c, writes, mig.num);
  }

  /** What a new cell has to meet. */
  lemma PushInv(own: Owners, s: State, tok: nat, g: int, c: Cell, writes: seq<Write>, tok': nat)
    requires Inv(own, s, tok) && g in s.past && CellOk(own, g, c) && Follows(Cur(s, g), c)
             && Still(own, s, g, c, writes)
    requires var s' := Next(s, g, c, writes);
             && Ready(own, s') && CellsOk(own, s', tok') && HolderOk(own, s', tok') && AllKept(own, s', tok')
                && AllReached(own, s', tok')
    ensures Inv(own, Next(s, g, c, writes), tok')
  {
    hide OwnersOk, HolderOk, CellOk, KeptAt, Follows, GroupPastOk, ReadsOk, MigOk, GcOk, StillAt, CellsOk, AllReached,
      Moves;
    var s' := Next(s, g, c, writes);
    Curs(own, s, g, c, writes);
    forall h | h in s'.past ensures GroupPastOk(own, s', h) {
      PushGroupPast(own, s, g, c, writes, h);
    }
    forall m: nat | Moves(own, m) ensures ReadsOk(own, s', m) {
      OwnersIn(own, s, m);
      PushRead(own, s, tok', g, c, writes, m);
    }
    forall mig | mig in s'.migs ensures MigOk(own, s', mig) {
      assert Moves(own, mig.num) by { MigMoves(own, s, mig); }
      PushMig(own, s, g, c, writes, mig);
    }
    forall gc | gc in s'.gcs ensures GcOk(own, s', gc.num) {
      PushGcs(own, s, g, c, writes, gc);
    }
  }

  lemma MigMoves(own: Owners, s: State, mig: Mig)
    requires Ready(own, s) && MigOk(own, s, mig)
    ensures Moves(own, mig.num)
  {
  }

  // ---- Owners over time ----

  lemma {:induction false} NobodyBefore(own: Owners, gids: set<int>, k: nat, n: nat)
    requires OwnersOk(own, gids) && k <= n < |own| && own[n] == 0
    ensures own[k] == 0
  {
    if k < n {
      NobodyBefore(own, gids, k, n - 1);
    }
  }

  /** A change of owner at `k` starts a tenure that later ones do not precede. */
  lemma SinceAfter(own: Owners, k: nat, m: nat)
    requires 0 < k <= m < |own| && own[k] != own[k - 1]
    ensures Since(own, m) >= k
  {
  }

  // ---- Steps that change neither status nor configuration ----

  lemma SameKept(own: Owners, s: State, tok: nat, g: int, c: Cell, writes: seq<Write>)
    requires Ready(own, s) && g in s.past && AllKept(own, s, tok) && c.num == Cur(s, g).num
             && c.status == Cur(s, g).status
    ensures Ready(own, Next(s, g, c, writes)) && AllKept(own, Next(s, g, c, writes), tok)
  {
    hide OwnersOk, Since;
    var s' := Next(s, g, c, writes);
    Curs(own, s, g, c, writes);
    forall m: nat | Moves(own, m) ensures KeptAt(own, s', tok, m) {
      OwnersIn(own, s, m);
      assert KeptAt(own, s, tok, m);
    }
  }

  lemma GrowInv(own: Owners, s: State, tok: nat, g: int, dup: Table)
    requires Inv(own, s, tok) && g in s.past && TableLe(Cur(s, g).dup, dup)
    ensures Inv(own, After(own, s, g, Grow(dup)), tok)
  {
    hide PastsOk, MessagesOk, KeptAt, Since, OwnersOk, CellOk, TokenOk, ReachedOk;
    var c := Cur(s, g).(dup := dup);
    GrowCell(own, g, Cur(s, g), dup, tok);
    Curs(own, s, g, c, s.writes);
    PushCells(own, s, tok, g, c, s.writes);
    SameKept(own, s, tok, g, c, s.writes);
    PushReached(own, s, tok, g, c, s.writes);
    GrowHolder(own, s, tok, g, dup);
    forall m: nat | Moves(own, m) ensures own[m] in s.past && own[m - 1] in s.past
      && StillAt(own, s, g, c, s.writes, m)
    {
      OwnersIn(own, s, m);
    }
    PushInv(own, s, tok, g, c, s.writes, tok);
    assert Next(s, g, c, s.writes) == After(own, s, g, Grow(dup));
  }

  lemma GrowCell(own: Owners, g: int, c: Cell, dup: Table, tok: nat)
    requires CellOk(own, g, c) && TokenOk(own, g, c, tok)
    ensures CellOk(own, g, c.(dup := dup)) && TokenOk(own, g, c.(dup := dup), tok)
  {
  }

  lemma GrowHolder(own: Owners, s: State, tok: nat, g: int, dup: Table)
    requires Ready(own, s) && g in s.past && HolderOk(own, s, tok) && TableLe(Cur(s, g).dup, dup)
    ensures Ready(own, Next(s, g, Cur(s, g).(dup := dup), s.writes))
    ensures HolderOk(own, Next(s, g, Cur(s, g).(dup := dup), s.writes), tok)
  {
    hide Fold, Since, OwnersOk, OncePerClient;
    Curs(own, s, g, Cur(s, g).(dup := dup), s.writes);
  }

  lemma AcceptHolder(own: Owners, s: State, tok: nat, g: int, w: Write)
    requires Ready(own, s) && g in s.past && HolderOk(own, s, tok) && TokenOk(own, g, Cur(s, g), tok)
    requires CanStep(own, s, g, Accept(w))
    ensures HolderOk(own, After(own, s, g, Accept(w)), tok) && tok > 0 && own[tok] == g
  {
    hide Fold, Since, Put;
    var c := Cur(s, g);
    var c' := c.(kv := Put(c.kv, w), dup := c.dup[w.client := w.seqId]);
    Curs(own, s, g, c', s.writes + [w]);
    assert tok == Since(own, c.num);
    FoldSnoc(s.writes, w);
    AcceptTable(c.dup, s.writes, w);
  }

  lemma FoldSnoc(writes: seq<Write>, w: Write)
    ensures Fold(writes + [w]) == Put(Fold(writes), w)
  {
    assert (writes + [w])[..|writes|] == writes;
  }

  /** A write that is not in the table extends the writes the table dominates. */
  lemma AcceptTable(dup: Table, writes: seq<Write>, w: Write)
    requires Dominates(dup, writes) && OncePerClient(writes) && !Duplicated(dup, w.client, w.seqId)
    ensures Dominates(dup[w.client := w.seqId], writes + [w]) && OncePerClient(writes + [w])
  {
    var dup', writes' := dup[w.client := w.seqId], writes + [w];
    forall i | 0 <= i < |writes'| ensures Duplicated(dup', writes'[i].client, writes'[i].seqId) {
      if i < |writes| {
        assert Duplicated(dup, writes[i].client, writes[i].seqId);
      }
    }
    forall i, j | 0 <= i < j < |writes'| && writes'[i].client == writes'[j].client
      ensures writes'[i].seqId < writes'[j].seqId
    {
      if j == |writes| {
        assert Duplicated(dup, writes[i].client, writes[i].seqId);
      }
    }
  }

  lemma AcceptInv(own: Owners, s: State, tok: nat, g: int, w: Write)
    requires Inv(own, s, tok) && g in s.past && CanStep(own, s, g, Accept(w))
    ensures Inv(own, After(own, s, g, Accept(w)), tok)
  {
    hide PastsOk, MessagesOk, KeptAt, Since, OwnersOk, CellOk, TokenOk, ReachedOk, HolderOk, Put;
    var c0 := Cur(s, g);
    var c := c0.(kv := Put(c0.kv, w), dup := c0.dup[w.client := w.seqId]);
    var writes := s.writes + [w];
    AcceptCell(own, g, c0, c.kv, c.dup, tok);
    Curs(own, s, g, c, writes);
    PushCells(own, s, tok, g, c, writes);
    SameKept(own, s, tok, g, c, writes);
    PushReached(own, s, tok, g, c, writes);
    AcceptHolder(own, s, tok, g, w);
    forall m: nat | Moves(own, m) ensures own[m] in s.past && own[m - 1] in s.past && StillAt(own, s, g, c, writes, m) {
      OwnersIn(own, s, m);
      if Pending(own, s, m) && Cur(s, own[m - 1]).num >= m {
        Frozen(own, s, tok, g, m);
        assert false;
      }
    }
    assert Next(s, g, c, writes) == After(own, s, g, Accept(w));
    PushInv(own, s, tok, g, c, writes, tok);
  }

  lemma AcceptCell(own: Owners, g: int, c: Cell, kv: Data, dup: Table, tok: nat)
    requires CellOk(own, g, c) && TokenOk(own, g, c, tok) && Serves(own, g, c)
    ensures CellOk(own, g, c.(kv := kv, dup := dup)) && TokenOk(own, g, c.(kv := kv, dup := dup), tok)
  {
  }
}
