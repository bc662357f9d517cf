/** The steps that move the shard keep the invariant. */
module MigrationMoves {
  import opened MigrationCore
  import opened MigrationSteps

  // ---- Cleaning up ----

  ghost function Cleaned(c: Cell): Cell {
    c.(status := Normal, kv := if c.status == MoveOut then map[] else c.kv)
  }

  lemma CleanCell(own: Owners, g: int, c: Cell, tok: nat)
    requires CellOk(own, g, c) && TokenOk(own, g, c, tok) && (c.status == GC || c.status == MoveOut)
    ensures CellOk(own, g, Cleaned(c)) && TokenOk(own, g, Cleaned(c), tok) && Follows(c, Cleaned(c))
  {
    hide Since;
  }

  /** An old owner cleans up only after the new one has taken the shard. */
  lemma CleanNotPending(own: Owners, s: State, tok: nat, g: int)
    requires Inv(own, s, tok) && g in s.past && CanStep(own, s, g, Clean)
    ensures Moves(own, Cur(s, g).num) && own[Cur(s, g).num] in s.past && !Pending(own, s, Cur(s, g).num)
            && tok >= Cur(s, g).num
  {
    hide CellsOk, HolderOk, PastsOk, AllReached, OwnersOk;
    var m := Cur(s, g).num;
    assert GcOk(own, s, m);
    OwnersIn(own, s, m);
    assert KeptAt(own, s, tok, m);
  }

  lemma CleanKept(own: Owners, s: State, tok: nat, g: int, m: nat)
    requires Ready(own, s) && g in s.past && Moves(own, m) && own[m] in s.past && own[m - 1] in s.past
             && KeptAt(own, s, tok, m)
    requires var c := Cur(s, g); (c.status == GC || c.status == MoveOut) && (c.num == m ==> !Pending(own, s, m))
    requires Ready(own, Next(s, g, Cleaned(Cur(s, g)), s.writes))
    ensures KeptAt(own, Next(s, g, Cleaned(Cur(s, g)), s.writes), tok, m)
  {
    hide OwnersOk, Since;
    Curs(own, s, g, Cleaned(Cur(s, g)), s.writes);
  }

  lemma CleanHolder(own: Owners, s: State, tok: nat, g: int)
    requires Ready(own, s) && g in s.past && HolderOk(own, s, tok) && CellOk(own, g, Cur(s, g))
    requires var c := Cur(s, g); (c.status == GC || c.status == MoveOut) && tok >= c.num
    requires Ready(own, Next(s, g, Cleaned(Cur(s, g)), s.writes))
    ensures HolderOk(own, Next(s, g, Cleaned(Cur(s, g)), s.writes), tok)
  {
    hide OwnersOk, Fold, Dominates, OncePerClient;
    Curs(own, s, g, Cleaned(Cur(s, g)), s.writes);
  }

  lemma CleanInv(own: Owners, s: State, tok: nat, g: int)
    requires Inv(own, s, tok) && g in s.past && CanStep(own, s, g, Clean)
    ensures Inv(own, After(own, s, g, Clean), tok)
  {
    hide PastsOk, MessagesOk, KeptAt, Since, OwnersOk, CellOk, TokenOk, ReachedOk, HolderOk, Pending;
    var c := Cleaned(Cur(s, g));
    CleanNotPending(own, s, tok, g);
    CleanCell(own, g, Cur(s, g), tok);
    Curs(own, s, g, c, s.writes);
    PushCells(own, s, tok, g, c, s.writes);
    PushReached(own, s, tok, g, c, s.writes);
    CleanHolder(own, s, tok, g);
    forall m: nat | Moves(own, m)
      ensures own[m] in s.past && own[m - 1] in s.past && StillAt(own, s, g, c, s.writes, m)
      ensures KeptAt(own, Next(s, g, c, s.writes), tok, m)
    {
      OwnersIn(own, s, m);
      CleanKept(own, s, tok, g, m);
      CleanStill(own, s, tok, g, m);
    }
    PushInv(own, s, tok, g, c, s.writes, tok);
    assert Next(s, g, c, s.writes) == After(own, s, g, Clean);
  }

  lemma CleanStill(own: Owners, s: State, tok: nat, g: int, m: nat)
    requires Ready(own, s) && g in s.past && Moves(own, m) && own[m] in s.past && own[m - 1] in s.past
             && KeptAt(own, s, tok, m)
    requires Cur(s, g).num == m ==> !Pending(own, s, m)
    ensures StillAt(own, s, g, Cleaned(Cur(s, g)), s.writes, m)
  {
    hide OwnersOk, Since, Pending;
  }

  // ---- Taking the data ----

  ghost predicate Taking(own: Owners, s: State, tok: nat, g: int, mig: Mig, dup: Table) {
    Inv(own, s, tok) && g in s.past && CanStep(own, s, g, Take(mig, dup))
  }

  /** When the data arrive, the old owner holds them, frozen. */
  lemma TakeFacts(own: Owners, s: State, tok: nat, g: int, mig: Mig, dup: Table)
    requires Taking(own, s, tok, g, mig, dup)
    ensures var m := mig.num;
            && Moves(own, m) && own[m] == g && own[m - 1] in s.past && Pending(own, s, m)
            && Cur(s, own[m - 1]).num == m && Cur(s, own[m - 1]).status == MoveOut && tok == Since(own, m - 1)
            && tok < m && Cur(s, g).kv == map[] && mig.kv == Fold(s.writes) && Dominates(mig.dup, s.writes)
  {
    hide PastsOk, AllReached, OwnersOk, Fold, Dominates, OncePerClient, HolderOk, Since;
    var m := mig.num;
    assert MigOk(own, s, mig);
    OwnersIn(own, s, m);
    assert KeptAt(own, s, tok, m);
    HolderDominates(own, s, tok, m);
    assert CellOk(own, g, Cur(s, g));
  }

  ghost function Taken(c: Cell, mig: Mig, dup: Table): Cell {
    Cell(c.num, GC, c.kv + mig.kv, dup)
  }

  /** No other group serves the shard, and those that wait for it wait for a later move. */
  lemma TakeOthers(own: Owners, s: State, tok: nat, g: int, m: nat, h: int)
    requires Ready(own, s) && Moves(own, m) && own[m] == g && own[m - 1] in s.past && tok == Since(own, m - 1)
             && h in s.past && h != g
    requires Cur(s, own[m - 1]).num == m && Cur(s, own[m - 1]).status == MoveOut
    requires CellOk(own, h, Cur(s, h)) && TokenOk(own, h, Cur(s, h), tok)
    ensures TokenOk(own, h, Cur(s, h), m)
  {
    hide OwnersOk, Since;
  }

  lemma TakeKept(own: Owners, s: State, tok: nat, g: int, m: nat, c: Cell, k: nat)
    requires Ready(own, s) && g in s.past && Moves(own, m) && own[m] == g && tok == Since(own, m - 1) && tok < m
    requires Cur(s, g).num == m && c.num == m && c.status == GC && Ready(own, Next(s, g, c, s.writes))
    requires Moves(own, k) && own[k] in s.past && own[k - 1] in s.past && KeptAt(own, s, tok, k)
    ensures KeptAt(own, Next(s, g, c, s.writes), m, k)
  {
    hide OwnersOk, Since;
    Curs(own, s, g, c, s.writes);
    if k < m {
      SinceAfter(own, k, m - 1);
    } else if k > m {
      SinceAfter(own, m, k - 1);
    }
  }

  lemma TakeReached(own: Owners, s: State, tok: nat, g: int, m: nat, c: Cell)
    requires Ready(own, s) && g in s.past && Moves(own, m) && own[m] == g && g != 0 && tok == Since(own, m - 1)
    requires AllReached(own, s, tok) && Follows(Cur(s, g), c) && c.num == m
    ensures Ready(own, Next(s, g, c, s.writes)) && AllReached(own, Next(s, g, c, s.writes), m)
  {
    hide OwnersOk, Since;
    var s' := Next(s, g, c, s.writes);
    Curs(own, s, g, c, s.writes);
    PushReached(own, s, tok, g, c, s.writes);
    forall k: nat ensures ReachedOk(own, s', m, k) {
      assert ReachedOk(own, s', tok, k);
      if 0 < k < m && own[k] != own[k - 1] {
        SinceAfter(own, k, m - 1);
      }
    }
  }

  lemma TakeHolder(own: Owners, s: State, tok: nat, g: int, mig: Mig, dup: Table)
    requires Taking(own, s, tok, g, mig, dup)
    ensures var c := Taken(Cur(s, g), mig, dup);
            && Ready(own, Next(s, g, c, s.writes)) && HolderOk(own, Next(s, g, c, s.writes), mig.num)
            && CellOk(own, g, c) && TokenOk(own, g, c, mig.num)
  {
    hide CellsOk, PastsOk, MessagesOk, AllReached, AllKept, Fold, OncePerClient;
    TakeFacts(own, s, tok, g, mig, dup);
    var c := Taken(Cur(s, g), mig, dup);
    Curs(own, s, g, c, s.writes);
    assert map[] + mig.kv == mig.kv;
    SinceAfter(own, mig.num, mig.num);
    MoreDominates(mig.dup, dup, s.writes);
  }

  lemma MoreDominates(a: Table, b: Table, writes: seq<Write>)
    requires TableLe(a, b) && Dominates(a, writes)
    ensures Dominates(b, writes)
  {
  }

  lemma TakeInv(own: Owners, s: State, tok: nat, g: int, mig: Mig, dup: Table)
    requires Taking(own, s, tok, g, mig, dup)
    ensures Inv(own, After(own, s, g, Take(mig, dup)), mig.num)
  {
    hide PastsOk, MessagesOk, KeptAt, Since, OwnersOk, CellOk, TokenOk, ReachedOk, HolderOk, Fold, Dominates;
    var c, m := Taken(Cur(s, g), mig, dup), mig.num;
    TakeFacts(own, s, tok, g, mig, dup);
    TakeHolder(own, s, tok, g, mig, dup);
    Curs(own, s, g, c, s.writes);
    var s' := Next(s, g, c, s.writes);
    forall h | h in s'.past ensures CellOk(own, h, Cur(s', h)) && TokenOk(own, h, Cur(s', h), m) {
      if h != g {
        TakeOthers(own, s, tok, g, m, h);
      }
    }
    OwnersIn(own, s, m);
    TakeReached(own, s, tok, g, m, c);
    forall k: nat | Moves(own, k)
      ensures own[k] in s.past && own[k - 1] in s.past && StillAt(own, s, g, c, s.writes, k)
      ensures KeptAt(own, s', m, k)
    {
      OwnersIn(own, s, k);
      TakeKept(own, s, tok, g, m, c, k);
      TakeStill(own, s, tok, g, c, k);
    }
    PushInv(own, s, tok, g, c, s.writes, m);
    assert s' == After(own, s, g, Take(mig, dup));
  }

  lemma TakeStill(own: Owners, s: State, tok: nat, g: int, c: Cell, k: nat)
    requires Ready(own, s) && g in s.past && Cur(s, g).status == MoveIn
    requires Moves(own, k) && own[k] in s.past && own[k - 1] in s.past && KeptAt(own, s, tok, k)
    ensures StillAt(own, s, g, c, s.writes, k)
  {
    hide OwnersOk, Since, Pending;
  }

  // ---- Messages ----

  lemma PullInv(own: Owners, s: State, tok: nat, g: int, k: nat, from: int, j: nat)
    requires Inv(own, s, tok) && g in s.past && CanStep(own, s, g, Pull(k, from, j))
    ensures Inv(own, After(own, s, g, Pull(k, from, j)), tok)
  {
    hide Since, Dominates, TokenOk, Fold, OncePerClient, Holds;
    var s' := After(own, s, g, Pull(k, from, j));
    var r, p := s.past[g][k], s.past[from][j];
    assert GroupPastOk(own, s, g) && GroupPastOk(own, s, from);
    assert PastOk(own, s, g, r) && PastOk(own, s, from, p);
    assert Moves(own, r.num);
    assert ReadsOk(own, s, r.num);
    assert ReadOk(own, s, r.num, p);
    SameCells(own, s, s', tok);
    assert MigOk(own, s', Mig(g, r.num, p.kv, p.dup));
  }

  lemma OrderInv(own: Owners, s: State, tok: nat, g: int, k: nat, to: int)
    requires Inv(own, s, tok) && g in s.past && CanStep(own, s, g, Order(k, to))
    ensures Inv(own, After(own, s, g, Order(k, to)), tok)
  {
    hide Since, Dominates, TokenOk, Fold, OncePerClient, Holds;
    var s' := After(own, s, g, Order(k, to));
    var r := s.past[g][k];
    assert GroupPastOk(own, s, g);
    assert PastOk(own, s, g, r);
    SameCells(own, s, s', tok);
    assert GcOk(own, s', r.num);
  }

  /** What does not depend on the messages. */
  lemma SameCells(own: Owners, s: State, s': State, tok: nat)
    requires Inv(own, s, tok) && s'.past == s.past && s'.writes == s.writes
    ensures Ready(own, s') && CellsOk(own, s', tok) && HolderOk(own, s', tok) && AllKept(own, s', tok)
            && PastsOk(own, s') && AllReached(own, s', tok)
    ensures forall mig | mig in s.migs :: MigOk(own, s', mig)
    ensures forall gc | gc in s.gcs :: GcOk(own, s', gc.num)
  {
    hide Since, Dominates, TokenOk, CellOk, Fold, OncePerClient, Holds, Serves, Moves, OwnersOk, Earlier;
    forall k: nat ensures ReachedOk(own, s', tok, k) {
      assert ReachedOk(own, s, tok, k);
    }
  }

  // ---- The next configuration ----

  /** The shard gets its first owner. */
  ghost predicate First(own: Owners, g: int, c: Cell) {
    c.num + 1 < |own| && own[c.num] == 0 && own[c.num + 1] == g
  }

  ghost function NextTok(own: Owners, g: int, c: Cell, tok: nat): nat {
    if First(own, g, c) then c.num + 1 else tok
  }

  /** Before its first owner, nobody has had the shard. */
  lemma FirstIsFirst(own: Owners, s: State, tok: nat, g: int)
    requires Inv(own, s, tok) && g in s.past && First(own, g, Cur(s, g))
    ensures tok == 0 && forall k: nat | k <= Cur(s, g).num :: own[k] == 0
  {
    hide CellsOk, AllKept, PastsOk, MessagesOk, Fold, Dominates, OncePerClient, Since;
    var n := Cur(s, g).num;
    forall k: nat | k <= n ensures own[k] == 0 {
      NobodyBefore(own, s.past.Keys, k, n);
    }
    assert ReachedOk(own, s, tok, n + 1);
  }

  /** A group that is about to wait for the shard is not behind the holder. */
  lemma NotBehind(own: Owners, s: State, tok: nat, g: int)
    requires Ready(own, s) && g in s.past && AllReached(own, s, tok)
    requires var n := Cur(s, g).num; n + 1 < |own| && own[n] != g && own[n + 1] == g
    ensures tok <= Cur(s, g).num
  {
    hide OwnersOk;
    assert ReachedOk(own, s, tok, Cur(s, g).num + 1);
  }

  lemma AdvanceCell(own: Owners, s: State, tok: nat, g: int)
    requires Inv(own, s, tok) && g in s.past && CanStep(own, s, g, Advance)
    ensures var c := Advanced(own, g, Cur(s, g));
            CellOk(own, g, c) && TokenOk(own, g, c, NextTok(own, g, Cur(s, g), tok)) && Follows(Cur(s, g), c)
  {
    hide PastsOk, MessagesOk, HolderOk, AllKept, ReachedOk;
    var c0 := Cur(s, g);
    assert CellOk(own, g, c0) && TokenOk(own, g, c0, tok);
    if own[c0.num] != g && own[c0.num + 1] == g {
      NotBehind(own, s, tok, g);
    }
  }

  lemma FirstOthers(own: Owners, s: State, tok: nat, g: int, h: int)
    requires Ready(own, s) && g in s.past && First(own, g, Cur(s, g)) && h in s.past && h != g
    requires tok == 0 && (forall k: nat | k <= Cur(s, g).num :: own[k] == 0)
    requires CellOk(own, h, Cur(s, h)) && TokenOk(own, h, Cur(s, h), tok)
    ensures TokenOk(own, h, Cur(s, h), Cur(s, g).num + 1)
  {
    hide Since;
  }

  lemma AdvanceCells(own: Owners, s: State, tok: nat, g: int)
    requires Inv(own, s, tok) && g in s.past && CanStep(own, s, g, Advance)
    ensures var s' := Next(s, g, Advanced(own, g, Cur(s, g)), s.writes);
            Ready(own, s') && CellsOk(own, s', NextTok(own, g, Cur(s, g), tok))
  {
    hide PastsOk, MessagesOk, HolderOk, AllKept, AllReached, CellOk, TokenOk, OwnersOk, Advanced;
    var c := Advanced(own, g, Cur(s, g));
    var s', tok' := Next(s, g, c, s.writes), NextTok(own, g, Cur(s, g), tok);
    AdvanceCell(own, s, tok, g);
    Curs(own, s, g, c, s.writes);
    forall h | h in s'.past ensures CellOk(own, h, Cur(s', h)) && TokenOk(own, h, Cur(s', h), tok') {
      if h != g && First(own, g, Cur(s, g)) {
        FirstIsFirst(own, s, tok, g);
        FirstOthers(own, s, tok, g, h);
      }
    }
  }

  lemma AdvanceHolder(own: Owners, s: State, tok: nat, g: int)
    requires Inv(own, s, tok) && g in s.past && CanStep(own, s, g, Advance)
    ensures var s' := Next(s, g, Advanced(own, g, Cur(s, g)), s.writes);
            Ready(own, s') && HolderOk(own, s', NextTok(own, g, Cur(s, g), tok))
  {
    hide PastsOk, MessagesOk, AllKept, AllReached, Fold, Dominates, OncePerClient;
    var c := Advanced(own, g, Cur(s, g));
    Curs(own, s, g, c, s.writes);
    assert CellOk(own, g, Cur(s, g));
    if First(own, g, Cur(s, g)) {
      FirstIsFirst(own, s, tok, g);
      NoWrites(c.dup);
    }
  }

  lemma NoWrites(dup: Table)
    ensures Fold([]) == map[] && Dominates(dup, [])
  {
  }

  lemma AdvanceReached(own: Owners, s: State, tok: nat, g: int)
    requires Inv(own, s, tok) && g in s.past && CanStep(own, s, g, Advance)
    ensures var s' := Next(s, g, Advanced(own, g, Cur(s, g)), s.writes);
            Ready(own, s') && AllReached(own, s', NextTok(own, g, Cur(s, g), tok))
  {
    hide PastsOk, MessagesOk, AllKept, HolderOk, CellsOk, OwnersOk;
    var c := Advanced(own, g, Cur(s, g));
    var s' := Next(s, g, c, s.writes);
    Curs(own, s, g, c, s.writes);
    PushReached(own, s, tok, g, c, s.writes);
    if First(own, g, Cur(s, g)) {
      FirstIsFirst(own, s, tok, g);
      assert g != 0 by { NotZero(own, s, g); }
      forall k: nat ensures ReachedOk(own, s', c.num, k) {
      }
    }
  }

  lemma NotZero(own: Owners, s: State, g: int)
    requires Ready(own, s) && g in s.past
    ensures g != 0
  {
  }

  lemma AdvanceKept(own: Owners, s: State, tok: nat, g: int, m: nat)
    requires Ready(own, s) && g in s.past && CanStep(own, s, g, Advance) && !First(own, g, Cur(s, g))
    requires Moves(own, m) && own[m] in s.past && own[m - 1] in s.past && own[m] != 0 && KeptAt(own, s, tok, m)
    requires TokenOk(own, g, Cur(s, g), tok) && Ready(own, Next(s, g, Advanced(own, g, Cur(s, g)), s.writes))
    ensures KeptAt(own, Next(s, g, Advanced(own, g, Cur(s, g)), s.writes), tok, m)
  {
    hide OwnersOk, Since;
    Curs(own, s, g, Advanced(own, g, Cur(s, g)), s.writes);
  }

  /** With the first owner, every move is still to come. */
  lemma FirstKept(own: Owners, s: State, tok: nat, g: int, m: nat)
    requires Ready(own, s) && g in s.past && First(own, g, Cur(s, g)) && tok == 0
             && (forall k: nat | k <= Cur(s, g).num :: own[k] == 0)
    requires Moves(own, m) && own[m] in s.past && own[m - 1] in s.past && KeptAt(own, s, tok, m)
    requires Ready(own, Next(s, g, Advanced(own, g, Cur(s, g)), s.writes))
    ensures KeptAt(own, Next(s, g, Advanced(own, g, Cur(s, g)), s.writes), Cur(s, g).num + 1, m)
  {
    hide OwnersOk, Since;
    Curs(own, s, g, Advanced(own, g, Cur(s, g)), s.writes);
    assert m > Cur(s, g).num + 1;
  }

  lemma AdvanceInv(own: Owners, s: State, tok: nat, g: int)
    requires Inv(own, s, tok) && g in s.past && CanStep(own, s, g, Advance)
    ensures Inv(own, After(own, s, g, Advance), NextTok(own, g, Cur(s, g), tok))
  {
    hide PastsOk, MessagesOk, KeptAt, Since, OwnersOk, CellOk, TokenOk, AllReached, HolderOk, Advanced, Follows;
    var c, tok' := Advanced(own, g, Cur(s, g)), NextTok(own, g, Cur(s, g), tok);
    AdvanceCell(own, s, tok, g);
    AdvanceCells(own, s, tok, g);
    AdvanceHolder(own, s, tok, g);
    AdvanceReached(own, s, tok, g);
    var s' := Next(s, g, c, s.writes);
    if First(own, g, Cur(s, g)) {
      FirstIsFirst(own, s, tok, g);
    }
    forall m: nat | Moves(own, m)
      ensures own[m] in s.past && own[m - 1] in s.past && StillAt(own, s, g, c, s.writes, m)
      ensures KeptAt(own, s', tok', m)
    {
      OwnersIn(own, s, m);
      AdvancedData(own, g, Cur(s, g));
      if First(own, g, Cur(s, g)) {
        FirstKept(own, s, tok, g, m);
      } else {
        AdvanceKept(own, s, tok, g, m);
      }
    }
    PushInv(own, s, tok, g, c, s.writes, tok');
    assert s' == After(own, s, g, Advance);
  }

  lemma AdvancedData(own: Owners, g: int, c: Cell)
    requires c.num + 1 < |own|
    ensures Advanced(own, g, c).kv == c.kv
  {
  }

  // ---- All steps ----

  /** Every step keeps the invariant, and the holder never goes back. */
  lemma StepInv(own: Owners, s: State, tok: nat, g: int, a: Step) returns (tok': nat)
    requires GroupsOk(s) && Inv(own, s, tok) && g in s.past && CanStep(own, s, g, a)
    ensures Inv(own, After(own, s, g, a), tok')
  {
    hide Inv, After;
    match a
    case Accept(w) => AcceptInv(own, s, tok, g, w); tok' := tok;
    case Grow(dup) => GrowInv(own, s, tok, g, dup); tok' := tok;
    case Advance => AdvanceInv(own, s, tok, g); tok' := NextTok(own, g, Cur(s, g), tok);
    case Take(mig, dup) => TakeInv(own, s, tok, g, mig, dup); tok' := mig.num;
    case Clean => CleanInv(own, s, tok, g); tok' := tok;
    case Pull(k, from, j) => PullInv(own, s, tok, g, k, from, j); tok' := tok;
    case Order(k, to) => OrderInv(own, s, tok, g, k, to); tok' := tok;
    case Nothing => tok' := tok; assert After(own, s, g, a) == s by { NothingChanges(own, s, g); }
  }

  lemma NothingChanges(own: Owners, s: State, g: int)
    requires GroupsOk(s) && g in s.past
    ensures After(own, s, g, Nothing) == s
  {
  }
}
