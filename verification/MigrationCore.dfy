/** One shard of the sharded store, as it moves between replica groups: the cells of the groups, the
    messages about the shard, and the writes accepted on it. */
module MigrationCore {

  type Client = int
  type Table = map<Client, int>          // the last sequence number applied for each client
  type Data = map<string, string>

  datatype Status = Normal | MoveIn | MoveOut | GC

  datatype Write = Write(client: Client, seqId: int, key: string, value: string, append: bool)

  /** What one group knows about the shard: its configuration number, and the shard's status and data. */
  datatype Cell = Cell(num: nat, status: Status, kv: Data, dup: Table)

  /** Data of the shard, read at the group that owned it before configuration `num`, for the group `to`. */
  datatype Mig = Mig(to: int, num: nat, kv: Data, dup: Table)

  /** An order to clean up after the move into configuration `num`. */
  datatype Gc = Gc(to: int, num: nat)

  /** All cells each group has had, the current one last. */
  datatype State = State(past: map<int, seq<Cell>>, migs: set<Mig>, gcs: set<Gc>, writes: seq<Write>)

  /** Who owns the shard in each configuration; 0 for nobody. */
  type Owners = seq<int>

  function Get(kv: Data, key: string): string {
    if key in kv then kv[key] else ""
  }

  function Put(kv: Data, w: Write): Data {
    kv[w.key := if w.append then Get(kv, w.key) + w.value else w.value]
  }

  /** The data that a sequence of writes makes. */
  function Fold(writes: seq<Write>): Data {
    if writes == [] then map[] else Put(Fold(writes[..|writes| - 1]), writes[|writes| - 1])
  }

  lemma FoldMore(writes: seq<Write>, w: Write)
    ensures Fold(writes + [w]) == Put(Fold(writes), w)
  {
    assert (writes + [w])[..|writes|] == writes;
  }

  /** The keys of the data are those that have been written. */
  lemma {:induction false} FoldKeys(writes: seq<Write>, key: string)
    ensures key in Fold(writes) <==> exists x :: x in writes && x.key == key
  {
    if writes != [] {
      var r, x := writes[..|writes| - 1], writes[|writes| - 1];
      FoldKeys(r, key);
      assert writes == r + [x];
      if key in Fold(r) {
        var y :| y in r && y.key == key;
        assert y in writes;
      }
    }
  }

  lemma OneWrite(w: Write)
    ensures Fold([w]) == Put(map[], w) && Put(map[], w) != map[]
  {
    assert [w][..0] == [];
    assert w.key in Put(map[], w);
  }

  predicate Duplicated(dup: Table, client: Client, seqId: int) {
    client in dup && seqId <= dup[client]
  }

  /** Each client's writes come with growing sequence numbers: none is accepted twice. */
  ghost predicate OncePerClient(writes: seq<Write>) {
    forall i, j | 0 <= i < j < |writes| && writes[i].client == writes[j].client :: writes[i].seqId < writes[j].seqId
  }

  ghost predicate Dominates(dup: Table, writes: seq<Write>) {
    forall i | 0 <= i < |writes| :: Duplicated(dup, writes[i].client, writes[i].seqId)
  }

  ghost predicate TableLe(a: Table, b: Table) {
    forall c | c in a :: c in b && a[c] <= b[c]
  }

  // ---- Owners ----

  ghost predicate OwnersOk(own: Owners, gids: set<int>) {
    && |own| > 0 && own[0] == 0 && 0 !in gids
    && (forall m | 0 <= m < |own| :: own[m] == 0 || own[m] in gids)
    && (forall m | 0 < m < |own| && own[m - 1] != 0 :: own[m] != 0)
  }

  /** The first configuration of the current owner's tenure at `m`. */
  ghost function Since(own: Owners, m: nat): (r: nat)
    requires m < |own|
    ensures r <= m && own[r] == own[m] && (r > 0 ==> own[r - 1] != own[r])
    ensures forall k | r < k <= m :: own[k] == own[k - 1]
  {
    if m == 0 || own[m - 1] != own[m] then m else Since(own, m - 1)
  }

  /** The shard moves from one group to another at `m`. */
  ghost predicate Moves(own: Owners, m: nat) {
    0 < m < |own| && own[m - 1] != 0 && own[m] != own[m - 1]
  }

  // ---- Steps ----

  ghost predicate GroupsOk(s: State) {
    forall g | g in s.past :: |s.past[g]| > 0
  }

  ghost function Cur(s: State, g: int): Cell
    requires GroupsOk(s) && g in s.past
  {
    s.past[g][|s.past[g]| - 1]
  }

  ghost function Push(s: State, g: int, c: Cell): State
    requires g in s.past
  {
    s.(past := s.past[g := s.past[g] + [c]])
  }

  predicate Serves(own: Owners, g: int, c: Cell) {
    c.num < |own| && own[c.num] == g && (c.status == Normal || c.status == GC)
  }

  /** The cell after the next configuration. */
  ghost function Advanced(own: Owners, g: int, c: Cell): Cell
    requires c.num + 1 < |own|
  {
    var o, o' := own[c.num], own[c.num + 1];
    Cell(c.num + 1,
         if o != g && o' == g && o != 0 then MoveIn
         else if o == g && o' != g && o' != 0 then MoveOut
         else c.status,
         c.kv, c.dup)
  }

  datatype Step =
    | Accept(w: Write)                                   // a write on this shard
    | Grow(dup: Table)                                   // the table grows for another reason
    | Advance                                            // the next configuration
    | Take(mig: Mig, dup: Table)                         // the data arrives
    | Clean                                              // the move is cleaned up after
    | Pull(k: nat, from: int, j: nat)                    // data is read for this group, at another
    | Order(k: nat, to: int)                             // a cleaning order for another group or this one
    | Nothing

  ghost predicate CanStep(own: Owners, s: State, g: int, a: Step)
    requires GroupsOk(s) && g in s.past
  {
    var c := Cur(s, g);
    match a
    case Accept(w) => Serves(own, g, c) && !Duplicated(c.dup, w.client, w.seqId)
    case Grow(dup) => TableLe(c.dup, dup)
    case Advance => c.status == Normal && c.num + 1 < |own|
    case Take(mig, dup) =>
      && mig in s.migs && mig.to == g && mig.num == c.num && c.status == MoveIn
      && TableLe(c.dup, dup) && TableLe(mig.dup, dup)
    case Clean => Gc(g, c.num) in s.gcs && (c.status == GC || c.status == MoveOut)
    case Pull(k, from, j) =>
      && k < |s.past[g]| && from in s.past && j < |s.past[from]|
      && s.past[g][k].status == MoveIn && 0 < s.past[g][k].num <= |own| && own[s.past[g][k].num - 1] == from
      && s.past[from][j].num >= s.past[g][k].num
    case Order(k, to) => k < |s.past[g]| && s.past[g][k].status == GC
    case Nothing => true
  }

  ghost function After(own: Owners, s: State, g: int, a: Step): State
    requires GroupsOk(s) && g in s.past && CanStep(own, s, g, a)
  {
    var c := Cur(s, g);
    match a
    case Accept(w) => Push(s, g, c.(kv := Put(c.kv, w), dup := c.dup[w.client := w.seqId])).(writes := s.writes + [w])
    case Grow(dup) => Push(s, g, c.(dup := dup))
    case Advance => Push(s, g, Advanced(own, g, c))
    case Take(mig, dup) => Push(s, g, Cell(c.num, GC, c.kv + mig.kv, dup))
    case Clean => Push(s, g, c.(status := Normal, kv := if c.status == MoveOut then map[] else c.kv))
    case Pull(k, from, j) =>
      s.(migs := s.migs + {Mig(g, s.past[g][k].num, s.past[from][j].kv, s.past[from][j].dup)})
    case Order(k, to) => s.(gcs := s.gcs + {Gc(to, s.past[g][k].num)})
    case Nothing => s
  }

  // ---- The invariant ----
  // `tok` is the configuration at which the group that holds the shard's data got it.

  /** What a cell's status means. */
  ghost predicate CellOk(own: Owners, g: int, c: Cell) {
    && c.num < |own|
    && (c.status == MoveIn ==> Moves(own, c.num) && own[c.num] == g && c.kv == map[])
    && (c.status == GC ==> Moves(own, c.num) && own[c.num] == g)
    && (c.status == MoveOut ==> Moves(own, c.num) && own[c.num - 1] == g)
    && (c.status == Normal && own[c.num] != g ==> c.kv == map[])
  }

  ghost predicate TokenOk(own: Owners, g: int, c: Cell, tok: nat) {
    && (Serves(own, g, c) ==> tok == Since(own, c.num))
    && (c.status == MoveIn ==> tok < c.num)
  }

  /** The configuration in which the group that holds the shard has it: while it serves, or frozen just after. */
  ghost predicate Holds(own: Owners, g: int, c: Cell, tok: nat) {
    || (Serves(own, g, c) && tok == Since(own, c.num))
    || (c.status == MoveOut && 0 < c.num < |own| && own[c.num - 1] == g && tok == Since(own, c.num - 1))
  }

  /** The holder's data are the accepted writes, and its table knows all of them. */
  ghost predicate HolderOk(own: Owners, s: State, tok: nat)
    requires GroupsOk(s)
  {
    && OncePerClient(s.writes)
    && (tok == 0 ==> s.writes == [])
    && (tok > 0 ==>
          && tok < |own| && own[tok] in s.past && own[tok] != own[tok - 1]
          && var c := Cur(s, own[tok]);
             Holds(own, own[tok], c, tok) && c.kv == Fold(s.writes) && Dominates(c.dup, s.writes))
  }

  /** The new owner has not yet taken the shard for `m`. */
  ghost predicate Pending(own: Owners, s: State, m: nat)
    requires GroupsOk(s) && m < |own| && own[m] in s.past
  {
    var c := Cur(s, own[m]);
    c.num < m || (c.num == m && c.status == MoveIn)
  }

  /** Until the new owner has taken the shard, the old one keeps it, frozen. */
  ghost predicate KeptAt(own: Owners, s: State, tok: nat, m: nat)
    requires GroupsOk(s) && OwnersOk(own, s.past.Keys) && Moves(own, m)
  {
    var c := Cur(s, own[m - 1]);
    && (c.num >= m && Pending(own, s, m) ==> c.num == m && c.status == MoveOut && tok == Since(own, m - 1))
    && (!Pending(own, s, m) ==> tok >= m)
  }

  /** `a` was a status of the shard before `b`, in one configuration. */
  predicate Earlier(a: Status, b: Status) {
    a == b || b == Normal || (a == MoveIn && b == GC)
  }

  /** What an earlier cell `p` of group `g` says about the present. */
  ghost predicate PastOk(own: Owners, s: State, g: int, p: Cell)
    requires GroupsOk(s) && g in s.past
  {
    && CellOk(own, g, p) && p.num <= Cur(s, g).num
    && (p.num == Cur(s, g).num ==> Earlier(p.status, Cur(s, g).status))
  }

  /** Data read from `p` for the move into `m` are right as long as the move is pending. */
  ghost predicate ReadOk(own: Owners, s: State, m: nat, p: Cell)
    requires GroupsOk(s) && OwnersOk(own, s.past.Keys) && Moves(own, m)
  {
    p.num >= m && Pending(own, s, m) ==> p.kv == Cur(s, own[m - 1]).kv && Dominates(p.dup, s.writes)
  }

  ghost predicate MigOk(own: Owners, s: State, mig: Mig)
    requires GroupsOk(s) && OwnersOk(own, s.past.Keys)
  {
    && Moves(own, mig.num) && own[mig.num] == mig.to && Cur(s, mig.to).num >= mig.num
    && Cur(s, own[mig.num - 1]).num >= mig.num
    && (Pending(own, s, mig.num) ==> mig.kv == Cur(s, own[mig.num - 1]).kv && Dominates(mig.dup, s.writes))
  }

  ghost predicate GcOk(own: Owners, s: State, m: nat)
    requires GroupsOk(s) && OwnersOk(own, s.past.Keys)
  {
    Moves(own, m) && !Pending(own, s, m)
  }

  /** Every owner up to the present holder has reached its configuration. */
  ghost predicate ReachedOk(own: Owners, s: State, tok: nat, k: nat)
    requires GroupsOk(s) && OwnersOk(own, s.past.Keys)
  {
    0 < k <= tok && k < |own| && own[k] != own[k - 1] ==> own[k] != 0 && Cur(s, own[k]).num >= k
  }

  ghost predicate Ready(own: Owners, s: State) {
    GroupsOk(s) && OwnersOk(own, s.past.Keys)
  }

  ghost predicate CellsOk(own: Owners, s: State, tok: nat)
    requires Ready(own, s)
  {
    forall g | g in s.past :: CellOk(own, g, Cur(s, g)) && TokenOk(own, g, Cur(s, g), tok)
  }

  ghost predicate AllKept(own: Owners, s: State, tok: nat)
    requires Ready(own, s)
  {
    forall m: nat | Moves(own, m) :: KeptAt(own, s, tok, m)
  }

  ghost predicate GroupPastOk(own: Owners, s: State, g: int)
    requires Ready(own, s) && g in s.past
  {
    forall k | 0 <= k < |s.past[g]| :: PastOk(own, s, g, s.past[g][k])
  }

  ghost predicate ReadsOk(own: Owners, s: State, m: nat)
    requires Ready(own, s) && Moves(own, m)
  {
    var cells := s.past[own[m - 1]];
    forall k | 0 <= k < |cells| :: ReadOk(own, s, m, cells[k])
  }

  ghost predicate PastsOk(own: Owners, s: State)
    requires Ready(own, s)
  {
    && (forall g | g in s.past :: GroupPastOk(own, s, g))
    && (forall m: nat | Moves(own, m) :: ReadsOk(own, s, m))
  }

  ghost predicate MessagesOk(own: Owners, s: State)
    requires Ready(own, s)
  {
    && (forall mig | mig in s.migs :: MigOk(own, s, mig))
    && (forall gc | gc in s.gcs :: GcOk(own, s, gc.num))
  }

  ghost predicate AllReached(own: Owners, s: State, tok: nat)
    requires Ready(own, s)
  {
    forall k: nat :: ReachedOk(own, s, tok, k)
  }

  ghost predicate Inv(own: Owners, s: State, tok: nat) {
    && Ready(own, s) && CellsOk(own, s, tok) && HolderOk(own, s, tok) && AllKept(own, s, tok)
    && PastsOk(own, s) && MessagesOk(own, s) && AllReached(own, s, tok)
  }
}
