/** Which owners are safe: those that give a shard left to nobody back to its last owner, and no others. */
module MigrationExact {
  import opened MigrationCore
  import opened MigrationGaps
  import MigrationMoves
  import MigrationSafety

  function Blank(num: nat): Cell {
    Cell(num, Normal, map[], map[])
  }

  ghost predicate Starts(gids: set<int>, s: State) {
    && s.past.Keys == gids && s.migs == {} && s.gcs == {} && s.writes == []
    && forall g | g in s.past :: s.past[g] == [Blank(0)]
  }

  /** One step of group `g` leads from `s` to `s'`. */
  ghost predicate Leads(own: Owners, s: State, g: int, a: Step, s': State) {
    GroupsOk(s) && g in s.past && CanStep(own, s, g, a) && s' == After(own, s, g, a)
  }

  ghost predicate Follows(own: Owners, s: State, s': State) {
    exists g, a :: Leads(own, s, g, a, s')
  }

  /** A run of one shard among the groups `gids`. */
  ghost predicate IsShardRun(own: Owners, gids: set<int>, run: seq<State>) {
    |run| > 0 && Starts(gids, run[0]) && forall n | 0 < n < |run| :: Follows(own, run[n - 1], run[n])
  }

  /** Some run ends in `s`. */
  ghost predicate Reachable(own: Owners, gids: set<int>, s: State) {
    exists run :: IsShardRun(own, gids, run) && run[|run| - 1] == s
  }

  ghost predicate ServesNow(own: Owners, s: State, g: int) {
    GroupsOk(s) && g in s.past && Serves(own, g, Cur(s, g))
  }

  /** Whenever a group serves the shard it has exactly the accepted writes. */
  ghost predicate ServersAreCurrent(own: Owners, gids: set<int>) {
    forall s: State, g: int | Reachable(own, gids, s) && ServesNow(own, s, g) :: Cur(s, g).kv == Fold(s.writes)
  }

  /** At no time do two groups serve the shard. */
  ghost predicate ServersAreAlone(own: Owners, gids: set<int>) {
    forall s: State, g: int, h: int | Reachable(own, gids, s) && ServesNow(own, s, g) && ServesNow(own, s, h) :: g == h
  }

  // ---- Giving back is safe ----

  lemma {:induction false} RunInv(own: Owners, gids: set<int>, run: seq<State>) returns (tok: nat)
    requires KnownOwners(own, gids) && ReturnsOk(own) && IsShardRun(own, gids, run)
    ensures Inv(LastOwners(own), run[|run| - 1], tok) && run[|run| - 1].past.Keys == gids
  {
    hide Inv, KnownOwners, ReturnsOk, LastOwners, Follows, OwnersOk;
    var n := |run| - 1;
    if n == 0 {
      LastOwnersOk(own, gids);
      MigrationSafety.Start(LastOwners(own), run[0]);
      tok := 0;
    } else {
      var before := RunInv(own, gids, run[..n]);
      assert Follows(own, run[n - 1], run[n]);
      assert run[..n][n - 1] == run[n - 1];
      tok := StepInv(own, gids, run[n - 1], before, run[n]);
    }
  }

  lemma StepInv(own: Owners, gids: set<int>, s: State, tok: nat, s': State) returns (tok': nat)
    requires KnownOwners(own, gids) && ReturnsOk(own) && Follows(own, s, s') && Inv(LastOwners(own), s, tok)
             && s.past.Keys == gids
    ensures Inv(LastOwners(own), s', tok') && s'.past.Keys == gids
  {
    hide Inv, ReturnsOk, LastOwners, CanStep;
    var g, a :| Leads(own, s, g, a, s');
    assert 0 !in s.past;
    SameStep(own, s, g, a);
    tok' := MigrationMoves.StepInv(LastOwners(own), s, tok, g, a);
  }

  lemma ReachableInv(own: Owners, gids: set<int>, s: State) returns (tok: nat)
    requires KnownOwners(own, gids) && ReturnsOk(own) && Reachable(own, gids, s)
    ensures Inv(LastOwners(own), s, tok) && 0 !in s.past
  {
    hide Starts, Follows, Inv, ReturnsOk, LastOwners;
    var run :| IsShardRun(own, gids, run) && run[|run| - 1] == s;
    tok := RunInv(own, gids, run);
  }

  lemma ReturningIsSafe(own: Owners, gids: set<int>)
    requires KnownOwners(own, gids) && ReturnsOk(own)
    ensures ServersAreCurrent(own, gids) && ServersAreAlone(own, gids)
  {
    hide Reachable, Inv, ReturnsOk, LastOwners, Serves, Fold;
    forall s: State, g: int | Reachable(own, gids, s) && ServesNow(own, s, g) ensures Cur(s, g).kv == Fold(s.writes) {
      var tok := ReachableInv(own, gids, s);
      ServesAsLast(own, g, Cur(s, g));
      MigrationSafety.ServerIsCurrent(LastOwners(own), s, tok, g);
    }
    forall s: State, g: int, h: int | Reachable(own, gids, s) && ServesNow(own, s, g) && ServesNow(own, s, h)
      ensures g == h
    {
      var tok := ReachableInv(own, gids, s);
      ServesAsLast(own, g, Cur(s, g));
      ServesAsLast(own, h, Cur(s, h));
      MigrationSafety.OneServer(LastOwners(own), s, tok, g, h);
    }
  }

  // ---- Every configuration can be reached, with all groups at rest ----

  lemma Extend(own: Owners, gids: set<int>, s: State, g: int, a: Step)
    requires Reachable(own, gids, s) && GroupsOk(s) && g in s.past && CanStep(own, s, g, a)
    ensures Reachable(own, gids, After(own, s, g, a))
  {
    hide CanStep, After, Starts;
    var s' := After(own, s, g, a);
    var run :| IsShardRun(own, gids, run) && run[|run| - 1] == s;
    var run' := run + [s'];
    assert Leads(own, s, g, a, s');
    forall n | 0 < n < |run'| ensures Follows(own, run'[n - 1], run'[n]) {
      if n < |run| {
        assert Follows(own, run[n - 1], run[n]);
      }
    }
    assert IsShardRun(own, gids, run') && run'[|run'| - 1] == s';
  }

  /** The present cells of all groups. */
  ghost predicate At(s: State, cells: map<int, Cell>, writes: seq<Write>) {
    GroupsOk(s) && s.past.Keys == cells.Keys && s.writes == writes && forall g | g in cells :: Cur(s, g) == cells[g]
  }

  /** A step that changes one group's cell. */
  lemma Steps(own: Owners, gids: set<int>, s: State, cells: map<int, Cell>, writes: seq<Write>, g: int, a: Step)
    returns (s': State)
    requires Reachable(own, gids, s) && At(s, cells, writes) && g in cells && CanStep(own, s, g, a)
    requires a.Advance? || a.Clean? || a.Take?
    ensures Reachable(own, gids, s') && s' == After(own, s, g, a) && At(s', cells[g := Cur(s', g)], writes)
  {
    hide Reachable, Advanced, CanStep;
    Extend(own, gids, s, g, a);
    s' := After(own, s, g, a);
    assert forall h | h in s'.past && h != g :: s'.past[h] == s.past[h];
  }

  ghost function AllBlank(gids: set<int>, num: nat): map<int, Cell> {
    map g | g in gids :: Blank(num)
  }

  ghost function AllAdvanced(own: Owners, gids: set<int>, m: nat): map<int, Cell>
    requires m + 1 < |own|
  {
    map g | g in gids :: Advanced(own, g, Blank(m))
  }

  /** The groups of `todo` take the next configuration, one after the other. */
  lemma {:induction false} AdvanceAll(own: Owners, gids: set<int>, s: State, m: nat, cells: map<int, Cell>,
      todo: set<int>)
    returns (s': State)
    requires Reachable(own, gids, s) && m + 1 < |own| && cells.Keys == gids && todo <= gids && At(s, cells, [])
    requires forall g | g in gids :: cells[g] == if g in todo then Blank(m) else Advanced(own, g, Blank(m))
    ensures Reachable(own, gids, s') && At(s', AllAdvanced(own, gids, m), [])
    decreases todo
  {
    hide Reachable, Advanced;
    if !(exists g :: g in todo) {
      s' := s;
      assert forall g: int :: g in cells <==> g in AllAdvanced(own, gids, m);
      assert forall g: int | g in cells :: cells[g] == AllAdvanced(own, gids, m)[g];
      assert cells == AllAdvanced(own, gids, m);
    } else {
      var g :| g in todo;
      var next := Steps(own, gids, s, cells, [], g, Advance);
      s' := AdvanceAll(own, gids, next, m, cells[g := Cur(next, g)], todo - {g});
    }
  }

  /** The shard goes straight from one group to another at `m + 1`. */
  ghost predicate Hands(own: Owners, m: nat) {
    m + 1 < |own| && own[m] != 0 && own[m + 1] != 0 && own[m] != own[m + 1]
  }

  lemma NothingMoves(own: Owners, gids: set<int>, m: nat)
    requires m + 1 < |own| && 0 !in gids && !Hands(own, m)
    ensures AllAdvanced(own, gids, m) == AllBlank(gids, m + 1)
  {
  }

  ghost function Blanks(gids: set<int>, n: nat, o: int, out: Status, g: int, into: Status): map<int, Cell> {
    AllBlank(gids, n)[o := Blank(n).(status := out)][g := Blank(n).(status := into)]
  }

  lemma Moving(own: Owners, gids: set<int>, m: nat)
    requires Hands(own, m) && own[m] in gids && own[m + 1] in gids
    ensures AllAdvanced(own, gids, m) == Blanks(gids, m + 1, own[m], MoveOut, own[m + 1], MoveIn)
  {
  }

  /** What a group's new status does to the cells. */
  lemma BlanksUpdate(gids: set<int>, n: nat, o: int, out: Status, g: int, into: Status, st: Status)
    requires o in gids && g in gids && o != g
    ensures var b := Blanks(gids, n, o, out, g, into);
            && b.Keys == gids && b[o] == Blank(n).(status := out) && b[g] == Blank(n).(status := into)
            && b[o := Blank(n).(status := st)] == Blanks(gids, n, o, st, g, into)
            && b[g := Blank(n).(status := st)] == Blanks(gids, n, o, out, g, st)
    ensures Blanks(gids, n, o, Normal, g, Normal) == AllBlank(gids, n)
  {
  }

  /** The new owner reads the data and takes them. */
  lemma Fetches(own: Owners, gids: set<int>, s: State, m: nat) returns (s': State)
    requires Reachable(own, gids, s) && Hands(own, m) && own[m] in gids && own[m + 1] in gids
    requires At(s, Blanks(gids, m + 1, own[m], MoveOut, own[m + 1], MoveIn), [])
    ensures Reachable(own, gids, s') && At(s', Blanks(gids, m + 1, own[m], MoveOut, own[m + 1], GC), [])
  {
    hide Reachable, Blanks;
    var o, g, n := own[m], own[m + 1], m + 1;
    BlanksUpdate(gids, n, o, MoveOut, g, MoveIn, GC);
    var pull := Pull(|s.past[g]| - 1, o, |s.past[o]| - 1);
    Extend(own, gids, s, g, pull);
    var pulled := After(own, s, g, pull);
    s' := Steps(own, gids, pulled, Blanks(gids, n, o, MoveOut, g, MoveIn), [], g, Take(Mig(g, n, map[], map[]), map[]));
  }

  /** It orders both sides to clean up, and they do. */
  lemma CleansUp(own: Owners, gids: set<int>, s: State, m: nat) returns (s': State)
    requires Reachable(own, gids, s) && Hands(own, m) && own[m] in gids && own[m + 1] in gids
    requires At(s, Blanks(gids, m + 1, own[m], MoveOut, own[m + 1], GC), [])
    ensures Reachable(own, gids, s') && At(s', AllBlank(gids, m + 1), [])
  {
    hide Reachable, Blanks, AllBlank;
    var o, g, n := own[m], own[m + 1], m + 1;
    BlanksUpdate(gids, n, o, MoveOut, g, GC, Normal);
    BlanksUpdate(gids, n, o, Normal, g, GC, Normal);
    var k := |s.past[g]| - 1;
    Extend(own, gids, s, g, Order(k, o));
    var asked := After(own, s, g, Order(k, o));
    Extend(own, gids, asked, g, Order(k, g));
    var ordered := After(own, asked, g, Order(k, g));
    var cleaned := Steps(own, gids, ordered, Blanks(gids, n, o, MoveOut, g, GC), [], o, Clean);
    s' := Steps(own, gids, cleaned, Blanks(gids, n, o, Normal, g, GC), [], g, Clean);
  }

  lemma {:induction false} Reach(own: Owners, gids: set<int>, m: nat) returns (s: State)
    requires KnownOwners(own, gids) && m < |own|
    ensures Reachable(own, gids, s) && At(s, AllBlank(gids, m), [])
  {
    hide Reachable, AllAdvanced, Advanced, At, Blanks;
    if m == 0 {
      s := Origin(own, gids);
    } else {
      var before := Reach(own, gids, m - 1);
      s := AdvanceAll(own, gids, before, m - 1, AllBlank(gids, m - 1), gids);
      if Hands(own, m - 1) {
        Moving(own, gids, m - 1);
        s := Fetches(own, gids, s, m - 1);
        s := CleansUp(own, gids, s, m - 1);
      } else {
        NothingMoves(own, gids, m - 1);
      }
    }
  }

  lemma Origin(own: Owners, gids: set<int>) returns (s: State)
    ensures Reachable(own, gids, s) && At(s, AllBlank(gids, 0), [])
  {
    s := State(map g | g in gids :: [Blank(0)], {}, {}, []);
    assert IsShardRun(own, gids, [s]) && [s][|[s]| - 1] == s;
  }

  // ---- Giving away is not ----

  /** Where the last owner's tenure ended. */
  lemma {:induction false} LastTenure(own: Owners, m: nat) returns (j: nat)
    requires m < |own| && LastOwner(own, m) != 0
    ensures j <= m && own[j] == LastOwner(own, m) && forall i | j < i <= m :: own[i] == 0
  {
    if own[m] != 0 {
      j := m;
    } else {
      j := LastTenure(own, m - 1);
    }
  }

  /** A group that owned the shard neither at `j` nor since takes one configuration after the other. */
  lemma {:induction false} Passes(own: Owners, gids: set<int>, s: State, cells: map<int, Cell>, writes: seq<Write>,
      h: int, j: nat, k: nat)
    returns (s': State)
    requires Reachable(own, gids, s) && At(s, cells, writes) && h in cells && h != 0 && cells[h] == Blank(j)
    requires j <= k < |own| && own[j] != h && forall i | j < i < k :: own[i] == 0
    requires j < k && own[k] == h ==> j + 1 < k
    ensures Reachable(own, gids, s') && At(s', cells[h := Blank(k)], writes)
    decreases k
  {
    hide Reachable;
    if j == k {
      s' := s;
      assert cells[h := Blank(k)] == cells;
    } else {
      var before := Passes(own, gids, s, cells, writes, h, j, k - 1);
      s' := Steps(own, gids, before, cells[h := Blank(k - 1)], writes, h, Advance);
      assert cells[h := Blank(k - 1)][h := Blank(k)] == cells[h := Blank(k)];
    }
  }

  /** The write that group `g` accepts on an untouched shard. */
  lemma Writes(own: Owners, gids: set<int>, s: State, j: nat, w: Write) returns (s': State)
    requires Reachable(own, gids, s) && At(s, AllBlank(gids, j), []) && j < |own| && own[j] in gids
    ensures Reachable(own, gids, s')
    ensures At(s', AllBlank(gids, j)[own[j] := Cell(j, Normal, Put(map[], w), map[w.client := w.seqId])], [w])
  {
    hide Reachable, Put;
    var g := own[j];
    Extend(own, gids, s, g, Accept(w));
    s' := After(own, s, g, Accept(w));
    assert forall h | h in s'.past && h != g :: s'.past[h] == s.past[h];
  }

  /** For every way of giving a shard away after a gap, of any length, and every write: the new owner comes to
      serve the shard without a write that the last owner accepted and, not having heard of the gap yet, still
      serves. */
  lemma GivingAwayLosesWrites(own: Owners, gids: set<int>, k: nat, w: Write) returns (s: State)
    requires KnownOwners(own, gids) && GivenAway(own, k)
    ensures Reachable(own, gids, s) && s.writes == [w]
    ensures var g, h := LastOwner(own, k - 1), own[k];
            && g != h && ServesNow(own, s, g) && ServesNow(own, s, h)
            && Cur(s, g).kv == Fold(s.writes) && Cur(s, h).kv == map[] != Fold(s.writes)
  {
    hide Reachable, AllBlank, Put;
    var g, h := LastOwner(own, k - 1), own[k];
    var j := LastTenure(own, k - 1);
    s := Reach(own, gids, j);
    s := Writes(own, gids, s, j, w);
    BlankCells(gids, j);
    s := Passes(own, gids, s, AllBlank(gids, j)[g := Cell(j, Normal, Put(map[], w), map[w.client := w.seqId])], [w], h,
                j, k);
    OneWrite(w);
  }

  lemma BlankCells(gids: set<int>, n: nat)
    ensures AllBlank(gids, n).Keys == gids && forall g | g in gids :: AllBlank(gids, n)[g] == Blank(n)
  {
  }

  /** A shard is safe with its owners if and only if, whenever it is left to nobody, it goes back to the group
      that had it: then and only then does every server have all writes, and is there one server at a time. */
  lemma SafeOwners(own: Owners, gids: set<int>)
    requires KnownOwners(own, gids)
    ensures ServersAreCurrent(own, gids) <==> ReturnsOk(own)
    ensures ServersAreAlone(own, gids) <==> ReturnsOk(own)
  {
    hide Reachable, ServesNow, Fold, GivenAway;
    if ReturnsOk(own) {
      ReturningIsSafe(own, gids);
    } else {
      var k: nat :| GivenAway(own, k);
      var s := GivingAwayLosesWrites(own, gids, k, Write(0, 1, "", "", false));
    }
  }
}
