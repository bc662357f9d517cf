/** A bitset over 64-bit words, as a finite set of positions. */
module Bitsets {

  // ---- One word ----

  function Mask(i: nat): bv64
    requires i < 64
  {
    1 << i
  }

  predicate Meets(w: bv64, m: bv64) {
    w & m != 0
  }

  predicate Bit(w: bv64, i: nat)
    requires i < 64
  {
    Meets(w, Mask(i))
  }

  function WithBit(w: bv64, i: nat): bv64
    requires i < 64
  {
    w | Mask(i)
  }

  function WithoutBit(w: bv64, i: nat): bv64
    requires i < 64
  {
    AndNot(w, Mask(i))
  }

  function AndNot(w: bv64, m: bv64): bv64 {
    w & !m
  }

  // Shift amounts are seven bits wide. Facts about bits are stated for those, apart from the conversion.

  function Shifted(s: bv7): bv64
    requires s < 64
  {
    1 << s
  }

  lemma Narrow(i: nat)
    requires i < 64
    ensures (i as bv7) as nat == i
  {
  }

  lemma Widen(s: bv7)
    requires s < 64
    ensures s as nat < 64 && (s as nat) as bv7 == s
  {
  }

  lemma MaskShifted(i: nat)
    requires i < 64
    ensures i as bv7 < 64 && Mask(i) == Shifted(i as bv7)
  {
  }

  lemma ShiftedDisjoint(s: bv7, t: bv7)
    requires s < 64 && t < 64 && s != t
    ensures Shifted(s) & Shifted(t) == 0
  {
  }

  lemma MasksDisjoint(i: nat, j: nat)
    requires i < j < 64
    ensures Mask(i) & Mask(j) == 0
  {
    hide Mask, Shifted;
    MaskShifted(i);
    MaskShifted(j);
    Narrow(i);
    Narrow(j);
    ShiftedDisjoint(i as bv7, j as bv7);
  }

  lemma NotMeets(a: bv64, b: bv64)
    requires a & b == 0
    ensures !Meets(a, b)
  {
  }

  lemma MeetsSwap(a: bv64, b: bv64)
    ensures Meets(a, b) == Meets(b, a)
  {
  }

  lemma MaskNotZero(i: nat)
    requires i < 64
    ensures Meets(Mask(i), Mask(i))
  {
  }

  lemma MaskBit(i: nat, j: nat)
    requires i < 64 && j < 64
    ensures Meets(Mask(i), Mask(j)) == (i == j)
  {
    hide Mask, Meets;
    if i < j {
      MasksDisjoint(i, j);
      NotMeets(Mask(i), Mask(j));
    } else if j < i {
      MasksDisjoint(j, i);
      NotMeets(Mask(j), Mask(i));
      MeetsSwap(Mask(i), Mask(j));
    } else {
      MaskNotZero(i);
    }
  }

  lemma OrMeets(w: bv64, a: bv64, b: bv64)
    ensures Meets(w | a, b) == (Meets(w, b) || Meets(a, b))
  {
    OrAnd(w, a, b);
    OrZero(w & b, a & b);
  }

  lemma OrAnd(w: bv64, a: bv64, b: bv64)
    ensures (w | a) & b == (w & b) | (a & b)
  {
  }

  lemma OrZero(x: bv64, y: bv64)
    ensures x | y == 0 <==> x == 0 && y == 0
  {
  }

  lemma AndNotMeets(w: bv64, a: bv64, b: bv64)
    requires !Meets(a, b)
    ensures Meets(AndNot(w, a), b) == Meets(w, b)
  {
  }

  lemma AndNotSelf(w: bv64, a: bv64)
    ensures !Meets(AndNot(w, a), a)
  {
  }

  lemma SetBit(w: bv64, i: nat, j: nat)
    requires i < 64 && j < 64
    ensures Bit(WithBit(w, i), j) == (i == j || Bit(w, j))
  {
    hide Mask, Meets;
    OrMeets(w, Mask(i), Mask(j));
    MaskBit(i, j);
  }

  lemma ClearBit(w: bv64, i: nat, j: nat)
    requires i < 64 && j < 64
    ensures Bit(WithoutBit(w, i), j) == (i != j && Bit(w, j))
  {
    hide Mask, Meets, AndNot;
    MaskBit(i, j);
    if i == j {
      AndNotSelf(w, Mask(i));
    } else {
      AndNotMeets(w, Mask(i), Mask(j));
    }
  }

  lemma NoBit(j: nat)
    requires j < 64
    ensures !Bit(0, j)
  {
  }

  /** The words agree on the positions of `m`. */
  ghost predicate SameUnder(a: bv64, b: bv64, m: bv64) {
    a & m == b & m
  }

  ghost function LowMask(s: bv7): bv64
    requires s <= 64
  {
    !(0xFFFF_FFFF_FFFF_FFFF << s)
  }

  lemma LowStep(s: bv7)
    requires s < 64
    ensures LowMask(s + 1) == LowMask(s) | Shifted(s)
  {
  }

  lemma AndShifted(a: bv64, s: bv7)
    requires s < 64
    ensures a & Shifted(s) == 0 || a & Shifted(s) == Shifted(s)
  {
  }

  lemma Join(a: bv64, b: bv64, x: bv64, y: bv64)
    requires SameUnder(a, b, x) && SameUnder(a, b, y)
    ensures SameUnder(a, b, x | y)
  {
  }

  lemma SameBit(a: bv64, b: bv64, s: bv7)
    requires s < 64 && Meets(a, Shifted(s)) == Meets(b, Shifted(s))
    ensures SameUnder(a, b, Shifted(s))
  {
    hide Shifted;
    AndShifted(a, s);
    AndShifted(b, s);
  }

  lemma LowZero(a: bv64, b: bv64)
    ensures SameUnder(a, b, LowMask(0))
  {
  }

  ghost predicate AgreeAt(a: bv64, b: bv64, s: bv7)
    requires s < 64
  {
    Meets(a, Shifted(s)) == Meets(b, Shifted(s))
  }

  ghost predicate AllBelow(a: bv64, b: bv64, s: bv7)
    requires s <= 64
  {
    forall t: bv7 | t < s :: AgreeAt(a, b, t)
  }

  lemma OneLess(a: bv64, b: bv64, s: bv7)
    requires 0 < s <= 64 && AllBelow(a, b, s)
    ensures s - 1 < 64 && AllBelow(a, b, s - 1) && AgreeAt(a, b, s - 1)
  {
    hide AgreeAt;
    assert s - 1 < s;
  }

  lemma AgreeStep(a: bv64, b: bv64, s: bv7)
    requires s < 64 && SameUnder(a, b, LowMask(s)) && AgreeAt(a, b, s)
    ensures SameUnder(a, b, LowMask(s + 1))
  {
    hide LowMask, Meets, SameUnder, Shifted;
    LowStep(s);
    SameBit(a, b, s);
    Join(a, b, LowMask(s), Shifted(s));
  }

  lemma {:induction false} AgreeBelow(a: bv64, b: bv64, s: bv7)
    requires s <= 64 && AllBelow(a, b, s)
    ensures SameUnder(a, b, LowMask(s))
    decreases s
  {
    hide LowMask, SameUnder, AgreeAt, AllBelow;
    if s == 0 {
      LowZero(a, b);
    } else {
      OneLess(a, b, s);
      AgreeBelow(a, b, s - 1);
      AgreeStep(a, b, s - 1);
      assert s - 1 + 1 == s;
    }
  }

  /** Words with the same bits are equal. */
  lemma WordsEqual(a: bv64, b: bv64)
    requires forall j: nat | j < 64 :: Bit(a, j) == Bit(b, j)
    ensures a == b
  {
    hide Meets, Mask, Shifted;
    forall t: bv7 | t < 64 ensures AgreeAt(a, b, t) {
      Widen(t);
      MaskShifted(t as nat);
      assert Bit(a, t as nat) == Bit(b, t as nat);
    }
    AgreeBelow(a, b, 64);
    AllBits(a, b);
  }

  lemma AllBits(a: bv64, b: bv64)
    requires SameUnder(a, b, LowMask(64))
    ensures a == b
  {
  }

  // ---- Words in a row ----

  predicate Has(words: seq<bv64>, pos: nat)
    requires pos < 64 * |words|
  {
    Bit(words[pos / 64], pos % 64)
  }

  /** The positions set in `words`. */
  ghost function Members(words: seq<bv64>): set<nat> {
    set pos: nat | pos < 64 * |words| && Has(words, pos)
  }

  /** Equal sets have equal words. */
  lemma MembersInjective(a: seq<bv64>, b: seq<bv64>)
    requires |a| == |b| && Members(a) == Members(b)
    ensures a == b
  {
    hide Bit;
    forall i | 0 <= i < |a| ensures a[i] == b[i] {
      forall j: nat | j < 64 ensures Bit(a[i], j) == Bit(b[i], j) {
        var pos := 64 * i + j;
        assert pos / 64 == i && pos % 64 == j;
        assert pos in Members(a) <==> pos in Members(b);
      }
      WordsEqual(a[i], b[i]);
    }
  }

  lemma AddMember(words: seq<bv64>, pos: nat)
    requires pos < 64 * |words|
    ensures Members(words[pos / 64 := WithBit(words[pos / 64], pos % 64)]) == Members(words) + {pos}
  {
    hide Bit, Mask, WithBit, WithoutBit;
    var words' := words[pos / 64 := WithBit(words[pos / 64], pos % 64)];
    forall p: nat | p < 64 * |words| ensures Has(words', p) <==> Has(words, p) || p == pos {
      if p / 64 == pos / 64 {
        SetBit(words[pos / 64], pos % 64, p % 64);
      }
    }
  }

  lemma DropMember(words: seq<bv64>, pos: nat)
    requires pos < 64 * |words|
    ensures Members(words[pos / 64 := WithoutBit(words[pos / 64], pos % 64)]) == Members(words) - {pos}
  {
    hide Bit, Mask, WithBit, WithoutBit;
    var words' := words[pos / 64 := WithoutBit(words[pos / 64], pos % 64)];
    forall p: nat | p < 64 * |words| ensures Has(words', p) <==> Has(words, p) && p != pos {
      if p / 64 == pos / 64 {
        ClearBit(words[pos / 64], pos % 64, p % 64);
      }
    }
  }

  lemma NoMembers(words: seq<bv64>)
    requires forall i | 0 <= i < |words| :: words[i] == 0
    ensures Members(words) == {}
  {
    hide Bit;
    forall pos: nat | pos < 64 * |words| ensures !Has(words, pos) {
      NoBit(pos % 64);
    }
  }

  function OnesCount(w: bv64, k: nat): nat
    requires k <= 64
  {
    if k == 0 then 0 else OnesCount(w, k - 1) + (if Bit(w, k - 1) then 1 else 0)
  }

  function Popcnt(words: seq<bv64>): nat {
    if words == [] then 0 else Popcnt(words[..|words| - 1]) + OnesCount(words[|words| - 1], 64)
  }

  /** The positions of one word's first `k` bits that are set, the word starting at `base`. */
  ghost function WordSet(w: bv64, base: nat, k: nat): set<nat>
    requires k <= 64
  {
    if k == 0 then {} else WordSet(w, base, k - 1) + (if Bit(w, k - 1) then {base + k - 1} else {})
  }

  lemma {:induction false} WordSetIs(w: bv64, base: nat, k: nat)
    requires k <= 64
    ensures forall p: nat :: p in WordSet(w, base, k) <==> base <= p < base + k && Bit(w, p - base)
    ensures |WordSet(w, base, k)| == OnesCount(w, k)
  {
    hide Bit;
    if k > 0 {
      WordSetIs(w, base, k - 1);
    }
  }

  /** The population count is the size of the set. */
  lemma {:induction false} PopcntIsSize(words: seq<bv64>)
    ensures Popcnt(words) == |Members(words)|
  {
    hide Bit, OnesCount, WordSet;
    if words != [] {
      var k := |words| - 1;
      var front, last := words[..k], WordSet(words[k], 64 * k, 64);
      PopcntIsSize(front);
      WordSetIs(words[k], 64 * k, 64);
      forall p: nat ensures p in Members(words) <==> p in Members(front) || p in last {
        if p < 64 * k {
          assert p / 64 < k;
        } else if p < 64 * k + 64 {
          assert p / 64 == k && p % 64 == p - 64 * k;
        }
      }
      assert Members(words) == Members(front) + last;
      assert forall p | p in Members(front) :: p < 64 * k;
    }
  }

  function Xor(a: bv64, b: bv64): bv64 {
    a ^ b
  }

  function Fold(words: seq<bv64>, start: bv64): bv64 {
    if words == [] then start else Xor(Fold(words[..|words| - 1], start), words[|words| - 1])
  }

  /** A count as a word, modulo 2 to the 64. */
  function AsWord(n: nat): bv64 {
    (n % 0x1_0000_0000_0000_0000) as bv64
  }

  /** The hash: the words xored into their population count. */
  function HashOf(words: seq<bv64>): bv64 {
    Fold(words, AsWord(Popcnt(words)))
  }

  lemma XorComm(a: bv64, b: bv64)
    ensures Xor(a, b) == Xor(b, a)
  {
  }

  lemma XorAssoc(a: bv64, b: bv64, c: bv64)
    ensures Xor(Xor(a, b), c) == Xor(a, Xor(b, c))
  {
  }

  lemma XorZero(a: bv64)
    ensures Xor(0, a) == a == Xor(a, 0) && Xor(a, a) == 0
  {
  }

  lemma XorMoves(a: bv64, b: bv64, m: bv64)
    ensures Xor(Xor(a, m), b) == Xor(Xor(a, b), m) && Xor(a, Xor(b, m)) == Xor(Xor(a, b), m)
  {
    hide Xor;
    XorAssoc(a, b, m);
    XorAssoc(a, m, b);
    XorComm(b, m);
  }

  lemma {:induction false} FoldMoves(words: seq<bv64>, start: bv64, i: nat, m: bv64)
    requires i < |words|
    ensures Fold(words[i := Xor(words[i], m)], start) == Xor(Fold(words, start), m)
  {
    hide Xor;
    var k := |words| - 1;
    var words' := words[i := Xor(words[i], m)];
    XorMoves(Fold(words[..k], start), words[k], m);
    if i == k {
      assert words'[..k] == words[..k];
    } else {
      assert words'[..k] == words[..k][i := Xor(words[..k][i], m)];
      FoldMoves(words[..k], start, i, m);
    }
  }

  lemma {:induction false} FoldStart(words: seq<bv64>, start: bv64)
    ensures Fold(words, start) == Xor(Fold(words, 0), start)
  {
    hide Xor;
    if words == [] {
      XorZero(start);
    } else {
      var k := |words| - 1;
      FoldStart(words[..k], start);
      XorMoves(Fold(words[..k], 0), words[k], start);
    }
  }

  /** Adding a position to a set changes its hash by the position's bit and by the count. */
  lemma HashMoves(words: seq<bv64>, pos: nat)
    requires pos < 64 * |words| && pos !in Members(words)
    ensures var words' := words[pos / 64 := WithBit(words[pos / 64], pos % 64)];
            var n := |Members(words)|;
            HashOf(words') == Xor(HashOf(words), Xor(Mask(pos % 64), Xor(AsWord(n + 1), AsWord(n))))
  {
    hide Members, Popcnt, AsWord, Mask, Fold, Xor, WithBit;
    var i, m := pos / 64, Mask(pos % 64);
    var words' := words[i := WithBit(words[i], pos % 64)];
    FreeBit(words, pos);
    AddMember(words, pos);
    PopcntIsSize(words);
    PopcntIsSize(words');
    FoldStart(words, AsWord(Popcnt(words)));
    FoldStart(words', AsWord(Popcnt(words')));
    FoldMoves(words, 0, i, m);
    Cancels(Fold(words, 0), m, AsWord(Popcnt(words')), AsWord(Popcnt(words)));
  }

  lemma Cancels(x: bv64, m: bv64, a: bv64, b: bv64)
    ensures Xor(Xor(x, m), a) == Xor(Xor(x, b), Xor(m, Xor(a, b)))
  {
    hide Xor;
    var y := Xor(m, a);
    XorAssoc(x, m, a);
    XorAssoc(m, a, b);
    XorAssoc(x, b, Xor(y, b));
    XorComm(y, b);
    XorAssoc(b, b, y);
    XorZero(b);
    XorZero(y);
  }

  /** Setting a bit that is clear flips it. */
  lemma FreeBit(words: seq<bv64>, pos: nat)
    requires pos < 64 * |words| && pos !in Members(words)
    ensures WithBit(words[pos / 64], pos % 64) == Xor(words[pos / 64], Mask(pos % 64))
  {
    hide Mask, Bit, WithBit, Xor;
    assert !Has(words, pos);
    FlipBit(words[pos / 64], pos % 64);
  }

  function Or(a: bv64, b: bv64): bv64 {
    a | b
  }

  lemma FlipBit(w: bv64, i: nat)
    requires i < 64 && !Bit(w, i)
    ensures WithBit(w, i) == Xor(w, Mask(i))
  {
    hide Mask, Meets, Xor, Or, WithBit;
    WithBitIs(w, i);
    Flips(w, Mask(i));
  }

  lemma WithBitIs(w: bv64, i: nat)
    requires i < 64
    ensures WithBit(w, i) == Or(w, Mask(i))
  {
    hide Mask;
  }

  lemma Flips(w: bv64, m: bv64)
    requires !Meets(w, m)
    ensures Or(w, m) == Xor(w, m)
  {
    ClearIsFlip(w, m);
  }

  lemma ClearIsFlip(w: bv64, m: bv64)
    requires w & m == 0
    ensures w | m == w ^ m
  {
  }

  class Bitset {
    const words: array<bv64>

    ghost function Elements(): set<nat>
      reads words
    {
      Members(words[..])
    }

    /** How many positions there are. */
    function Size(): nat {
      64 * words.Length
    }

    constructor (bits: nat)
      ensures fresh(words) && bits <= Size() < bits + 64 && Elements() == {}
    {
      var extra := 0;
      if bits % 64 != 0 {
        extra := 1;
      }
      var chunks := bits / 64 + extra;
      words := new bv64[chunks](_ => 0);
      new;
      NoMembers(words[..]);
    }

    constructor Copy(words: array<bv64>)
      ensures fresh(this.words) && this.words[..] == words[..]
    {
      var copy := new bv64[words.Length](i requires 0 <= i < words.Length reads words => words[i]);
      this.words := copy;
    }

    /** The set with the given words. */
    constructor Of(words: seq<bv64>)
      ensures fresh(this.words) && this.words[..] == words
    {
      var copy := new bv64[|words|](i requires 0 <= i < |words| => words[i]);
      this.words := copy;
    }

    method Clone() returns (b: Bitset)
      ensures fresh(b) && fresh(b.words) && b.words[..] == words[..]
    {
      b := new Bitset.Copy(words);
    }

    method Set(pos: nat)
      requires pos < Size()
      modifies words
      ensures Elements() == old(Elements()) + {pos}
    {
      hide Bit, Mask, WithBit;
      var major, minor := pos / 64, pos % 64;
      AddMember(words[..], pos);
      ghost var after := words[..][major := WithBit(words[major], minor)];
      words[major] := WithBit(words[major], minor);
      assert words[..] == after;
    }

    method Clear(pos: nat)
      requires pos < Size()
      modifies words
      ensures Elements() == old(Elements()) - {pos}
    {
      hide Bit, Mask, WithoutBit;
      var major, minor := pos / 64, pos % 64;
      DropMember(words[..], pos);
      ghost var after := words[..][major := WithoutBit(words[major], minor)];
      words[major] := WithoutBit(words[major], minor);
      assert words[..] == after;
    }

    method Get(pos: nat) returns (b: bool)
      requires pos < Size()
      ensures b == (pos in Elements())
    {
      var major, minor := pos / 64, pos % 64;
      b := Bit(words[major], minor);
    }

    method PopCount() returns (total: nat)
      ensures total == Popcnt(words[..]) == |Elements()|
    {
      hide OnesCount, Members;
      PopcntIsSize(words[..]);
      total := 0;
      var i := 0;
      while i < words.Length
        invariant 0 <= i <= words.Length && total == Popcnt(words[..i])
      {
        assert words[..i + 1][..i] == words[..i];
        total := total + OnesCount(words[i], 64);
        i := i + 1;
      }
      assert words[..i] == words[..];
    }

    method Hash() returns (hash: bv64)
      ensures hash == HashOf(words[..])
    {
      hide Popcnt, AsWord;
      var total := PopCount();
      hash := AsWord(total);
      ghost var start := hash;
      var i := 0;
      while i < words.Length
        invariant 0 <= i <= words.Length && hash == Fold(words[..i], start)
      {
        assert words[..i + 1][..i] == words[..i];
        hash := Xor(hash, words[i]);
        i := i + 1;
      }
      assert words[..i] == words[..];
    }

    /** Two bitsets of one size are equal exactly when they hold the same positions. */
    method Equals(other: Bitset) returns (same: bool)
      ensures same == (words[..] == other.words[..])
      ensures words.Length == other.words.Length ==> same == (Elements() == other.Elements())
    {
      if words.Length != other.words.Length {
        assert |words[..]| != |other.words[..]|;
        return false;
      }
      var i := 0;
      while i < words.Length
        invariant 0 <= i <= words.Length && forall k | 0 <= k < i :: words[k] == other.words[k]
      {
        if words[i] != other.words[i] {
          assert words[..][i] != other.words[..][i];
          if Elements() == other.Elements() {
            MembersInjective(words[..], other.words[..]);
          }
          return false;
        }
        i := i + 1;
      }
      return true;
    }
  }
}
