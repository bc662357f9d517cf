/** Sequences without repetitions, and walking over the keys of a map. */
module Collections {

  ghost predicate Distinct<T>(s: seq<T>) {
    forall i, j | 0 <= i < j < |s| :: s[i] != s[j]
  }

  /** For the verifier, which does not see this of a set of integers by itself. */
  lemma NotEmpty(s: set<int>)
    requires s != {}
    ensures exists x :: x in s
  {
    if !(exists x :: x in s) {
      assert false;
    }
  }

  /** The keys of a map, in whatever order it is walked. */
  method KeysOf<K(==, !new), V>(m: map<K, V>) returns (keys: seq<K>)
    ensures (forall k :: k in keys <==> k in m) && Distinct(keys)
  {
    keys := [];
    var left := m.Keys;
    while left != {}
      invariant left <= m.Keys && (forall k :: k in keys <==> k in m.Keys - left) && Distinct(keys)
      decreases left
    {
      var k :| k in left;
      assert k !in keys;
      keys := keys + [k];
      left := left - {k};
    }
  }
}
