/** Facts about the Java maps the sync package keeps per channel. */
module Collections {

  /**
   * `order` lists every key once: the iteration order of a hash map's
   * entries, which Java leaves unspecified.
   */
  predicate IsEnumeration(order: seq<string>, keys: set<string>)
  {
    (forall i, j :: 0 <= i < j < |order| ==> order[i] != order[j]) &&
    (forall k :: k in keys ==> k in order) &&
    (forall i :: 0 <= i < |order| ==> order[i] in keys)
  }

  /** Two maps with the same keys and the same value at every key are equal. */
  lemma MapExtensionality<V>(a: map<string, V>, b: map<string, V>)
    requires a.Keys == b.Keys
    requires forall k :: k in a ==> a[k] == b[k]
    ensures a == b
  {
  }

  /** A second write to a key replaces the first. */
  lemma OverwriteTwice<V>(m: map<string, V>, k: string, a: V, b: V)
    ensures m[k := a][k := b] == m[k := b]
  {
    MapExtensionality(m[k := a][k := b], m[k := b]);
  }

  /** A subset is no larger. */
  lemma SubsetCard(a: set<string>, b: set<string>)
    requires a <= b
    ensures |a| <= |b|
  {
    assert b == a + (b - a);
  }

  /** An enumeration is as long as the key set it lists. */
  lemma {:induction false} EnumerationSize(order: seq<string>, keys: set<string>)
    requires IsEnumeration(order, keys)
    ensures |order| == |keys|
    decreases |order|
  {
    if |order| > 0 {
      var last, init := order[|order| - 1], order[..|order| - 1];
      assert forall i :: 0 <= i < |init| ==> init[i] == order[i];
      assert last !in init;
      assert forall k :: k in keys - {last} ==> k in order && k != last;
      assert forall k :: k in keys - {last} ==> k in init by {
        forall k | k in keys - {last} ensures k in init {
          var i :| 0 <= i < |order| && order[i] == k;
          assert i < |order| - 1;
          assert init[i] == k;
        }
      }
      EnumerationSize(init, keys - {last});
    }
  }
}
