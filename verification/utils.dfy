/**
 * The two pure array helpers: a keyed de-duplicating merge built on a `Map`,
 * and an equality test that compares the arrays' concatenations.
 */
module Utils {
  import opened Wrappers
  import opened OrderedMaps
  import opened JsStrings

  /** `array.map(item => [item[keyName], item])`. */
  function Keyed<T, K>(items: seq<T>, keyOf: T -> K): (ps: seq<(K, T)>)
    ensures |ps| == |items|
    ensures forall i :: 0 <= i < |items| ==> ps[i] == (keyOf(items[i]), items[i])
  {
    seq(|items|, i requires 0 <= i < |items| => (keyOf(items[i]), items[i]))
  }

  /**
   * `mergeAndRemoveDuplicate(array1 = [], array2 = [], keyName)`: concatenate,
   * build a `Map` from each item's key to the item, and return its values.
   * `keyOf` is `item => item[keyName]`; `None` is an omitted array.
   */
  function MergeAndRemoveDuplicate<T, K(==,!new)>(items1: Option<seq<T>>, items2: Option<seq<T>>, keyOf: T -> K): seq<T>
  {
    var items := items1.GetOr([]) + items2.GetOr([]);
    FromEntries(Keyed(items, keyOf)).Values()
  }

  /** The items' keys in order, duplicates included. */
  function KeysIn<T, K>(items: seq<T>, keyOf: T -> K): (ks: seq<K>)
    ensures |ks| == |items| && forall i :: 0 <= i < |items| ==> ks[i] == keyOf(items[i])
  {
    seq(|items|, i requires 0 <= i < |items| => keyOf(items[i]))
  }

  /** Item `i` is the last item with its key. */
  ghost predicate LastWithKey<T, K>(items: seq<T>, keyOf: T -> K, i: int)
  {
    0 <= i < |items| && forall j :: i < j < |items| ==> keyOf(items[j]) != keyOf(items[i])
  }

  /** Each value of the map built from keyed items sits under its own key. */
  lemma ValuesUnderOwnKeys<T, K(!new)>(items: seq<T>, keyOf: T -> K)
    ensures var m := FromEntries(Keyed(items, keyOf));
      KeysIn(m.Values(), keyOf) == m.keys
  {
    var ps := Keyed(items, keyOf);
    var m := FromEntries(ps);
    var r := m.Values();
    forall p | 0 <= p < |r|
      ensures keyOf(r[p]) == m.keys[p]
    {
      var i := LastIndexOf(ps, m.keys[p]);
      FromEntriesLastWins(ps, i);
      assert ps[i] == (keyOf(items[i]), items[i]);
      assert r[p] == m.entries[m.keys[p]] == items[i];
    }
    var ks := KeysIn(r, keyOf);
    assert |ks| == |m.keys|;
    assert forall p :: 0 <= p < |ks| ==> ks[p] == m.keys[p];
  }

  /** Each value of the map built from keyed items is the last item with its key. */
  lemma ValuesAreLast<T, K(!new)>(items: seq<T>, keyOf: T -> K)
    ensures var r := FromEntries(Keyed(items, keyOf)).Values();
      forall p :: 0 <= p < |r| ==> exists i :: LastWithKey(items, keyOf, i) && r[p] == items[i]
  {
    var ps := Keyed(items, keyOf);
    var m := FromEntries(ps);
    var r := m.Values();
    forall p | 0 <= p < |r|
      ensures exists i :: LastWithKey(items, keyOf, i) && r[p] == items[i]
    {
      var i := LastIndexOf(ps, m.keys[p]);
      FromEntriesLastWins(ps, i);
      assert LastWithKey(items, keyOf, i);
    }
  }

  /**
   * The merge holds one item per key; the keys come in the order they first
   * appear in `array1` followed by `array2`; and each kept item is the last item with its
   * key, so every item of the result comes from the input.
   */
  lemma MergeShape<T, K(!new)>(items1: Option<seq<T>>, items2: Option<seq<T>>, keyOf: T -> K)
    ensures var items := items1.GetOr([]) + items2.GetOr([]);
      var r := MergeAndRemoveDuplicate(items1, items2, keyOf);
      && (forall i, j :: 0 <= i < j < |r| ==> keyOf(r[i]) != keyOf(r[j]))
      && KeysIn(r, keyOf) == FirstOccurrences(KeysIn(items, keyOf))
      && (forall p :: 0 <= p < |r| ==> exists i :: LastWithKey(items, keyOf, i) && r[p] == items[i])
  {
    var items := items1.GetOr([]) + items2.GetOr([]);
    var ps := Keyed(items, keyOf);
    var m := FromEntries(ps);
    assert KeysOf(ps) == KeysIn(items, keyOf);
    FromEntriesKeyOrder(ps);
    ValuesUnderOwnKeys(items, keyOf);
    ValuesAreLast(items, keyOf);
  }

  /**
   * Every input item that is the last with its key is kept; in particular an
   * item of `items2` overrides every item of `items1` with the same key.
   */
  lemma MergeKeepsLast<T, K(!new)>(items1: Option<seq<T>>, items2: Option<seq<T>>, keyOf: T -> K, i: int)
    requires LastWithKey(items1.GetOr([]) + items2.GetOr([]), keyOf, i)
    ensures (items1.GetOr([]) + items2.GetOr([]))[i] in MergeAndRemoveDuplicate(items1, items2, keyOf)
  {
    var items := items1.GetOr([]) + items2.GetOr([]);
    var ps := Keyed(items, keyOf);
    var m := FromEntries(ps);
    FromEntriesLastWins(ps, i);
    var k := ps[i].0;
    var p :| 0 <= p < |m.keys| && m.keys[p] == k;
    assert m.Values()[p] == items[i];
  }

  /** Every key of the input appears in the merge. */
  lemma MergeCoversKeys<T, K(!new)>(items1: Option<seq<T>>, items2: Option<seq<T>>, keyOf: T -> K, i: int)
    requires 0 <= i < |items1.GetOr([]) + items2.GetOr([])|
    ensures exists p :: (0 <= p < |MergeAndRemoveDuplicate(items1, items2, keyOf)|
      && keyOf(MergeAndRemoveDuplicate(items1, items2, keyOf)[p]) == keyOf((items1.GetOr([]) + items2.GetOr([]))[i]))
  {
    var items := items1.GetOr([]) + items2.GetOr([]);
    var ps := Keyed(items, keyOf);
    var last := LastIndexOf(ps, keyOf(items[i]));
    MergeKeepsLast(items1, items2, keyOf, last);
  }

  /** Two omitted arrays merge to nothing. */
  lemma MergeOfNothing<T, K(!new)>(keyOf: T -> K)
    ensures MergeAndRemoveDuplicate(None, None, keyOf) == []
  {
  }

  /**
   * `arraysAreEqual(ary1, ary2)`: the arrays' `join('')` are equal. Element-wise
   * equal arrays compare equal; the converse fails (`NotElementWise`).
   */
  predicate ArraysAreEqual(ary1: seq<string>, ary2: seq<string>)
  {
    JoinWith(ary1, "") == JoinWith(ary2, "")
  }

  /** The comparison is an equivalence: reflexive, symmetric and transitive. */
  lemma ArraysAreEqualIsEquivalence(a: seq<string>, b: seq<string>, c: seq<string>)
    ensures ArraysAreEqual(a, a)
    ensures ArraysAreEqual(a, b) ==> ArraysAreEqual(b, a)
    ensures ArraysAreEqual(a, b) && ArraysAreEqual(b, c) ==> ArraysAreEqual(a, c)
  {
  }

  /** Comparing equal is preserved by appending arrays that compare equal. */
  lemma ArraysAreEqualAppend(a1: seq<string>, b1: seq<string>, a2: seq<string>, b2: seq<string>)
    requires ArraysAreEqual(a1, b1) && ArraysAreEqual(a2, b2)
    ensures ArraysAreEqual(a1 + a2, b1 + b2)
  {
    JoinEmptyAppend(a1, a2);
    JoinEmptyAppend(b1, b2);
  }

  /** Element-wise equal arrays compare equal, but not conversely: `["ab","c"]` and `["a","bc"]` compare equal. */
  lemma NotElementWise()
    ensures ArraysAreEqual(["ab", "c"], ["a", "bc"])
    ensures ["ab", "c"] != ["a", "bc"]
  {
    assert ["ab", "c"][..1] == ["ab"];
    assert ["a", "bc"][..1] == ["a"];
    assert ["ab", "c"][0] != ["a", "bc"][0];
  }

  /** Empty strings are invisible to the comparison: an array compares equal to itself with one inserted anywhere. */
  lemma EmptyElementsIgnored(a: seq<string>, b: seq<string>)
    ensures ArraysAreEqual(a + [""] + b, a + b)
  {
    JoinEmptyAppend(a + [""], b);
    JoinEmptyAppend(a, [""]);
    JoinEmptyAppend(a, b);
  }
}
