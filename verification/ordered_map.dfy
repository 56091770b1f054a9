/**
 * An insertion-ordered dictionary: the semantics of a JavaScript `Map` and of
 * the own string-keyed properties of a plain object. Assigning an existing key
 * replaces its value and keeps its position; assigning a new key appends it.
 */
module OrderedMaps {

  datatype OrderedMap<K(==,!new), V> = OrderedMap(keys: seq<K>, entries: map<K, V>) {

    /** The keys are distinct and are exactly the keys of `entries`. */
    ghost predicate Valid()
    {
      && (forall i, j :: 0 <= i < j < |keys| ==> keys[i] != keys[j])
      && (forall k :: k in entries <==> k in keys)
    }

    /** `m.set(k, v)` / `obj[k] = v`. */
    function Set(k: K, v: V): (r: OrderedMap<K, V>)
      requires Valid()
      ensures r.Valid()
      ensures r.entries == entries[k := v]
      ensures k in keys ==> r.keys == keys
      ensures k !in keys ==> r.keys == keys + [k]
    {
      if k in entries then OrderedMap(keys, entries[k := v])
      else OrderedMap(keys + [k], entries[k := v])
    }

    /** `[...m.values()]`: the values in key order. */
    function Values(): (vs: seq<V>)
      requires Valid()
      ensures |vs| == |keys|
      ensures forall i :: 0 <= i < |keys| ==> vs[i] == entries[keys[i]]
    {
      ValuesAt(keys, entries)
    }
  }

  function ValuesAt<K, V>(ks: seq<K>, m: map<K, V>): (vs: seq<V>)
    requires forall k :: k in ks ==> k in m
    ensures |vs| == |ks|
    ensures forall i :: 0 <= i < |ks| ==> vs[i] == m[ks[i]]
  {
    if ks == [] then [] else ValuesAt(ks[..|ks| - 1], m) + [m[ks[|ks| - 1]]]
  }

  function Empty<K(==,!new), V>(): (m: OrderedMap<K, V>)
    ensures m.Valid() && m.keys == []
  {
    OrderedMap([], map[])
  }

  /** The keys of a list of entries, in list order (duplicates kept). */
  function KeysOf<K, V>(ps: seq<(K, V)>): (ks: seq<K>)
    ensures |ks| == |ps|
    ensures forall i :: 0 <= i < |ps| ==> ks[i] == ps[i].0
  {
    if ps == [] then [] else KeysOf(ps[..|ps| - 1]) + [ps[|ps| - 1].0]
  }

  /**
   * `new Map(ps)`: the entries assigned one after another, left to right. The
   * first entry's key comes first, and the keys are those of the list.
   */
  function FromEntries<K(==,!new), V>(ps: seq<(K, V)>): (m: OrderedMap<K, V>)
    ensures m.Valid()
    ensures forall k :: k in m.entries <==> k in KeysOf(ps)
    ensures |ps| > 0 ==> |m.keys| > 0 && m.keys[0] == ps[0].0
  {
    if ps == [] then Empty()
    else
      var init := ps[..|ps| - 1];
      var m0 := FromEntries(init);
      assert KeysOf(ps) == KeysOf(init) + [ps[|ps| - 1].0];
      assert |init| > 0 ==> init[0] == ps[0];
      m0.Set(ps[|ps| - 1].0, ps[|ps| - 1].1)
  }

  /** Entry `i` of `ps` is the last one with its key. */
  ghost predicate LastOfKey<K, V>(ps: seq<(K, V)>, i: int)
  {
    0 <= i < |ps| && forall j :: i < j < |ps| ==> ps[j].0 != ps[i].0
  }

  /** Every key of a list of entries has a last entry. */
  lemma {:induction false} LastIndexOf<K, V>(ps: seq<(K, V)>, k: K) returns (i: nat)
    requires k in KeysOf(ps)
    ensures LastOfKey(ps, i) && ps[i].0 == k
  {
    var n := |ps| - 1;
    if ps[n].0 == k {
      i := n;
    } else {
      assert KeysOf(ps) == KeysOf(ps[..n]) + [ps[n].0];
      i := LastIndexOf(ps[..n], k);
    }
  }

  /** The value a key ends up with is the value of its last entry: later entries override earlier ones. */
  lemma {:induction false} FromEntriesLastWins<K(!new), V>(ps: seq<(K, V)>, i: int)
    requires LastOfKey(ps, i)
    ensures ps[i].0 in FromEntries(ps).entries
    ensures FromEntries(ps).entries[ps[i].0] == ps[i].1
  {
    var n := |ps| - 1;
    if i < n {
      var init := ps[..n];
      FromEntriesLastWins(init, i);
    }
  }

  /**
   * A reference for "keys in order of first appearance", defined from the front:
   * keep the first key, drop its later copies, and continue.
   */
  function FirstOccurrences<K(==,!new)>(ks: seq<K>): seq<K>
    decreases |ks|
  {
    if ks == [] then [] else [ks[0]] + FirstOccurrences(Without(ks[1..], ks[0]))
  }

  /** `ks` with every copy of `x` removed. */
  function Without<K(==,!new)>(ks: seq<K>, x: K): (r: seq<K>)
    ensures |r| <= |ks|
    ensures forall k :: k in r <==> k in ks && k != x
  {
    if ks == [] then []
    else if ks[|ks| - 1] == x then Without(ks[..|ks| - 1], x)
    else Without(ks[..|ks| - 1], x) + [ks[|ks| - 1]]
  }

  lemma {:induction false} WithoutAppend<K(!new)>(ks: seq<K>, k: K, x: K)
    ensures Without(ks + [k], x) == if k == x then Without(ks, x) else Without(ks, x) + [k]
  {
    assert (ks + [k])[..|ks|] == ks;
  }

  /** Appending a key adds it to the first-appearance order exactly when it is new. */
  lemma {:induction false} FirstOccurrencesAppend<K(!new)>(ks: seq<K>, k: K)
    ensures FirstOccurrences(ks + [k]) == if k in ks then FirstOccurrences(ks) else FirstOccurrences(ks) + [k]
    decreases |ks|
  {
    if ks == [] {
      assert Without([], k) == [];
    } else {
      var a := ks[0];
      var t := ks[1..];
      assert (ks + [k])[0] == a && (ks + [k])[1..] == t + [k];
      WithoutAppend(t, k, a);
      if k != a {
        FirstOccurrencesAppend(Without(t, a), k);
        assert k in Without(t, a) <==> k in ks;
      }
    }
  }

  /** The key order of `new Map(ps)` is the order in which keys first appear in `ps`. */
  lemma {:induction false} FromEntriesKeyOrder<K(!new), V>(ps: seq<(K, V)>)
    ensures FromEntries(ps).keys == FirstOccurrences(KeysOf(ps))
  {
    if ps != [] {
      var n := |ps| - 1;
      FromEntriesKeyOrder(ps[..n]);
      assert KeysOf(ps) == KeysOf(ps[..n]) + [ps[n].0];
      FirstOccurrencesAppend(KeysOf(ps[..n]), ps[n].0);
    }
  }
}
