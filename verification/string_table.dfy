/**
 * A constant `QMap<K, QString>` used as a two-way codec between enumerators
 * and the strings the configuration file holds. The map is kept as its
 * entries in key order, which is the order a QMap iterates.
 */
module StringTable {

  type Table<K> = seq<(K, string)>

  predicate HasKey<K(==)>(t: Table<K>, k: K) {
    exists i :: 0 <= i < |t| && t[i].0 == k
  }

  predicate HasValue<K>(t: Table<K>, s: string) {
    exists i :: 0 <= i < |t| && t[i].1 == s
  }

  /** No key and no string appears twice: the table is a bijection between its keys and its strings. */
  predicate Injective<K(==)>(t: Table<K>) {
    forall i, j :: 0 <= i < j < |t| ==> t[i].0 != t[j].0 && t[i].1 != t[j].1
  }

  /** `QMap::key(s, default)`: the first key, in key order, whose string is `s`; `default` when none is. */
  function KeyOf<K>(t: Table<K>, s: string, default: K): (k: K)
    ensures HasValue(t, s) ==>
              exists i :: 0 <= i < |t| && t[i].1 == s && k == t[i].0 && forall j :: 0 <= j < i ==> t[j].1 != s
    ensures !HasValue(t, s) ==> k == default
  {
    if |t| == 0 then default
    else if t[0].1 == s then t[0].0
    else
      var k := KeyOf(t[1..], s, default);
      assert HasValue(t[1..], s) ==> HasValue(t, s);
      k
  }

  /** `QMap::value(k)` (and `operator[]` of a const map): the key's string; "" when the key is absent. */
  function ValueOf<K(==)>(t: Table<K>, k: K): (s: string)
    ensures HasKey(t, k) ==>
              exists i :: 0 <= i < |t| && t[i].0 == k && s == t[i].1 && forall j :: 0 <= j < i ==> t[j].0 != k
    ensures !HasKey(t, k) ==> s == ""
  {
    if |t| == 0 then ""
    else if t[0].0 == k then t[0].1
    else
      var s := ValueOf(t[1..], k);
      assert HasKey(t[1..], k) ==> HasKey(t, k);
      s
  }

  /** Decoding the string of a key gives the key back, whatever the fallback. */
  lemma KeyOfValueOf<K>(t: Table<K>, k: K, default: K)
    requires Injective(t) && HasKey(t, k)
    ensures KeyOf(t, ValueOf(t, k), default) == k
  {
  }

  /** Encoding a decoded string gives the string back, for every string the table holds. */
  lemma ValueOfKeyOf<K>(t: Table<K>, s: string, default: K)
    requires Injective(t) && HasValue(t, s)
    ensures ValueOf(t, KeyOf(t, s, default)) == s
  {
  }

  /** Distinct keys have distinct strings. */
  lemma ValueOfInjective<K>(t: Table<K>, a: K, b: K)
    requires Injective(t) && HasKey(t, a) && HasKey(t, b)
    requires ValueOf(t, a) == ValueOf(t, b)
    ensures a == b
  {
  }

  /**
   * The strings of the keys in `keys`, in key order (the loop over a
   * `QMap` that appends `it.value()` whenever the flag `it.key()` is set).
   */
  function ValuesIn<K>(t: Table<K>, keys: set<K>): (r: seq<string>)
    ensures |r| <= |t|
    ensures forall s :: s in r <==> exists i :: 0 <= i < |t| && t[i].0 in keys && t[i].1 == s
  {
    if |t| == 0 then []
    else
      var rest := ValuesIn(t[1..], keys);
      if t[0].0 in keys then [t[0].1] + rest else rest
  }

  /** The keys whose strings occur in `names` (the loop that ORs a flag in when `names.contains(it.value())`). */
  function KeysNamedIn<K(!new)>(t: Table<K>, names: seq<string>): (r: set<K>)
    ensures forall k :: k in r <==> exists i :: 0 <= i < |t| && t[i].0 == k && t[i].1 in names
  {
    if |t| == 0 then {}
    else
      var rest := KeysNamedIn(t[1..], names);
      if t[0].1 in names then {t[0].0} + rest else rest
  }

  /** No string occurs twice among the strings of the keys in `keys`. */
  lemma {:induction false} ValuesInDistinct<K>(t: Table<K>, keys: set<K>)
    requires Injective(t)
    ensures forall i, j :: 0 <= i < j < |ValuesIn(t, keys)| ==> ValuesIn(t, keys)[i] != ValuesIn(t, keys)[j]
  {
    if |t| > 0 {
      var tail := t[1..];
      assert Injective(tail) by {
        forall i, j | 0 <= i < j < |tail| ensures tail[i].0 != tail[j].0 && tail[i].1 != tail[j].1 {
          assert tail[i] == t[i + 1] && tail[j] == t[j + 1];
        }
      }
      ValuesInDistinct(tail, keys);
      if t[0].0 in keys {
        var rest := ValuesIn(tail, keys);
        assert t[0].1 !in rest;
      }
    }
  }

  /** Names the table does not hold do not change the decoded keys. */
  lemma KeysNamedInIgnoresUnknown<K(!new)>(t: Table<K>, names: seq<string>, unknown: string)
    requires !HasValue(t, unknown)
    ensures KeysNamedIn(t, names + [unknown]) == KeysNamedIn(t, names)
  {
    var a := KeysNamedIn(t, names + [unknown]);
    var b := KeysNamedIn(t, names);
    forall k ensures k in a <==> k in b {
      if k in a {
        var i :| 0 <= i < |t| && t[i].0 == k && t[i].1 in names + [unknown];
        assert t[i].1 != unknown;
      }
    }
  }

  /** A repeated name does not change the decoded keys. */
  lemma KeysNamedInIgnoresRepeats<K(!new)>(t: Table<K>, names: seq<string>, repeated: string)
    requires repeated in names
    ensures KeysNamedIn(t, names + [repeated]) == KeysNamedIn(t, names)
  {
    var a := KeysNamedIn(t, names + [repeated]);
    var b := KeysNamedIn(t, names);
    forall k ensures k in a <==> k in b {
      if k in a {
        var i :| 0 <= i < |t| && t[i].0 == k && t[i].1 in names + [repeated];
        assert t[i].1 in names;
      }
    }
  }

  /** Decoding the encoded strings of a key set gives the key set back, for keys the table holds. */
  lemma KeysNamedInValuesIn<K(!new)>(t: Table<K>, keys: set<K>)
    requires Injective(t)
    requires forall k :: k in keys ==> HasKey(t, k)
    ensures KeysNamedIn(t, ValuesIn(t, keys)) == keys
  {
    var r := KeysNamedIn(t, ValuesIn(t, keys));
    forall k ensures k in r <==> k in keys {
      if k in r {
        var i :| 0 <= i < |t| && t[i].0 == k && t[i].1 in ValuesIn(t, keys);
        var j :| 0 <= j < |t| && t[j].0 in keys && t[j].1 == t[i].1;
        assert i == j;
      }
      if k in keys {
        var i :| 0 <= i < |t| && t[i].0 == k;
        assert t[i].1 in ValuesIn(t, keys);
      }
    }
  }
}
