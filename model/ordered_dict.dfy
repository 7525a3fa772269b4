/**
  * Insertion-ordered dictionaries: Python `dict` and JavaScript `Map`.
  * Assigning a key that is already present replaces its value and keeps its
  * position; a new key goes to the end; deleting removes the key from the order.
  */
module OrderedDict {

  /** No element occurs twice. */
  ghost predicate Distinct<K>(s: seq<K>) {
    forall i, j :: 0 <= i < j < |s| ==> s[i] != s[j]
  }

  /** Dropping the last element of a distinct sequence: the rest is distinct and does not hold it. */
  lemma LastNotInFront<K>(keys: seq<K>)
    requires Distinct(keys) && keys != []
    ensures Distinct(keys[..|keys| - 1])
    ensures keys[|keys| - 1] !in keys[..|keys| - 1]
    ensures forall s :: s in keys <==> s in keys[..|keys| - 1] || s == keys[|keys| - 1]
  {
    var front := keys[..|keys| - 1];
    forall i | 0 <= i < |front| ensures front[i] != keys[|keys| - 1] {
      assert front[i] == keys[i];
    }
    assert keys == front + [keys[|keys| - 1]];
  }

  /** The elements of a non-empty sequence are those of its front and its last one. */
  lemma SnocMembers<K>(s: seq<K>)
    requires s != []
    ensures forall x :: x in s <==> x in s[..|s| - 1] || x == s[|s| - 1]
  {
    assert s == s[..|s| - 1] + [s[|s| - 1]];
  }

  datatype ODict<K(==,!new), V> = ODict(keys: seq<K>, vals: map<K, V>) {

    /** The order lists every key exactly once. */
    ghost predicate Valid() {
      Distinct(keys) && (forall k :: k in vals <==> k in keys)
    }

    /** `len(d)` */
    function Size(): nat {
      |keys|
    }
  }

  function Empty<K(==,!new), V>(): (d: ODict<K, V>)
    ensures d.Valid() && d.keys == []
  {
    ODict([], map[])
  }

  /** `d[k] = v` / `map.set(k, v)` */
  function Put<K(==,!new), V>(d: ODict<K, V>, k: K, v: V): (r: ODict<K, V>)
    requires d.Valid()
    ensures r.Valid()
    ensures r.vals == d.vals[k := v]
    ensures k in d.vals ==> r.keys == d.keys
    ensures k !in d.vals ==> r.keys == d.keys + [k]
  {
    if k in d.vals then ODict(d.keys, d.vals[k := v]) else ODict(d.keys + [k], d.vals[k := v])
  }

  /** The key order with `k` removed. */
  function Without<K(==,!new)>(s: seq<K>, k: K): (r: seq<K>)
    ensures forall x :: x in r <==> x in s && x != k
    ensures |r| <= |s|
  {
    if s == [] then []
    else (if s[0] == k then [] else [s[0]]) + Without(s[1..], k)
  }

  lemma {:induction false} WithoutDistinct<K(!new)>(s: seq<K>, k: K)
    requires Distinct(s)
    ensures Distinct(Without(s, k))
  {
    if s != [] {
      WithoutDistinct(s[1..], k);
      var rest := Without(s[1..], k);
      assert s[0] !in s[1..] by {
        forall j | 0 <= j < |s[1..]| ensures s[1..][j] != s[0] {
          assert s[1..][j] == s[j + 1];
        }
      }
      var r := Without(s, k);
      if s[0] == k {
        assert r == rest;
      } else {
        assert r == [s[0]] + rest;
        forall i, j | 0 <= i < j < |r| ensures r[i] != r[j] {
          if i == 0 {
            assert r[j] == rest[j - 1];
            assert rest[j - 1] in rest;
          } else {
            assert r[i] == rest[i - 1] && r[j] == rest[j - 1];
          }
        }
      }
    }
  }

  /** `delete d[k]` / `map.delete(k)`; absent keys are ignored. */
  function Remove<K(==,!new), V>(d: ODict<K, V>, k: K): (r: ODict<K, V>)
    requires d.Valid()
    ensures r.Valid()
    ensures r.vals == d.vals - {k}
  {
    WithoutDistinct(d.keys, k);
    ODict(Without(d.keys, k), d.vals - {k})
  }

  /** Removing an absent key keeps the order. */
  lemma {:induction false} WithoutAbsent<K(!new)>(s: seq<K>, k: K)
    requires k !in s
    ensures Without(s, k) == s
  {
    if s != [] {
      WithoutAbsent(s[1..], k);
      assert s == [s[0]] + s[1..];
    }
  }

  /** Removing a key twice is removing it once. */
  lemma RemoveTwice<K(!new), V>(d: ODict<K, V>, k: K)
    requires d.Valid()
    ensures Remove(Remove(d, k), k) == Remove(d, k)
  {
    WithoutAbsent(Remove(d, k).keys, k);
  }
}
