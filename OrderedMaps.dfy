/**
 * The ECMAScript `Map` that backs every table of the in-memory store: a finite
 * map from string keys that remembers insertion order. `set` on a key already
 * present replaces the value and keeps the key's position, `set` on a new key
 * appends it, `delete` removes it and reports whether it was there, and
 * `Array.from(m.values())` lists the values in key order. The scans the store
 * runs over that list (`filter`, `find`) are here too.
 */
module OrderedMaps {
  import opened Wrappers

  /** No element occurs twice. */
  predicate Distinct<T(==)>(s: seq<T>) {
    forall i, j :: 0 <= i < j < |s| ==> s[i] != s[j]
  }

  /**
   * `r` lists some of the elements of `s` in the order they occur there: each
   * element of `r` is matched, left to right, with a later element of `s`.
   */
  ghost predicate IsSubsequence<T>(r: seq<T>, s: seq<T>)
    decreases |s|
  {
    r == [] || (s != [] && if r[0] == s[0] then IsSubsequence(r[1..], s[1..]) else IsSubsequence(r, s[1..]))
  }

  /** `s` with every occurrence of `k` removed, order kept. */
  function Without(s: seq<string>, k: string): (r: seq<string>)
    ensures forall x :: x in r <==> x in s && x != k
    ensures IsSubsequence(r, s)
    ensures forall x :: x != k ==> multiset(r)[x] == multiset(s)[x]
    ensures k !in s ==> r == s
    ensures Distinct(s) ==> Distinct(r)
    ensures |r| <= |s|
  {
    if s == [] then []
    else
      var rest := Without(s[1..], k);
      assert Distinct(s) ==> Distinct(s[1..]) && s[0] !in s[1..] by {
        if Distinct(s) {
          forall j | 0 <= j < |s[1..]| ensures s[1..][j] != s[0] {
            assert s[1..][j] == s[j + 1];
          }
        }
      }
      assert s == [s[0]] + s[1..];
      if s[0] == k then rest else DistinctCons(s[0], rest); [s[0]] + rest
  }

  /** Prepending an element absent from a duplicate-free sequence keeps it duplicate-free. */
  lemma DistinctCons<T>(x: T, s: seq<T>)
    ensures x !in s && Distinct(s) ==> Distinct([x] + s)
  {
    if x !in s && Distinct(s) {
      forall i, j | 0 <= i < j < |[x] + s| ensures ([x] + s)[i] != ([x] + s)[j] {
        if i == 0 {
          assert ([x] + s)[j] == s[j - 1];
        } else {
          assert ([x] + s)[i] == s[i - 1] && ([x] + s)[j] == s[j - 1];
        }
      }
    }
  }

  datatype OMap<V(==, !new)> = OMap(keys: seq<string>, entries: map<string, V>) {

    /** The keys list holds each key of `entries` exactly once. */
    ghost predicate Valid() {
      && Distinct(keys)
      && (forall k :: k in entries <==> k in keys)
    }

    /** `Map.prototype.set`. */
    function Set(k: string, v: V): (r: OMap<V>)
      requires Valid()
      ensures r.Valid()
      ensures r.entries == entries[k := v]
      ensures k in entries ==> r.keys == keys
      ensures k !in entries ==> r.keys == keys + [k]
    {
      OMap(if k in entries then keys else keys + [k], entries[k := v])
    }

    /** `Map.prototype.delete`: the map without `k`, and whether `k` was there. */
    function Delete(k: string): (r: (OMap<V>, bool))
      requires Valid()
      ensures r.0.Valid()
      ensures r.1 <==> k in entries
      ensures r.0.entries == entries - {k}
      ensures k !in r.0.entries
      ensures IsSubsequence(r.0.keys, keys)
      ensures k !in entries ==> r.0 == this
    {
      assert k !in entries ==> entries - {k} == entries;
      (OMap(Without(keys, k), entries - {k}), k in entries)
    }

    /** `Array.from(m.values())`: the values in insertion order of their keys. */
    function Values(): (r: seq<V>)
      requires Valid()
      ensures |r| == |keys|
      ensures forall i :: 0 <= i < |keys| ==> r[i] == entries[keys[i]]
      ensures forall v :: v in r <==> v in entries.Values
    {
      var r := seq(|keys|, i requires 0 <= i < |keys| => entries[keys[i]]);
      assert forall v :: v in entries.Values ==> v in r by {
        forall v | v in entries.Values ensures v in r {
          var k :| k in entries && entries[k] == v;
          var i := IndexOf(keys, k);
          assert r[i] == v;
        }
      }
      r
    }
  }

  /** The position of `x` in `s`. */
  function IndexOf<T(==)>(s: seq<T>, x: T): (i: nat)
    requires x in s
    ensures i < |s| && s[i] == x
    ensures forall j :: 0 <= j < i ==> s[j] != x
  {
    if s[0] == x then 0 else 1 + IndexOf(s[1..], x)
  }

  /** The empty map of `new Map()`. */
  function Empty<V(==, !new)>(): (m: OMap<V>)
    ensures m.Valid() && m.entries == map[] && m.Values() == []
  {
    OMap([], map[])
  }

  /** `Array.prototype.filter`: the elements satisfying `p`, in order. */
  function Filter<T(!new)>(s: seq<T>, p: T -> bool): (r: seq<T>)
    ensures forall x :: x in r <==> x in s && p(x)
    ensures forall i :: 0 <= i < |r| ==> p(r[i])
    ensures IsSubsequence(r, s)
    ensures forall x :: p(x) ==> multiset(r)[x] == multiset(s)[x]
    ensures |r| <= |s|
  {
    if s == [] then []
    else
      var rest := Filter(s[1..], p);
      assert s == [s[0]] + s[1..];
      if p(s[0]) then [s[0]] + rest else rest
  }

  /** The position `Array.prototype.find` stops at: the first element satisfying `p`. */
  function FirstIndex<T(!new)>(s: seq<T>, p: T -> bool): (r: Option<nat>)
    ensures r.Some? ==> r.value < |s| && p(s[r.value])
    ensures r.Some? ==> forall j :: 0 <= j < r.value ==> !p(s[j])
    ensures r.None? <==> forall x :: x in s ==> !p(x)
  {
    if s == [] then None
    else if p(s[0]) then Some(0)
    else match FirstIndex(s[1..], p)
      case None => None
      case Some(i) => Some(i + 1)
  }

  /** `Array.prototype.find`: the first element satisfying `p`, if any. */
  function Find<T(!new)>(s: seq<T>, p: T -> bool): (r: Option<T>)
    ensures r.Some? ==> r.value in s && p(r.value)
    ensures r.Some? ==> exists i :: 0 <= i < |s| && s[i] == r.value && forall j :: 0 <= j < i ==> !p(s[j])
    ensures r.None? <==> forall x :: x in s ==> !p(x)
  {
    match FirstIndex(s, p)
    case None => None
    case Some(i) => Some(s[i])
  }

  /** Setting a fresh key appends its value at the end of the value list. */
  lemma SetFreshAppends<V(!new)>(m: OMap<V>, k: string, v: V)
    requires m.Valid() && k !in m.entries
    ensures m.Set(k, v).Values() == m.Values() + [v]
  {
    var r := m.Set(k, v);
    assert forall i :: 0 <= i < |m.keys| ==> r.keys[i] == m.keys[i] && m.keys[i] != k;
  }

  /** Setting a present key replaces its value in place: no entry moves. */
  lemma SetPresentReplaces<V(!new)>(m: OMap<V>, k: string, v: V)
    requires m.Valid() && k in m.entries
    ensures m.Set(k, v).Values() == m.Values()[IndexOf(m.keys, k) := v]
  {
    var i := IndexOf(m.keys, k);
    var r := m.Set(k, v);
    forall j | 0 <= j < |m.keys|
      ensures r.Values()[j] == m.Values()[i := v][j]
    {
      if j != i {
        assert m.keys[j] != k;
      }
    }
  }

  /** Deleting a key twice: the first delete reports whether it was there, the second reports false. */
  lemma DeleteTwice<V(!new)>(m: OMap<V>, k: string)
    requires m.Valid()
    ensures m.Delete(k).1 == (k in m.entries)
    ensures !m.Delete(k).0.Delete(k).1
  {
  }
}
