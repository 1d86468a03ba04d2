/**
 * Python's `dict`, as the binding engine uses it: string keys kept in
 * insertion order, an assignment to an existing key updating it in place,
 * an assignment to a new key appending it.
 */
module Dicts {

  /** The value of a dict: its key listing (insertion order) and its table. */
  datatype ODict<V> = ODict(keys: seq<string>, items: map<string, V>)
  {
    /** Each key is listed once and the listing agrees with the table. */
    ghost predicate Valid() {
      && Distinct(keys)
      && (forall k :: k in items <==> k in keys)
    }

    /** `d[k] = v` */
    function Set(k: string, v: V): (r: ODict<V>)
      ensures Valid() ==> r.Valid()
      ensures r.items == items[k := v]
      ensures k in items ==> r.keys == keys
      ensures k !in items ==> r.keys == keys + [k]
    {
      if k in items then ODict(keys, items[k := v]) else ODict(keys + [k], items[k := v])
    }
  }

  function Empty<V>(): (r: ODict<V>)
    ensures r.Valid() && r.keys == [] && r.items == map[]
  {
    ODict([], map[])
  }

  /** A dict object: the same value, updated in place. */
  class Dict<V> {
    var keys: seq<string>
    var items: map<string, V>

    function Contents(): ODict<V>
      reads this
    {
      ODict(keys, items)
    }

    constructor (init: ODict<V>)
      ensures Contents() == init
    {
      keys := init.keys;
      items := init.items;
    }

    /** `d[k] = v` on the object. */
    method Set(k: string, v: V)
      modifies this
      ensures Contents() == old(Contents()).Set(k, v)
    {
      if k in items {
        items := items[k := v];
      } else {
        keys := keys + [k];
        items := items[k := v];
      }
    }
  }

  /** No element of `s` occurs twice. */
  /** `list(d.values())`: the values in key order. */
  function Values<V>(d: ODict<V>): (r: seq<V>)
    requires forall i :: 0 <= i < |d.keys| ==> d.keys[i] in d.items
    ensures |r| == |d.keys|
    ensures forall i :: 0 <= i < |r| ==> r[i] == d.items[d.keys[i]]
    decreases |d.keys|
  {
    if d.keys == [] then []
    else Values(ODict(d.keys[..|d.keys| - 1], d.items)) + [d.items[d.keys[|d.keys| - 1]]]
  }

  /** A well-formed dict has exactly as many entries as listed keys. */
  lemma ValidSize<V>(d: ODict<V>)
    requires d.Valid()
    ensures |d.items| == |d.keys|
  {
    assert d.items.Keys == Elements(d.keys);
    DistinctElements(d.keys);
  }

  ghost function Elements(s: seq<string>): set<string> {
    set x | x in s
  }

  lemma {:induction false} DistinctElements(s: seq<string>)
    requires Distinct(s)
    ensures |Elements(s)| == |s|
    decreases |s|
  {
    if s != [] {
      var n := |s|;
      var init := s[..n - 1];
      assert Distinct(init);
      DistinctElements(init);
      assert s == init + [s[n - 1]];
      assert Elements(s) == Elements(init) + {s[n - 1]};
      forall i | 0 <= i < |init| ensures init[i] != s[n - 1] {
        assert init[i] == s[i];
      }
      assert s[n - 1] !in Elements(init);
    }
  }

  /** A non-empty sequence has a member (handy to refute "some element exists"). */
  lemma HeadIsMember<T>(s: seq<T>)
    ensures s != [] ==> s[0] in s
  {
  }

  ghost predicate Distinct(s: seq<string>) {
    forall i, j :: 0 <= i < j < |s| ==> s[i] != s[j]
  }

  /** The elements of `s` that satisfy `p`, in order. */
  function Keep(s: seq<string>, p: string -> bool): seq<string> {
    if s == [] then [] else Keep(s[..|s| - 1], p) + (if p(s[|s| - 1]) then [s[|s| - 1]] else [])
  }

  lemma {:induction false} KeepMembers(s: seq<string>, p: string -> bool)
    ensures forall x :: x in Keep(s, p) <==> x in s && p(x)
    decreases |s|
  {
    if s != [] {
      var s' := s[..|s| - 1];
      KeepMembers(s', p);
      assert s == s' + [s[|s| - 1]];
    }
  }

  lemma {:induction false} KeepNone(s: seq<string>, p: string -> bool)
    requires forall x :: x in s ==> !p(x)
    ensures Keep(s, p) == []
    decreases |s|
  {
    if s != [] {
      assert s[|s| - 1] in s;
      assert forall x :: x in s[..|s| - 1] ==> x in s;
      KeepNone(s[..|s| - 1], p);
    }
  }

  lemma {:induction false} KeepAll(s: seq<string>, p: string -> bool)
    requires forall x :: x in s ==> p(x)
    ensures Keep(s, p) == s
    decreases |s|
  {
    if s != [] {
      assert s[|s| - 1] in s;
      assert forall x :: x in s[..|s| - 1] ==> x in s;
      KeepAll(s[..|s| - 1], p);
    }
  }

  /** Appending elements the filter rejects changes nothing. */
  lemma KeepDropTail(s: seq<string>, t: seq<string>, p: string -> bool)
    requires forall x :: x in t ==> !p(x)
    ensures Keep(s + t, p) == Keep(s, p)
  {
    KeepAppend(s, t, p);
    KeepNone(t, p);
  }

  lemma {:induction false} KeepAppend(s: seq<string>, t: seq<string>, p: string -> bool)
    ensures Keep(s + t, p) == Keep(s, p) + Keep(t, p)
    decreases |t|
  {
    if t == [] {
      assert s + t == s;
    } else {
      var t' := t[..|t| - 1];
      assert (s + t)[..|s + t| - 1] == s + t';
      KeepAppend(s, t', p);
    }
  }

  /** Filters agreeing on every element of `s` keep the same elements. */
  lemma {:induction false} KeepCongruent(s: seq<string>, p: string -> bool, q: string -> bool)
    requires forall x :: x in s ==> p(x) == q(x)
    ensures Keep(s, p) == Keep(s, q)
    decreases |s|
  {
    if s != [] {
      var s' := s[..|s| - 1];
      assert forall x :: x in s' ==> x in s;
      KeepCongruent(s', p, q);
    }
  }

  /** Distinct elements stay distinct after filtering. */
  lemma {:induction false} KeepDistinct(s: seq<string>, p: string -> bool)
    requires Distinct(s)
    ensures Distinct(Keep(s, p))
    decreases |s|
  {
    if s != [] {
      var s' := s[..|s| - 1];
      KeepDistinct(s', p);
      KeepMembers(s', p);
      assert s[|s| - 1] !in s';
      var r, r' := Keep(s, p), Keep(s', p);
      assert r == r' + (if p(s[|s| - 1]) then [s[|s| - 1]] else []);
      assert s[|s| - 1] !in r';
      forall i, j | 0 <= i < j < |r| ensures r[i] != r[j] {
        if j >= |r'| {
          assert r[i] == r'[i] && r'[i] in r';
        } else {
          assert r[i] == r'[i] && r[j] == r'[j];
        }
      }
    }
  }
}
