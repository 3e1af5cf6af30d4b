/**
 * The conversion between the in-memory maps and the plain objects written
 * to the state file (index.js:1333-1348). An in-memory map is its list of
 * entries in insertion order, with no key twice; an object is a Dafny
 * `map`, whose entries carry no order.
 */
module Snapshot {
  import opened Wrappers

  /** A JavaScript `Map` with string keys: its entries in insertion order. */
  type Entries<V> = seq<(string, V)>

  /** No key occurs twice, as in every `Map`. */
  predicate KeysDistinct<V>(es: Entries<V>) {
    forall i, j :: 0 <= i < j < |es| ==> es[i].0 != es[j].0
  }

  /** The key/value content of a list of entries, a later entry winning. */
  function AsMap<V>(es: Entries<V>): (m: map<string, V>)
    ensures forall k :: k in m <==> exists i :: 0 <= i < |es| && es[i].0 == k
  {
    if es == [] then map[]
    else
      var rest := AsMap(es[..|es| - 1]);
      var last := es[|es| - 1];
      assert forall i :: 0 <= i < |es| - 1 ==> es[..|es| - 1][i] == es[i];
      rest[last.0 := last.1]
  }

  /** Every entry of a map without repeated keys is in its content. */
  lemma {:induction false} AsMapEntries<V>(es: Entries<V>)
    requires KeysDistinct(es)
    ensures forall i :: 0 <= i < |es| ==> AsMap(es)[es[i].0] == es[i].1
  {
    if es != [] {
      var pre := es[..|es| - 1];
      AsMapEntries(pre);
      forall i | 0 <= i < |es| - 1
        ensures AsMap(es)[es[i].0] == es[i].1
      {
        assert pre[i] == es[i];
      }
    }
  }

  /**
   * `Map.prototype.set`: a key already present keeps its position and takes
   * the new value; a new key is appended.
   */
  function SetEntry<V>(es: Entries<V>, k: string, v: V): (r: Entries<V>)
    requires KeysDistinct(es)
    ensures KeysDistinct(r)
    ensures AsMap(r) == AsMap(es)[k := v]
    ensures (exists i :: 0 <= i < |es| && es[i].0 == k) ==> |r| == |es|
    ensures (forall i :: 0 <= i < |es| ==> es[i].0 != k) ==> r == es + [(k, v)]
  {
    if exists i :: 0 <= i < |es| && es[i].0 == k then
      var i :| 0 <= i < |es| && es[i].0 == k;
      var r := es[i := (k, v)];
      SetInPlace(es, i, v);
      r
    else
      var r := es + [(k, v)];
      assert r[..|r| - 1] == es;
      r
  }

  /** Replacing the value of an entry in place changes only that key's value. */
  lemma SetInPlace<V>(es: Entries<V>, i: nat, v: V)
    requires KeysDistinct(es) && i < |es|
    ensures KeysDistinct(es[i := (es[i].0, v)])
    ensures AsMap(es[i := (es[i].0, v)]) == AsMap(es)[es[i].0 := v]
  {
    var r := es[i := (es[i].0, v)];
    SameKeys(es, i, v);
    AsMapEntries(es);
    AsMapEntries(r);
    var want := AsMap(es)[es[i].0 := v];
    assert AsMap(r).Keys == want.Keys;
    forall k | k in AsMap(r)
      ensures AsMap(r)[k] == want[k]
    {
      var j :| 0 <= j < |r| && r[j].0 == k;
      if j == i {
        assert AsMap(r)[k] == v;
      } else {
        assert r[j] == es[j] && k != es[i].0;
        assert AsMap(r)[k] == es[j].1 == AsMap(es)[k];
      }
    }
  }

  /** Replacing a value in place keeps the keys. */
  lemma SameKeys<V>(es: Entries<V>, i: nat, v: V)
    requires KeysDistinct(es) && i < |es|
    ensures KeysDistinct(es[i := (es[i].0, v)])
    ensures AsMap(es[i := (es[i].0, v)]).Keys == AsMap(es).Keys
  {
    var r := es[i := (es[i].0, v)];
    assert forall j :: 0 <= j < |r| ==> r[j].0 == es[j].0;
  }

  /** `mapToObject` (index.js:1333-1339): copies every entry into a fresh object. */
  method MapToObject<V>(es: Entries<V>) returns (obj: map<string, V>)
    ensures obj == AsMap(es)
  {
    obj := map[];
    var i := 0;
    while i < |es|
      invariant 0 <= i <= |es|
      invariant obj == AsMap(es[..i])
    {
      assert es[..i + 1][..i] == es[..i];
      obj := obj[es[i].0 := es[i].1];
      i := i + 1;
    }
    assert es[..i] == es;
  }

  /**
   * `objectToMap` (index.js:1341-1348): an absent object gives the empty
   * map; otherwise each of the object's entries is set into a new map, in
   * the order the object enumerates them (any order here).
   */
  method ObjectToMap<V>(obj: Option<map<string, V>>) returns (es: Entries<V>)
    ensures obj.None? ==> es == []
    ensures obj.Some? ==> KeysDistinct(es) && AsMap(es) == obj.value
  {
    es := [];
    if obj.None? {
      return;
    }
    var o := obj.value;
    var rest := o.Keys;
    while rest != {}
      invariant rest <= o.Keys
      invariant KeysDistinct(es)
      invariant AsMap(es).Keys == o.Keys - rest
      invariant forall k :: k in AsMap(es) ==> AsMap(es)[k] == o[k]
      decreases |rest|
    {
      var k :| k in rest;
      es := SetEntry(es, k, o[k]);
      rest := rest - {k};
    }
  }

  /** Two maps without repeated keys and with the same content hold the same entries. */
  lemma SameEntries<V>(a: Entries<V>, b: Entries<V>)
    requires KeysDistinct(a) && KeysDistinct(b) && AsMap(a) == AsMap(b)
    ensures forall e :: e in a <==> e in b
  {
    AsMapEntries(a);
    AsMapEntries(b);
    forall e | e in a
      ensures e in b
    {
      var i :| 0 <= i < |a| && a[i] == e;
      assert e.0 in AsMap(b);
      var j :| 0 <= j < |b| && b[j].0 == e.0;
      assert b[j] == e;
    }
    forall e | e in b
      ensures e in a
    {
      var j :| 0 <= j < |b| && b[j] == e;
      assert e.0 in AsMap(a);
      var i :| 0 <= i < |a| && a[i].0 == e.0;
      assert a[i] == e;
    }
  }

  /**
   * Saving a map and loading it back (index.js:1333-1348) gives a map with
   * the same key/value entries, possibly in another order.
   */
  method RoundTrip<V(==)>(es: Entries<V>) returns (back: Entries<V>)
    requires KeysDistinct(es)
    ensures KeysDistinct(back) && |back| == |es|
    ensures forall e :: e in back <==> e in es
  {
    var obj := MapToObject(es);
    back := ObjectToMap(Some(obj));
    SameEntries(back, es);
    SameLength(back, es);
  }

  /** Position `l` of a list with its `j`-th element removed. */
  lemma RemoveAt<T>(b: seq<T>, j: int, l: int)
    requires 0 <= j < |b| && 0 <= l < |b| - 1
    ensures (b[..j] + b[j + 1..])[l] == b[if l < j then l else l + 1]
  {
  }

  /** Lists without repeated keys and with the same entries have the same length. */
  lemma {:induction false} SameLength<V>(a: Entries<V>, b: Entries<V>)
    requires KeysDistinct(a) && KeysDistinct(b)
    requires forall e :: e in a <==> e in b
    ensures |a| == |b|
    decreases |a| + |b|, if a == [] then 1 else 0
  {
    if a != [] {
      var x := a[|a| - 1];
      assert x in b;
      var j :| 0 <= j < |b| && b[j] == x;
      var a' := a[..|a| - 1];
      var b' := b[..j] + b[j + 1..];
      forall e
        ensures e in a' <==> e in b'
      {
        if e in a' {
          var i :| 0 <= i < |a'| && a'[i] == e;
          assert a[i] == e && e in b;
          var l :| 0 <= l < |b| && b[l] == e;
          assert l != j by {
            assert a[i].0 != a[|a| - 1].0;
          }
          if l < j {
            RemoveAt(b, j, l);
          } else {
            RemoveAt(b, j, l - 1);
          }
        }
        if e in b' {
          var l :| 0 <= l < |b'| && b'[l] == e;
          var l0 := if l < j then l else l + 1;
          RemoveAt(b, j, l);
          assert b[l0] == e && l0 != j;
          assert e in a;
          var i :| 0 <= i < |a| && a[i] == e;
          assert i != |a| - 1 by {
            assert b[l0].0 != b[j].0;
          }
          assert a'[i] == e;
        }
      }
      assert KeysDistinct(b') by {
        forall p, q | 0 <= p < q < |b'|
          ensures b'[p].0 != b'[q].0
        {
          RemoveAt(b, j, p);
          RemoveAt(b, j, q);
        }
      }
      SameLength(a', b');
    } else if b != [] {
      SameLength(b, a);
    }
  }
}
