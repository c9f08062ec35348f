// A JavaScript `Map`: entries in insertion order, where setting a present key keeps its place.
module JsMap {

  datatype Option<+T> = None | Some(value: T)

  function Put<K(==), V>(m: seq<(K, V)>, k: K, v: V): seq<(K, V)>
  {
    if m == [] then [(k, v)]
    else if m[0].0 == k then [(k, v)] + m[1..]
    else [m[0]] + Put(m[1..], k, v)
  }

  /** Set every entry in turn. */
  function PutAll<K(==), V>(m: seq<(K, V)>, entries: seq<(K, V)>): seq<(K, V)>
    decreases |entries|
  {
    if entries == [] then m else PutAll(Put(m, entries[0].0, entries[0].1), entries[1..])
  }

  function Lookup<K(==), V>(m: seq<(K, V)>, k: K): Option<V>
  {
    if m == [] then None else if m[0].0 == k then Some(m[0].1) else Lookup(m[1..], k)
  }

  function Keys<K, V>(m: seq<(K, V)>): seq<K>
  {
    if m == [] then [] else [m[0].0] + Keys(m[1..])
  }

  function Values<K, V>(m: seq<(K, V)>): seq<V>
  {
    if m == [] then [] else [m[0].1] + Values(m[1..])
  }

  /** No key occurs twice. */
  predicate Unique<K(==), V>(m: seq<(K, V)>)
  {
    m == [] || (Lookup(m[1..], m[0].0).None? && Unique(m[1..]))
  }

  /** The value the last entry for `k` carries. */
  function LastValue<K(==), V>(entries: seq<(K, V)>, k: K): Option<V>
  {
    if entries == [] then None
    else
      var later := LastValue(entries[1..], k);
      if later.Some? then later else if entries[0].0 == k then Some(entries[0].1) else None
  }

  lemma {:induction false} PutLookup<K, V>(m: seq<(K, V)>, k: K, v: V, j: K)
    ensures Lookup(Put(m, k, v), j) == if j == k then Some(v) else Lookup(m, j)
  {
    if m != [] && m[0].0 != k {
      PutLookup(m[1..], k, v, j);
    }
  }

  lemma {:induction false} PutUnique<K, V>(m: seq<(K, V)>, k: K, v: V)
    requires Unique(m)
    ensures Unique(Put(m, k, v))
  {
    if m != [] && m[0].0 != k {
      PutUnique(m[1..], k, v);
      PutLookup(m[1..], k, v, m[0].0);
    }
  }

  /** Setting entries one by one leaves every key once, with the value set last. */
  lemma {:induction false} PutAllLookup<K, V>(m: seq<(K, V)>, entries: seq<(K, V)>, k: K)
    requires Unique(m)
    ensures Unique(PutAll(m, entries))
    ensures Lookup(PutAll(m, entries), k)
         == if LastValue(entries, k).Some? then LastValue(entries, k) else Lookup(m, k)
    decreases |entries|
  {
    if entries != [] {
      PutUnique(m, entries[0].0, entries[0].1);
      PutLookup(m, entries[0].0, entries[0].1, k);
      PutAllLookup(Put(m, entries[0].0, entries[0].1), entries[1..], k);
    }
  }

  lemma {:induction false} PutNew<K, V>(m: seq<(K, V)>, k: K, v: V)
    requires Lookup(m, k).None?
    ensures Put(m, k, v) == m + [(k, v)]
  {
    if m != [] {
      PutNew(m[1..], k, v);
      assert m == [m[0]] + m[1..];
    }
  }

  lemma {:induction false} LookupAppend<K, V>(a: seq<(K, V)>, b: seq<(K, V)>, k: K)
    ensures Lookup(a + b, k) == if Lookup(a, k).Some? then Lookup(a, k) else Lookup(b, k)
  {
    if a == [] {
      assert a + b == b;
    } else {
      assert (a + b)[1..] == a[1..] + b;
      LookupAppend(a[1..], b, k);
    }
  }

  lemma {:induction false} UniqueAppend<K, V>(a: seq<(K, V)>, e: (K, V), b: seq<(K, V)>)
    requires Unique(a + [e] + b)
    ensures Lookup(a, e.0).None?
  {
    if a != [] {
      var all := a + [e] + b;
      assert all[1..] == a[1..] + [e] + b;
      UniqueAppend(a[1..], e, b);
      LookupAppend(a[1..] + [e], b, a[0].0);
      LookupAppend(a[1..], [e], a[0].0);
    }
  }

  lemma {:induction false} PutAllAppends<K, V>(m: seq<(K, V)>, entries: seq<(K, V)>)
    requires Unique(m + entries)
    ensures PutAll(m, entries) == m + entries
    decreases |entries|
  {
    if entries == [] {
      assert m + entries == m;
    } else {
      var e, rest := entries[0], entries[1..];
      assert m + entries == m + [e] + rest;
      UniqueAppend(m, e, rest);
      PutNew(m, e.0, e.1);
      PutAllAppends(m + [e], rest);
    }
  }

  /** Setting the entries of a map into an empty map gives the same map, in the same order. */
  lemma PutAllCopies<K, V>(m: seq<(K, V)>)
    requires Unique(m)
    ensures PutAll([], m) == m
  {
    assert [] + m == m;
    PutAllAppends([], m);
  }

  lemma {:induction false} PutAllUnique<K, V>(m: seq<(K, V)>, entries: seq<(K, V)>)
    requires Unique(m)
    ensures Unique(PutAll(m, entries))
    decreases |entries|
  {
    if entries != [] {
      PutUnique(m, entries[0].0, entries[0].1);
      PutAllUnique(Put(m, entries[0].0, entries[0].1), entries[1..]);
    }
  }

  /** The entries whose keys the map does not have yet. */
  function Missing<K(==), V>(m: seq<(K, V)>, entries: seq<(K, V)>): seq<(K, V)>
  {
    if entries == [] then []
    else (if Lookup(m, entries[0].0).None? then [entries[0]] else []) + Missing(m, entries[1..])
  }

  /** The map has a key of the entries only with the value they give it. */
  predicate Agrees<K(==), V(==)>(m: seq<(K, V)>, entries: seq<(K, V)>)
  {
    forall i :: 0 <= i < |entries| ==>
      Lookup(m, entries[i].0).None? || Lookup(m, entries[i].0) == Some(entries[i].1)
  }

  lemma {:induction false} PutSame<K, V>(m: seq<(K, V)>, k: K, v: V)
    requires Lookup(m, k) == Some(v)
    ensures Put(m, k, v) == m
  {
    if m[0].0 != k {
      PutSame(m[1..], k, v);
    }
  }

  lemma {:induction false} NotAmong<K, V>(entries: seq<(K, V)>, i: nat)
    requires Unique(entries) && 0 < i < |entries|
    ensures entries[i].0 != entries[0].0
  {
    LookupAt(entries[1..], i - 1);
  }

  lemma {:induction false} LookupAt<K, V>(entries: seq<(K, V)>, i: nat)
    requires i < |entries|
    ensures Lookup(entries, entries[i].0).Some?
  {
    if i > 0 {
      LookupAt(entries[1..], i - 1);
    }
  }

  lemma {:induction false} MissingAfter<K, V>(m: seq<(K, V)>, e: (K, V), entries: seq<(K, V)>)
    requires forall i :: 0 <= i < |entries| ==> entries[i].0 != e.0
    ensures Missing(m + [e], entries) == Missing(m, entries)
  {
    if entries != [] {
      LookupAppend(m, [e], entries[0].0);
      MissingAfter(m, e, entries[1..]);
    }
  }

  lemma AgreesAfter<K, V>(m: seq<(K, V)>, entries: seq<(K, V)>)
    requires entries != [] && Unique(entries) && Agrees(m, entries)
    ensures Agrees(m, entries[1..])
    ensures var e, rest := entries[0], entries[1..];
      Lookup(m, e.0).None? ==> Agrees(m + [e], rest) && Missing(m + [e], rest) == Missing(m, rest)
  {
    hide Unique, Missing;
    var e, rest := entries[0], entries[1..];
    forall i | 0 <= i < |rest|
      ensures rest[i] == entries[i + 1] && rest[i].0 != e.0 && Lookup(m + [e], rest[i].0) == Lookup(m, rest[i].0)
    {
      NotAmong(entries, i + 1);
      LookupAppend(m, [e], rest[i].0);
    }
    MissingAfter(m, e, rest);
  }

  /** Setting entries that agree with a map appends those it does not have, and moves nothing. */
  lemma {:induction false} PutAllAgreeing<K, V>(m: seq<(K, V)>, entries: seq<(K, V)>)
    requires Unique(entries) && Agrees(m, entries)
    ensures PutAll(m, entries) == m + Missing(m, entries)
    decreases |entries|
  {
    hide Put, Lookup;
    if entries != [] {
      var e, rest := entries[0], entries[1..];
      AgreesAfter(m, entries);
      if Lookup(m, e.0).Some? {
        assert Lookup(m, entries[0].0).None? || Lookup(m, entries[0].0) == Some(entries[0].1);
        PutSame(m, e.0, e.1);
        PutAllAgreeing(m, rest);
        assert [] + Missing(m, rest) == Missing(m, rest);
      } else {
        PutNew(m, e.0, e.1);
        PutAllAgreeing(m + [e], rest);
        assert m + [e] + Missing(m, rest) == m + ([e] + Missing(m, rest));
      }
    }
  }
}
