// A JavaScript `Map` (and a plain object used as a dictionary) keeps its
// entries in insertion order; several services iterate over that order. It
// is modelled as a sequence of key/value pairs with distinct keys.

module OrderedMaps {
  import opened Common

  type OMap<K, V> = seq<(K, V)>

  function Keys<K, V>(m: OMap<K, V>): (r: seq<K>)
    ensures |r| == |m|
    ensures forall i {:trigger r[i]} :: 0 <= i < |m| ==> r[i] == m[i].0
  {
    if m == [] then [] else [m[0].0] + Keys(m[1..])
  }

  function Values<K, V>(m: OMap<K, V>): (r: seq<V>)
    ensures |r| == |m|
    ensures forall i :: 0 <= i < |m| ==> r[i] == m[i].1
  {
    if m == [] then [] else [m[0].1] + Values(m[1..])
  }

  predicate HasKey<K(==), V>(m: OMap<K, V>, k: K) { k in Keys(m) }

  /** The invariant every map of the model keeps: no key twice. */
  predicate Keyed<K(==), V>(m: OMap<K, V>) { NoDuplicates(Keys(m)) }

  /** The position of `k`'s entry. */
  function IndexOf<K(==), V>(m: OMap<K, V>, k: K): (i: nat)
    requires HasKey(m, k)
    ensures i < |m| && m[i].0 == k
    ensures forall j :: 0 <= j < i ==> m[j].0 != k
  {
    if m[0].0 == k then 0
    else
      assert k in Keys(m[1..]) by { assert Keys(m) == [m[0].0] + Keys(m[1..]); }
      1 + IndexOf(m[1..], k)
  }

  /** `m.get(k)`; `None` is JavaScript's `undefined`. */
  function Get<K(==), V>(m: OMap<K, V>, k: K): (r: Option<V>)
    ensures r.None? <==> !HasKey(m, k)
  {
    if HasKey(m, k) then Some(m[IndexOf(m, k)].1) else None
  }

  /**
   * `m.set(k, v)`: an existing entry keeps its place and takes the new value;
   * a new key goes to the end.
   */
  function Put<K(==), V>(m: OMap<K, V>, k: K, v: V): OMap<K, V>
  {
    if HasKey(m, k) then m[IndexOf(m, k) := (k, v)] else m + [(k, v)]
  }

  /** An existing key keeps its place, a new one is appended, and no other entry moves. */
  lemma PutShape<K, V>(m: OMap<K, V>, k: K, v: V)
    ensures var r := Put(m, k, v);
      |r| == (if HasKey(m, k) then |m| else |m| + 1) &&
      (forall i :: 0 <= i < |m| && m[i].0 != k ==> r[i] == m[i]) &&
      Keys(r) == if HasKey(m, k) then Keys(m) else Keys(m) + [k]
  {
    var r := Put(m, k, v);
    if HasKey(m, k) {
      assert Keys(r) == Keys(m);
    } else {
      assert Keys(r) == Keys(m) + [k];
    }
  }

  /** `m.delete(k)`: every other entry stays (in its order, see `RemoveAppend`). */
  function Remove<K(==), V>(m: OMap<K, V>, k: K): (r: OMap<K, V>)
    ensures forall i :: 0 <= i < |r| ==> r[i] in m && r[i].0 != k
    ensures forall i :: 0 <= i < |m| && m[i].0 != k ==> m[i] in r
    ensures |r| <= |m|
  {
    if m == [] then []
    else if m[0].0 == k then Remove(m[1..], k)
    else [m[0]] + Remove(m[1..], k)
  }

  /** Deleting from a concatenation deletes from each part, so the entries kept keep their order. */
  lemma {:induction false} RemoveAppend<K, V>(a: OMap<K, V>, b: OMap<K, V>, k: K)
    ensures Remove(a + b, k) == Remove(a, k) + Remove(b, k)
  {
    if a != [] {
      RemoveAppend(a[1..], b, k);
      assert (a + b)[1..] == a[1..] + b;
    } else {
      assert a + b == b;
    }
  }

  lemma GetAt<K, V>(m: OMap<K, V>, i: nat)
    requires Keyed(m) && i < |m|
    ensures Get(m, m[i].0) == Some(m[i].1)
  {
    assert Keys(m)[i] == m[i].0;
    var j := IndexOf(m, m[i].0);
    assert Keys(m)[j] == m[j].0;
  }

  /** The rest of a map after its first entry is a map without the first key. */
  lemma KeyedTail<K, V>(m: OMap<K, V>)
    requires Keyed(m) && m != []
    ensures Keyed(m[1..]) && !HasKey(m[1..], m[0].0)
  {
    var t := Keys(m[1..]);
    assert Keys(m) == [m[0].0] + t;
    forall i, j | 0 <= i < j < |t| ensures t[i] != t[j] {
      assert Keys(m)[i + 1] == t[i] && Keys(m)[j + 1] == t[j];
    }
    forall l | 0 <= l < |t| ensures t[l] != m[0].0 {
      assert Keys(m)[l + 1] == t[l] && Keys(m)[0] == m[0].0;
    }
  }

  lemma PutKeyed<K, V>(m: OMap<K, V>, k: K, v: V)
    requires Keyed(m)
    ensures Keyed(Put(m, k, v))
  {
    PutShape(m, k, v);
    if !HasKey(m, k) {
      var r := Keys(m) + [k];
      forall i, j | 0 <= i < j < |r| ensures r[i] != r[j] {
        if j == |r| - 1 { assert r[i] in Keys(m); }
      }
    }
  }

  lemma PutGet<K, V>(m: OMap<K, V>, k: K, v: V, j: K)
    requires Keyed(m)
    ensures Get(Put(m, k, v), j) == if j == k then Some(v) else Get(m, j)
  {
    PutKeyed(m, k, v);
    PutShape(m, k, v);
    var r := Put(m, k, v);
    if j == k {
      if HasKey(m, k) { GetAt(r, IndexOf(m, k)); } else { GetAt(r, |m|); }
    } else if HasKey(m, j) {
      GetAt(m, IndexOf(m, j));
      GetAt(r, IndexOf(m, j));
    } else {
      assert !HasKey(r, j);
    }
  }

  lemma RemoveHasKey<K, V>(m: OMap<K, V>, k: K, j: K)
    ensures HasKey(Remove(m, k), j) <==> HasKey(m, j) && j != k
  {
    var r := Remove(m, k);
    if HasKey(r, j) {
      var i :| 0 <= i < |r| && r[i].0 == j;
      assert r[i] in m;
    }
    if HasKey(m, j) && j != k {
      var i :| 0 <= i < |m| && m[i].0 == j;
      assert m[i] in r;
      var i' :| 0 <= i' < |r| && r[i'] == m[i];
      assert Keys(r)[i'] == j;
    }
  }

  lemma {:induction false} RemoveKeyed<K, V>(m: OMap<K, V>, k: K)
    requires Keyed(m)
    ensures Keyed(Remove(m, k))
    ensures |Remove(m, k)| == if HasKey(m, k) then |m| - 1 else |m|
  {
    if m != [] {
      KeyedTail(m);
      RemoveKeyed(m[1..], k);
      if m[0].0 != k {
        var t := Remove(m[1..], k);
        assert Keys([m[0]] + t) == [m[0].0] + Keys(t);
        forall j | 0 <= j < |t| ensures m[0].0 != t[j].0 {
          assert t[j] in m[1..];
          var l :| 0 <= l < |m[1..]| && m[1..][l] == t[j];
          assert Keys(m[1..])[l] == t[j].0;
        }
      }
    }
  }

  /** A lookup of a key other than the first one's is a lookup in the rest. */
  lemma GetTail<K, V>(m: OMap<K, V>, k: K)
    requires m != [] && m[0].0 != k
    ensures Get(m, k) == Get(m[1..], k)
  {
    assert Keys(m) == [m[0].0] + Keys(m[1..]);
  }

  lemma {:induction false} RemoveGet<K, V>(m: OMap<K, V>, k: K, j: K)
    ensures Get(Remove(m, k), j) == if j == k then None else Get(m, j)
  {
    RemoveHasKey(m, k, j);
    if m != [] && j != k {
      if m[0].0 == k {
        GetTail(m, j);
        RemoveGet(m[1..], k, j);
      } else {
        var r := [m[0]] + Remove(m[1..], k);
        if j == m[0].0 {
          assert Keys(r)[0] == j;
        } else {
          GetTail(r, j);
          assert r[1..] == Remove(m[1..], k);
          RemoveGet(m[1..], k, j);
          GetTail(m, j);
        }
      }
    }
  }

  lemma KeyedAppend<K, V>(m: OMap<K, V>, e: (K, V))
    ensures Keys(m + [e]) == Keys(m) + [e.0]
    ensures Keyed(m + [e]) <==> Keyed(m) && !HasKey(m, e.0)
  {
    var r := Keys(m + [e]);
    assert r == Keys(m) + [e.0];
    if Keyed(m + [e]) {
      forall i, j | 0 <= i < j < |m| ensures Keys(m)[i] != Keys(m)[j] {
        assert r[i] == Keys(m)[i] && r[j] == Keys(m)[j];
      }
      forall i | 0 <= i < |m| ensures Keys(m)[i] != e.0 {
        assert r[i] == Keys(m)[i] && r[|m|] == e.0;
      }
    }
  }

  /** A new key appended at the end is found there, and every other lookup is unchanged. */
  lemma AppendGet<K, V>(m: OMap<K, V>, e: (K, V), j: K)
    requires Keyed(m) && !HasKey(m, e.0)
    ensures Keyed(m + [e])
    ensures Get(m + [e], j) == if j == e.0 then Some(e.1) else Get(m, j)
  {
    KeyedAppend(m, e);
    assert Put(m, e.0, e.1) == m + [e];
    PutGet(m, e.0, e.1, j);
  }

  /** The entries whose value satisfies `keep`, in their order. */
  function FilterValues<K, V>(m: OMap<K, V>, keep: V -> bool): (r: OMap<K, V>)
    ensures |r| <= |m|
    ensures forall i :: 0 <= i < |r| ==> keep(r[i].1)
  {
    if m == [] then []
    else
      var rest := FilterValues(m[..|m| - 1], keep);
      if keep(m[|m| - 1].1) then rest + [m[|m| - 1]] else rest
  }

  lemma FilterValuesSnoc<K, V>(m: OMap<K, V>, e: (K, V), keep: V -> bool)
    ensures FilterValues(m + [e], keep) == FilterValues(m, keep) + if keep(e.1) then [e] else []
  {
    assert (m + [e])[..|m|] == m;
  }

  lemma {:induction false} FilterValuesGet<K, V>(m: OMap<K, V>, keep: V -> bool, j: K)
    requires Keyed(m)
    ensures Keyed(FilterValues(m, keep))
    ensures Get(FilterValues(m, keep), j) ==
      match Get(m, j)
      case Some(v) => if keep(v) then Some(v) else None
      case None => None
  {
    if m != [] {
      var p, e := m[..|m| - 1], m[|m| - 1];
      assert m == p + [e];
      KeyedAppend(p, e);
      AppendGet(p, e, j);
      FilterValuesGet(p, keep, j);
      var f := FilterValues(p, keep);
      if keep(e.1) {
        FilterValuesGet(p, keep, e.0);
        AppendGet(f, e, j);
      }
    }
  }
}
