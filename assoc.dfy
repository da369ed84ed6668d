/**
 * JavaScript plain objects used as dictionaries (the timetable schedule,
 * the form-error objects): entries in insertion order, assignment replaces
 * the value of an existing key in place or appends a new key, `delete`
 * drops the key.
 */
module Assoc {
  import opened Base

  function Keys<K, V>(m: seq<(K, V)>): (r: seq<K>)
    ensures |r| == |m|
    ensures forall i :: 0 <= i < |m| ==> r[i] == m[i].0
  {
    if m == [] then [] else [m[0].0] + Keys(m[1..])
  }

  /** `obj[k]`: the value of the first entry with key `k`, if any. */
  function Get<K(==), V>(m: seq<(K, V)>, k: K): Option<V>
  {
    if m == [] then None else if m[0].0 == k then Some(m[0].1) else Get(m[1..], k)
  }

  /** `obj[k] = v`. */
  function Put<K(==), V>(m: seq<(K, V)>, k: K, v: V): seq<(K, V)>
  {
    if m == [] then [(k, v)]
    else if m[0].0 == k then [(k, v)] + m[1..]
    else [m[0]] + Put(m[1..], k, v)
  }

  /** `delete obj[k]`. */
  function Remove<K(==), V>(m: seq<(K, V)>, k: K): seq<(K, V)>
  {
    if m == [] then [] else (if m[0].0 == k then [] else [m[0]]) + Remove(m[1..], k)
  }

  ghost predicate UniqueKeys<K, V>(m: seq<(K, V)>)
  {
    forall i, j :: 0 <= i < j < |m| ==> m[i].0 != m[j].0
  }

  lemma {:induction false} GetSomeIffKey<K, V>(m: seq<(K, V)>, k: K)
    ensures Get(m, k).Some? <==> k in Keys(m)
    decreases |m|
  {
    if m != [] && m[0].0 != k {
      GetSomeIffKey(m[1..], k);
    }
  }

  /** Reading a key after assigning it gives the new value; every other key reads as before. */
  lemma {:induction false} GetPut<K, V>(m: seq<(K, V)>, k: K, v: V, k': K)
    ensures Get(Put(m, k, v), k') == if k' == k then Some(v) else Get(m, k')
    decreases |m|
  {
    if m != [] && m[0].0 != k {
      GetPut(m[1..], k, v, k');
    }
  }

  /** Assignment keeps the key order and appends a key that was not there. */
  lemma {:induction false} KeysPut<K, V>(m: seq<(K, V)>, k: K, v: V)
    ensures Keys(Put(m, k, v)) == if k in Keys(m) then Keys(m) else Keys(m) + [k]
    decreases |m|
  {
    if m != [] {
      if m[0].0 != k {
        KeysPut(m[1..], k, v);
        var t := Put(m[1..], k, v);
        assert Put(m, k, v) == [m[0]] + t;
        assert ([m[0]] + t)[1..] == t;
      } else {
        assert (([(k, v)] + m[1..]))[1..] == m[1..];
      }
    }
  }

  lemma PutUnique<K, V>(m: seq<(K, V)>, k: K, v: V)
    requires UniqueKeys(m)
    ensures UniqueKeys(Put(m, k, v))
  {
    KeysPut(m, k, v);
    var r := Put(m, k, v);
    forall i, j | 0 <= i < j < |r| ensures r[i].0 != r[j].0 {
      assert Keys(r)[i] == r[i].0 && Keys(r)[j] == r[j].0;
      if k !in Keys(m) && j == |m| {
        assert r[i].0 == Keys(m)[i];
      } else {
        assert Keys(m)[i] == m[i].0 && Keys(m)[j] == m[j].0;
      }
    }
  }

  /** Reading a deleted key gives nothing; every other key reads as before. */
  lemma {:induction false} GetRemove<K, V>(m: seq<(K, V)>, k: K, k': K)
    ensures Get(Remove(m, k), k') == if k' == k then None else Get(m, k')
    decreases |m|
  {
    if m != [] {
      GetRemove(m[1..], k, k');
      if m[0].0 != k {
        assert Remove(m, k) == [m[0]] + Remove(m[1..], k);
      } else {
        assert Remove(m, k) == Remove(m[1..], k);
      }
    }
  }

  /** Deletion keeps the other keys in their order. */
  lemma {:induction false} KeysRemove<K, V>(m: seq<(K, V)>, k: K)
    ensures Keys(Remove(m, k)) == Filter(Keys(m), (x: K) => x != k)
    decreases |m|
  {
    if m != [] {
      KeysRemove(m[1..], k);
      if m[0].0 != k {
        assert Remove(m, k) == [m[0]] + Remove(m[1..], k);
        assert Keys(Remove(m, k)) == [m[0].0] + Keys(Remove(m[1..], k));
      } else {
        assert Remove(m, k) == Remove(m[1..], k);
      }
    }
  }

  /** Assigning a key the object does not have appends it, as JavaScript does. */
  lemma {:induction false} PutFresh<K, V>(m: seq<(K, V)>, k: K, v: V)
    requires forall i :: 0 <= i < |m| ==> m[i].0 != k
    ensures Put(m, k, v) == m + [(k, v)]
    decreases |m|
  {
    if m != [] {
      var t := m[1..];
      assert forall i :: 0 <= i < |t| ==> t[i].0 != k by {
        forall i | 0 <= i < |t| ensures t[i].0 != k { assert t[i] == m[i + 1]; }
      }
      PutFresh(t, k, v);
      ConcatAssoc([m[0]], t, [(k, v)]);
      assert [m[0]] + t == m;
    }
  }

  /** Assignment never leaves the object empty. */
  lemma PutNonEmpty<K, V>(m: seq<(K, V)>, k: K, v: V)
    ensures Put(m, k, v) != []
  {
  }

  /** Every value after an assignment is an old value or the assigned one. */
  lemma {:induction false} PutValues<K, V>(m: seq<(K, V)>, k: K, v: V, ok: V -> bool)
    requires forall i :: 0 <= i < |m| ==> ok(m[i].1)
    requires ok(v)
    ensures forall i :: 0 <= i < |Put(m, k, v)| ==> ok(Put(m, k, v)[i].1)
    decreases |m|
  {
    if m != [] && m[0].0 != k {
      PutValues(m[1..], k, v, ok);
    }
  }

  /** Deletion only drops entries. */
  lemma {:induction false} RemoveValues<K, V>(m: seq<(K, V)>, k: K, ok: V -> bool)
    requires forall i :: 0 <= i < |m| ==> ok(m[i].1)
    ensures forall i :: 0 <= i < |Remove(m, k)| ==> ok(Remove(m, k)[i].1)
    decreases |m|
  {
    if m != [] {
      RemoveValues(m[1..], k, ok);
    }
  }

  /** Looking a key up in two objects laid end to end finds the first one's entry first. */
  lemma {:induction false} GetConcat<K, V>(a: seq<(K, V)>, b: seq<(K, V)>, k: K)
    ensures Get(a + b, k) == if Get(a, k).Some? then Get(a, k) else Get(b, k)
    decreases |a|
  {
    if a == [] {
      assert a + b == b;
    } else {
      assert (a + b)[1..] == a[1..] + b;
      GetConcat(a[1..], b, k);
    }
  }

  /** A second assignment to the same key overrides the first. */
  lemma {:induction false} PutTwice<K, V>(m: seq<(K, V)>, k: K, v: V, w: V)
    ensures Put(Put(m, k, v), k, w) == Put(m, k, w)
    decreases |m|
  {
    if m != [] && m[0].0 != k {
      PutTwice(m[1..], k, v, w);
    }
  }
}
