/** An optional value: Kotlin's and Swift's nullable types, Rust's `Option`. */
module Options {
  datatype Option<+T> = None | Some(value: T)
}

/**
 * Kotlin's read-only `Map` and `Set` are backed by linked collections: they iterate in
 * insertion order, and replacing the value of a known key keeps its position. The journal
 * is written in that order and `take(32)` cuts it in that order, so the order is modelled.
 */
module LinkedMaps {
  import opened Options

  predicate Distinct<K(==,!new)>(keys: seq<K>) {
    forall i, j :: 0 <= i < j < |keys| ==> keys[i] != keys[j]
  }

  /** `keys.filter { it in kept }`. */
  function Keep<K(==,!new)>(keys: seq<K>, kept: set<K>): (r: seq<K>)
    ensures |r| <= |keys|
    ensures forall k :: k in r <==> k in keys && k in kept
  {
    if keys == [] then []
    else (if keys[0] in kept then [keys[0]] else []) + Keep(keys[1..], kept)
  }

  /** `keys.firstOrNull { it in wanted }`. */
  function FirstIn<K(==,!new)>(keys: seq<K>, wanted: set<K>): (r: Option<K>)
    ensures r.None? ==> forall k :: k in keys ==> k !in wanted
    ensures r.Some? ==> r.value in keys && r.value in wanted
  {
    if keys == [] then None
    else if keys[0] in wanted then Some(keys[0])
    else FirstIn(keys[1..], wanted)
  }

  function SetOf<K(!new)>(keys: seq<K>): (r: set<K>)
    ensures forall k :: k in r <==> k in keys
  {
    set k | k in keys
  }

  datatype LinkedMap<K(==,!new), V> = LinkedMap(keys: seq<K>, vals: map<K, V>) {
    ghost predicate Valid() {
      && Distinct(keys)
      && forall k :: k in keys <==> k in vals
    }

    function Get(k: K): Option<V> {
      if k in vals then Some(vals[k]) else None
    }

    /** `this + (k to v)`. */
    function Put(k: K, v: V): LinkedMap<K, V> {
      LinkedMap(if k in vals then keys else keys + [k], vals[k := v])
    }

    /** `this.filterKeys { it in kept }`. */
    function Restrict(kept: set<K>): LinkedMap<K, V> {
      LinkedMap(Keep(keys, kept), map k | k in vals && k in kept :: vals[k])
    }

    /** `this - k`. */
    function Minus(k: K): LinkedMap<K, V> {
      Restrict(vals.Keys - {k})
    }

    /** `this + later`: keys of `this` first, then the new ones, values of `later` winning. */
    function Plus(later: LinkedMap<K, V>): LinkedMap<K, V> {
      LinkedMap(keys + Keep(later.keys, later.vals.Keys - vals.Keys), vals + later.vals)
    }
  }

  function EmptyMap<K(==,!new), V>(): LinkedMap<K, V> {
    LinkedMap([], map[])
  }

  lemma {:induction false} KeepDistinct<K(!new)>(keys: seq<K>, kept: set<K>)
    requires Distinct(keys)
    ensures Distinct(Keep(keys, kept))
  {
    if keys != [] {
      assert forall k :: k in keys[1..] ==> k != keys[0];
      KeepDistinct(keys[1..], kept);
    }
  }

  lemma {:induction false} KeepConcat<K(!new)>(a: seq<K>, b: seq<K>, kept: set<K>)
    ensures Keep(a + b, kept) == Keep(a, kept) + Keep(b, kept)
  {
    if a == [] {
      assert a + b == b;
    } else {
      assert (a + b)[1..] == a[1..] + b;
      KeepConcat(a[1..], b, kept);
    }
  }

  lemma {:induction false} KeepAgree<K(!new)>(keys: seq<K>, a: set<K>, b: set<K>)
    requires forall k :: k in keys ==> (k in a <==> k in b)
    ensures Keep(keys, a) == Keep(keys, b)
  {
    if keys != [] {
      KeepAgree(keys[1..], a, b);
    }
  }

  lemma {:induction false} KeepKeep<K(!new)>(keys: seq<K>, a: set<K>, b: set<K>)
    ensures Keep(Keep(keys, a), b) == Keep(keys, a * b)
  {
    if keys != [] {
      KeepKeep(keys[1..], a, b);
      if keys[0] in a {
        assert Keep(keys, a)[1..] == Keep(keys[1..], a);
      } else {
        assert Keep(keys, a) == Keep(keys[1..], a);
      }
    }
  }

  lemma {:induction false} KeepEverything<K(!new)>(keys: seq<K>, kept: set<K>)
    requires forall k :: k in keys ==> k in kept
    ensures Keep(keys, kept) == keys
  {
    if keys != [] {
      KeepEverything(keys[1..], kept);
    }
  }

  lemma DistinctConcat<K(!new)>(a: seq<K>, b: seq<K>)
    requires Distinct(a) && Distinct(b)
    requires forall k :: k in b ==> k !in a
    ensures Distinct(a + b)
  {
    forall i, j | 0 <= i < j < |a + b|
      ensures (a + b)[i] != (a + b)[j]
    {
      if i < |a| <= j {
        assert (a + b)[j] == b[j - |a|] && b[j - |a|] in b;
      }
    }
  }

  lemma RestrictValid<K(!new), V>(m: LinkedMap<K, V>, kept: set<K>)
    requires m.Valid()
    ensures m.Restrict(kept).Valid()
  {
    KeepDistinct(m.keys, kept);
  }

  lemma PutValid<K(!new), V>(m: LinkedMap<K, V>, k: K, v: V)
    requires m.Valid()
    ensures m.Put(k, v).Valid()
  {
  }

  lemma PlusValid<K(!new), V>(a: LinkedMap<K, V>, b: LinkedMap<K, V>)
    requires a.Valid() && b.Valid()
    ensures a.Plus(b).Valid()
  {
    KeepDistinct(b.keys, b.vals.Keys - a.vals.Keys);
    DistinctConcat(a.keys, Keep(b.keys, b.vals.Keys - a.vals.Keys));
  }

  lemma PlusOntoEmpty<K(!new), V>(m: LinkedMap<K, V>)
    requires m.Valid()
    ensures EmptyMap<K, V>().Plus(m) == m
  {
    var none := EmptyMap<K, V>();
    assert none.Plus(m).keys == m.keys by {
      KeepEverything(m.keys, m.vals.Keys - none.vals.Keys);
    }
    assert forall k :: k in none.Plus(m).vals <==> k in m.vals;
  }

  /** The key list of a valid map is as long as the map is large. */
  lemma {:induction false} DistinctSize<K(!new)>(keys: seq<K>)
    requires Distinct(keys)
    ensures |SetOf(keys)| == |keys|
  {
    if keys == [] {
      assert SetOf(keys) == {};
    } else {
      DistinctSize(keys[1..]);
      assert keys[0] !in SetOf(keys[1..]);
      assert SetOf(keys) == {keys[0]} + SetOf(keys[1..]);
    }
  }

  lemma ValidSize<K(!new), V>(m: LinkedMap<K, V>)
    requires m.Valid()
    ensures |m.keys| == |m.vals.Keys|
  {
    DistinctSize(m.keys);
    assert SetOf(m.keys) == m.vals.Keys;
  }

  lemma SubsetSize<K>(a: set<K>, b: set<K>)
    requires a <= b
    ensures |a| <= |b|
  {
    var rest := b - a;
    assert b == a + rest;
  }
}
