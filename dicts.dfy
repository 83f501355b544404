/** Python dicts with string keys.  A dict is a finite map that also
    remembers the order in which its keys were first inserted: iteration,
    `list(d)` and `d.keys()` follow that order, assigning to an existing key
    keeps its place, and deleting a key closes the gap. */
module Dicts {

  datatype Dict<V> = Dict(keys: seq<string>, vals: map<string, V>) {

    /** The keys listed are exactly the keys mapped, each listed once. */
    predicate Valid() {
      Distinct(keys) && vals.Keys == Elems(keys)
    }

    /** `len(d)` */
    function Size(): nat { |keys| }
  }

  /** No string occurs twice. */
  predicate Distinct(s: seq<string>) {
    s == [] || (s[0] !in s[1..] && Distinct(s[1..]))
  }

  /** The strings of a list, as a set. */
  function Elems(s: seq<string>): set<string> {
    if s == [] then {} else {s[0]} + Elems(s[1..])
  }

  lemma {:induction false} ElemsIn(s: seq<string>, x: string)
    ensures x in Elems(s) <==> x in s
  {
    if s != [] {
      ElemsIn(s[1..], x);
      assert s == [s[0]] + s[1..];
    }
  }

  lemma {:induction false} ElemsAppend(s: seq<string>, x: string)
    ensures Elems(s + [x]) == Elems(s) + {x}
  {
    if s != [] {
      ElemsAppend(s[1..], x);
      assert (s + [x])[1..] == s[1..] + [x];
    } else {
      assert [x][1..] == [];
    }
  }

  /** A key is listed exactly when it is mapped. */
  lemma KeysIn<V>(d: Dict<V>, k: string)
    requires d.Valid()
    ensures k in d.keys <==> k in d.vals
  {
    ElemsIn(d.keys, k);
  }

  /** Distinctness in terms of positions. */
  lemma {:induction false} DistinctIndices(s: seq<string>)
    ensures Distinct(s) <==> forall i, j :: 0 <= i < j < |s| ==> s[i] != s[j]
  {
    if s != [] {
      DistinctIndices(s[1..]);
      assert forall i :: 0 < i < |s| ==> s[i] == s[1..][i - 1];
      if !Distinct(s) && s[0] in s[1..] {
        var j :| 0 <= j < |s[1..]| && s[1..][j] == s[0];
        assert s[0] == s[j + 1];
      }
    }
  }

  /** The keys before position `i` are distinct and do not include the key
      at `i`. */
  lemma DistinctPrefix(s: seq<string>, i: nat)
    requires Distinct(s) && i < |s|
    ensures Distinct(s[..i]) && s[i] !in s[..i]
  {
    DistinctIndices(s);
    DistinctIndices(s[..i]);
  }

  lemma {:induction false} DistinctAppend(s: seq<string>, k: string)
    requires Distinct(s) && k !in s
    ensures Distinct(s + [k])
  {
    if s != [] {
      DistinctAppend(s[1..], k);
      assert (s + [k])[1..] == s[1..] + [k];
    }
  }

  /** `{}` */
  function Empty<V>(): (d: Dict<V>)
    ensures d.Valid() && d.keys == [] && d.vals == map[]
  {
    Dict([], map[])
  }

  /** `d[k] = v`: the key now maps to `v`, every other key keeps its value;
      an existing key keeps its position, a new key goes last. */
  function Put<V>(d: Dict<V>, k: string, v: V): (r: Dict<V>)
    requires d.Valid()
    ensures r.Valid() && r.vals == d.vals[k := v]
    ensures k in d.vals ==> r.keys == d.keys
    ensures k !in d.vals ==> r.keys == d.keys + [k]
  {
    if k in d.vals then
      assert d.vals[k := v].Keys == d.vals.Keys;
      Dict(d.keys, d.vals[k := v])
    else
      ElemsIn(d.keys, k);
      DistinctAppend(d.keys, k);
      ElemsAppend(d.keys, k);
      Dict(d.keys + [k], d.vals[k := v])
  }

  /** The keys of `keys` other than `k`, in their order. */
  function Without(keys: seq<string>, k: string): (r: seq<string>)
    ensures Elems(r) == Elems(keys) - {k}
    ensures |r| <= |keys|
  {
    if keys == [] then []
    else
      var w := Without(keys[1..], k);
      if keys[0] == k then w
      else
        assert ([keys[0]] + w)[1..] == w;
        [keys[0]] + w
  }

  lemma {:induction false} WithoutDistinct(keys: seq<string>, k: string)
    requires Distinct(keys)
    ensures Distinct(Without(keys, k))
    ensures k in keys ==> |Without(keys, k)| == |keys| - 1
    ensures k !in keys ==> Without(keys, k) == keys
  {
    if keys != [] {
      WithoutDistinct(keys[1..], k);
      assert keys == [keys[0]] + keys[1..];
      var w := Without(keys[1..], k);
      if keys[0] != k {
        ElemsIn(w, keys[0]);
        ElemsIn(keys[1..], keys[0]);
        assert Without(keys, k) == [keys[0]] + w;
        assert ([keys[0]] + w)[1..] == w;
      } else {
        assert Without(keys, k) == w;
      }
    }
  }

  /** `del d[k]`: the key is gone, every other key keeps its value and its
      relative order. */
  function Del<V>(d: Dict<V>, k: string): (r: Dict<V>)
    requires d.Valid() && k in d.vals
    ensures r.Valid() && r.vals == d.vals - {k}
    ensures r.keys == Without(d.keys, k) && r.Size() == d.Size() - 1
  {
    ElemsIn(d.keys, k);
    WithoutDistinct(d.keys, k);
    Dict(Without(d.keys, k), d.vals - {k})
  }

  /** Writing a key twice leaves only the second value: the first write is
      overwritten, and no second entry appears. */
  lemma PutPut<V>(d: Dict<V>, k: string, v1: V, v2: V)
    requires d.Valid()
    ensures Put(Put(d, k, v1), k, v2) == Put(d, k, v2)
  {
    assert d.vals[k := v1][k := v2] == d.vals[k := v2];
  }

  lemma {:induction false} WithoutAppended(keys: seq<string>, k: string)
    requires k !in keys
    ensures Without(keys + [k], k) == keys
  {
    if keys != [] {
      WithoutAppended(keys[1..], k);
      assert (keys + [k])[1..] == keys[1..] + [k];
    } else {
      assert [k][1..] == [];
    }
  }

  /** Storing under a fresh key and deleting that key restores the dict. */
  lemma PutThenDel<V>(d: Dict<V>, k: string, v: V)
    requires d.Valid() && k !in d.vals
    ensures Del(Put(d, k, v), k) == d
  {
    KeysIn(d, k);
    WithoutAppended(d.keys, k);
    assert (d.vals[k := v]) - {k} == d.vals;
  }
}
