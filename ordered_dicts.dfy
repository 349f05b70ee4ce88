/** Python dictionaries: a map together with the order in which its keys were first
    inserted. Assigning to a key that is already present keeps its position; assigning
    to a new key appends it. Iteration (`items()`, `values()`) follows that order. */
module OrderedDicts {

  datatype Dict<K(==), V> = Dict(keys: seq<K>, entries: map<K, V>) {

    /** Keys are distinct and are exactly the keys of the map. */
    ghost predicate Valid() {
      && (forall i, j :: 0 <= i < j < |keys| ==> keys[i] != keys[j])
      && entries.Keys == set i | 0 <= i < |keys| :: keys[i]
    }
  }

  function Empty<K(==), V>(): (d: Dict<K, V>)
    ensures d.Valid() && d.keys == [] && d.entries == map[]
  {
    Dict([], map[])
  }

  /** `d[k] = v`. */
  function Put<K(==), V>(d: Dict<K, V>, k: K, v: V): (r: Dict<K, V>)
    ensures d.Valid() ==> r.Valid()
    ensures r.entries == d.entries[k := v]
    ensures r.keys == if k in d.entries then d.keys else d.keys + [k]
  {
    PutKeepsValid(d, k, v);
    Dict(if k in d.entries then d.keys else d.keys + [k], d.entries[k := v])
  }

  lemma PutKeepsValid<K, V>(d: Dict<K, V>, k: K, v: V)
    ensures d.Valid() ==> Dict(if k in d.entries then d.keys else d.keys + [k], d.entries[k := v]).Valid()
  {
    if d.Valid() && k !in d.entries {
      var ks := d.keys + [k];
      var after := set i | 0 <= i < |ks| :: ks[i];
      var before := set i | 0 <= i < |d.keys| :: d.keys[i];
      assert after == before + {k} by {
        forall x | x in after
          ensures x in before + {k}
        {
          var i :| 0 <= i < |ks| && ks[i] == x;
          if i < |d.keys| {
            assert d.keys[i] == x;
          }
        }
        forall x | x in before + {k}
          ensures x in after
        {
          if x == k {
            assert ks[|d.keys|] == x;
          } else {
            var i :| 0 <= i < |d.keys| && d.keys[i] == x;
            assert ks[i] == x;
          }
        }
      }
    }
  }

  /** Assigns the pairs of `kvs` one after the other, as a loop of `d[k] = v` does. */
  function PutAll<K(==), V>(d: Dict<K, V>, kvs: seq<(K, V)>): (r: Dict<K, V>)
    ensures d.Valid() ==> r.Valid()
    ensures r.entries.Keys == d.entries.Keys + set i | 0 <= i < |kvs| :: kvs[i].0
    decreases |kvs|
  {
    if kvs == [] then d
    else
      var last := kvs[|kvs| - 1];
      Put(PutAll(d, kvs[..|kvs| - 1]), last.0, last.1)
  }

  lemma {:induction false} PutAllAppend<K, V>(d: Dict<K, V>, a: seq<(K, V)>, b: seq<(K, V)>)
    ensures PutAll(d, a + b) == PutAll(PutAll(d, a), b)
    decreases |b|
  {
    if b == [] {
      assert a + b == a;
    } else {
      assert (a + b)[..|a + b| - 1] == a + b[..|b| - 1];
      PutAllAppend(d, a, b[..|b| - 1]);
    }
  }

  /** Assigning two more pairs. */
  lemma PutAllTwoMore<K, V>(d: Dict<K, V>, kvs: seq<(K, V)>, a: (K, V), b: (K, V))
    ensures PutAll(d, kvs + [a, b]) == Put(Put(PutAll(d, kvs), a.0, a.1), b.0, b.1)
  {
    var all := kvs + [a, b];
    assert all[..|all| - 1] == kvs + [a];
    assert (kvs + [a])[..|kvs|] == kvs;
  }

  /** A property every stored value has survives assigning values that have it too. */
  lemma {:induction false} PutAllPreserves<K, V>(d: Dict<K, V>, kvs: seq<(K, V)>, P: V -> bool)
    requires forall k :: k in d.entries ==> P(d.entries[k])
    requires forall i :: 0 <= i < |kvs| ==> P(kvs[i].1)
    ensures forall k :: k in PutAll(d, kvs).entries ==> P(PutAll(d, kvs).entries[k])
    decreases |kvs|
  {
    if kvs != [] {
      PutAllPreserves(d, kvs[..|kvs| - 1], P);
    }
  }

  /** The value stored under a key is the one its last assignment wrote. */
  lemma {:induction false} PutAllLast<K, V>(d: Dict<K, V>, kvs: seq<(K, V)>, i: nat)
    requires i < |kvs|
    requires forall j :: i < j < |kvs| ==> kvs[j].0 != kvs[i].0
    ensures kvs[i].0 in PutAll(d, kvs).entries
    ensures PutAll(d, kvs).entries[kvs[i].0] == kvs[i].1
    decreases |kvs|
  {
    if i < |kvs| - 1 {
      PutAllLast(d, kvs[..|kvs| - 1], i);
    }
  }

  /** The pairs of `d` in iteration order (`d.items()`). */
  function Items<K(==), V>(d: Dict<K, V>): (r: seq<(K, V)>)
    requires d.Valid()
    ensures |r| == |d.keys|
    ensures forall i :: 0 <= i < |r| ==> r[i].0 == d.keys[i] && r[i].1 == d.entries[d.keys[i]]
  {
    seq(|d.keys|, i requires 0 <= i < |d.keys| => (d.keys[i], d.entries[d.keys[i]]))
  }

  /** `{k: f(v) for k, v in d.items()}`. */
  function MapValues<K(==), V, W>(d: Dict<K, V>, f: V -> W): (r: Dict<K, W>)
    ensures r.keys == d.keys
    ensures r.entries.Keys == d.entries.Keys
    ensures forall k :: k in d.entries ==> r.entries[k] == f(d.entries[k])
  {
    Dict(d.keys, map k | k in d.entries :: f(d.entries[k]))
  }

  /** `[(k, f(v)) for k, v in kvs]`. */
  function MapPairs<K, V, W>(kvs: seq<(K, V)>, f: V -> W): (r: seq<(K, W)>)
    ensures |r| == |kvs|
    ensures forall i :: 0 <= i < |kvs| ==> r[i] == (kvs[i].0, f(kvs[i].1))
  {
    seq(|kvs|, i requires 0 <= i < |kvs| => (kvs[i].0, f(kvs[i].1)))
  }

  /** Assigning transformed values gives the transform of the assigned dictionary. */
  lemma {:induction false} PutAllMapValues<K, V, W>(d: Dict<K, V>, kvs: seq<(K, V)>, f: V -> W)
    ensures PutAll(MapValues(d, f), MapPairs(kvs, f)) == MapValues(PutAll(d, kvs), f)
    decreases |kvs|
  {
    if kvs != [] {
      var init := kvs[..|kvs| - 1];
      assert MapPairs(kvs, f)[..|kvs| - 1] == MapPairs(init, f);
      PutAllMapValues(d, init, f);
      var p := PutAll(d, init);
      var last := kvs[|kvs| - 1];
      var lhs := Put(MapValues(p, f), last.0, f(last.1));
      var rhs := MapValues(Put(p, last.0, last.1), f);
      assert lhs.keys == rhs.keys;
      assert lhs.entries == rhs.entries by {
        assert lhs.entries.Keys == rhs.entries.Keys;
        forall x | x in lhs.entries ensures lhs.entries[x] == rhs.entries[x] {
        }
      }
    }
  }

  /** `sum(d.values())`. */
  function SumValues<K(==)>(d: Dict<K, int>): (r: int)
    requires d.Valid()
    ensures d.keys == [] ==> r == 0
  {
    SumAt(d.keys, d.entries)
  }

  function SumAt<K(==)>(ks: seq<K>, m: map<K, int>): int
    requires forall k :: k in ks ==> k in m
    decreases |ks|
  {
    if ks == [] then 0 else SumAt(ks[..|ks| - 1], m) + m[ks[|ks| - 1]]
  }
}
