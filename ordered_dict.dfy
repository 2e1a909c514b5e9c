/** A Python `dict` as the routes use it: a finite map that also remembers the order in which
    its keys were first inserted. Iterating over `keys()` follows that order, and assigning to
    an existing key keeps its place. */
module OrderedDict {

  datatype Dict<K, V> = Dict(keys: seq<K>, entries: map<K, V>)

  /** The keys are distinct and are exactly the keys of the map. */
  predicate Valid<K, V>(d: Dict<K, V>) {
    (forall i, j :: 0 <= i < j < |d.keys| ==> d.keys[i] != d.keys[j]) &&
    (forall k :: k in d.entries ==> k in d.keys) &&
    (forall i :: 0 <= i < |d.keys| ==> d.keys[i] in d.entries)
  }

  /** `{}` */
  function Empty<K, V>(): (r: Dict<K, V>)
    ensures Valid(r) && r.keys == [] && r.entries == map[]
  {
    Dict([], map[])
  }

  /** `d[k] = v`: a new key goes to the end of the order, an existing key keeps its place. */
  function Put<K, V>(d: Dict<K, V>, k: K, v: V): (r: Dict<K, V>)
    ensures r.entries == d.entries[k := v]
    ensures k in d.entries ==> r.keys == d.keys
    ensures k !in d.entries ==> r.keys == d.keys + [k]
  {
    if k in d.entries then Dict(d.keys, d.entries[k := v]) else Dict(d.keys + [k], d.entries[k := v])
  }

  /** Assignment keeps the key order in step with the map. */
  lemma {:induction false} PutValid<K, V>(d: Dict<K, V>, k: K, v: V)
    requires Valid(d)
    ensures Valid(Put(d, k, v))
  {
  }

  /** `k in d` */
  predicate Contains<K, V>(d: Dict<K, V>, k: K) {
    k in d.entries
  }

  /** Reading a key back gives the value last written to it, and writing one key leaves every
      other key's value and the membership of every other key as they were. */
  lemma {:induction false} PutGet<K, V>(d: Dict<K, V>, k: K, v: V, other: K)
    ensures Contains(Put(d, k, v), k) && Put(d, k, v).entries[k] == v
    ensures other != k ==> (Contains(Put(d, k, v), other) <==> Contains(d, other))
    ensures other != k && Contains(d, other) ==> Put(d, k, v).entries[other] == d.entries[other]
  {
  }

  /** The key order of a dict after assigning to the keys `xs` one after another: each key at
      its first assignment, and no key twice. */
  function Dedup<K(==)>(xs: seq<K>): (r: seq<K>)
    ensures forall i, j :: 0 <= i < j < |r| ==> r[i] != r[j]
  {
    if xs == [] then []
    else
      var front := Dedup(xs[..|xs| - 1]);
      if xs[|xs| - 1] in front then front else front + [xs[|xs| - 1]]
  }

  /** The keys are the ones assigned to. */
  lemma {:induction false} DedupMembers<K>(xs: seq<K>)
    ensures forall x :: x in Dedup(xs) <==> x in xs
  {
    if xs != [] {
      DedupMembers(xs[..|xs| - 1]);
      assert xs == xs[..|xs| - 1] + [xs[|xs| - 1]];
    }
  }

  /** Assigning again to a key the dict already has does not change its order. */
  lemma {:induction false} DedupSnocCovered<K>(xs: seq<K>, y: K, k: int)
    requires 0 <= k < |xs| && xs[k] == y
    ensures Dedup(xs + [y]) == Dedup(xs)
  {
    assert (xs + [y])[..|xs|] == xs;
    DedupMembers(xs);
  }

  /** Assigning again to keys the dict already has does not change its order. */
  lemma {:induction false} DedupAppendCovered<K>(xs: seq<K>, ys: seq<K>)
    requires forall i :: 0 <= i < |ys| ==> ys[i] in xs
    ensures Dedup(xs + ys) == Dedup(xs)
  {
    if ys != [] {
      var front := ys[..|ys| - 1];
      var y := ys[|ys| - 1];
      DedupAppendCovered(xs, front);
      assert y in xs;
      var k :| 0 <= k < |xs| && xs[k] == y;
      DedupSnocCovered(xs + front, y, k);
      assert xs + ys == (xs + front) + [y];
    } else {
      assert xs + ys == xs;
    }
  }

  /** Keys assigned without repetition keep exactly the order of assignment. */
  lemma {:induction false} DedupDistinct<K>(xs: seq<K>)
    requires forall i, j :: 0 <= i < j < |xs| ==> xs[i] != xs[j]
    ensures Dedup(xs) == xs
  {
    if xs != [] {
      var front := xs[..|xs| - 1];
      DedupDistinct(front);
      assert xs[|xs| - 1] !in front;
      assert front + [xs[|xs| - 1]] == xs;
    }
  }
}
