/** Python's `sorted(xs, key=k, reverse=True)`: a stable sort into non-increasing key order,
    where elements with equal keys keep their relative input order. It also holds the slice
    `xs[:n]`, which is how the routes truncate a ranking. */
module StableSort {

  predicate SortedDesc<T>(s: seq<T>, key: T -> int) {
    forall i, j :: 0 <= i < j < |s| ==> key(s[i]) >= key(s[j])
  }

  /** Elements with equal keys appear in increasing `pos` order. */
  predicate TiesOrderedBy<T>(s: seq<T>, key: T -> int, pos: T -> int) {
    forall i, j :: 0 <= i < j < |s| && key(s[i]) == key(s[j]) ==> pos(s[i]) < pos(s[j])
  }

  /** `pos` strictly increases along `s`: it names each element's place in the input. */
  predicate StrictlyIncreasing<T>(s: seq<T>, pos: T -> int) {
    forall i, j :: 0 <= i < j < |s| ==> pos(s[i]) < pos(s[j])
  }

  lemma {:induction false} IncreasingTail<T>(s: seq<T>, pos: T -> int)
    requires s != [] && StrictlyIncreasing(s, pos)
    ensures StrictlyIncreasing(s[1..], pos)
    ensures forall y :: y in s[1..] ==> pos(s[0]) < pos(y)
  {
    var rest := s[1..];
    forall i, j | 0 <= i < j < |rest| ensures pos(rest[i]) < pos(rest[j]) {
      assert rest[i] == s[i + 1] && rest[j] == s[j + 1];
    }
    forall y | y in rest ensures pos(s[0]) < pos(y) {
      var k :| 0 <= k < |rest| && rest[k] == y;
      assert s[k + 1] == y;
    }
  }

  lemma {:induction false} IncreasingCons<T>(h: T, t: seq<T>, pos: T -> int)
    requires StrictlyIncreasing(t, pos)
    requires forall y :: y in t ==> pos(h) < pos(y)
    ensures StrictlyIncreasing([h] + t, pos)
  {
    var r := [h] + t;
    forall i, j | 0 <= i < j < |r| ensures pos(r[i]) < pos(r[j]) {
      if i == 0 { assert r[j] == t[j - 1]; assert r[j] in t; }
      else { assert r[i] == t[i - 1] && r[j] == t[j - 1]; }
    }
  }

  /** Insert `x` into `ys` in front of the first element whose key is not greater than its own. */
  function InsertDesc<T>(x: T, ys: seq<T>, key: T -> int): (r: seq<T>)
    ensures multiset(r) == multiset(ys) + multiset{x}
    ensures |r| == |ys| + 1
  {
    if ys == [] then [x]
    else if key(ys[0]) <= key(x) then [x] + ys
    else
      assert ys == [ys[0]] + ys[1..];
      [ys[0]] + InsertDesc(x, ys[1..], key)
  }

  /** The stable descending sort, by insertion from the back. */
  function SortDesc<T>(xs: seq<T>, key: T -> int): (r: seq<T>)
    ensures multiset(r) == multiset(xs)
    ensures |r| == |xs|
  {
    if xs == [] then []
    else
      assert xs == [xs[0]] + xs[1..];
      InsertDesc(xs[0], SortDesc(xs[1..], key), key)
  }

  lemma {:induction false} SortedCons<T>(h: T, t: seq<T>, key: T -> int)
    requires SortedDesc(t, key)
    requires forall e :: e in t ==> key(h) >= key(e)
    ensures SortedDesc([h] + t, key)
  {
    var r := [h] + t;
    forall i, j | 0 <= i < j < |r| ensures key(r[i]) >= key(r[j]) {
      if i == 0 { assert r[j] == t[j - 1]; assert r[j] in t; }
      else { assert r[i] == t[i - 1] && r[j] == t[j - 1]; }
    }
  }

  lemma {:induction false} InsertDescSorted<T>(x: T, ys: seq<T>, key: T -> int)
    requires SortedDesc(ys, key)
    ensures SortedDesc(InsertDesc(x, ys, key), key)
  {
    if ys != [] && key(ys[0]) > key(x) {
      var rest := ys[1..];
      assert SortedDesc(rest, key) by {
        forall i, j | 0 <= i < j < |rest| ensures key(rest[i]) >= key(rest[j]) {
          assert rest[i] == ys[i + 1] && rest[j] == ys[j + 1];
        }
      }
      InsertDescSorted(x, rest, key);
      var tail := InsertDesc(x, rest, key);
      forall e | e in tail ensures key(ys[0]) >= key(e) {
        assert e in multiset(tail);
        if e != x {
          var k :| 0 <= k < |rest| && rest[k] == e;
          assert ys[k + 1] == e;
        }
      }
      SortedCons(ys[0], tail, key);
    } else if ys != [] {
      SortedCons(x, ys, key);
    }
  }

  /** The result is in non-increasing key order. */
  lemma {:induction false} SortDescSorted<T>(xs: seq<T>, key: T -> int)
    ensures SortedDesc(SortDesc(xs, key), key)
  {
    if xs != [] {
      SortDescSorted(xs[1..], key);
      InsertDescSorted(xs[0], SortDesc(xs[1..], key), key);
    }
  }

  lemma {:induction false} TiesOrderedTail<T>(ys: seq<T>, key: T -> int, pos: T -> int)
    requires ys != [] && TiesOrderedBy(ys, key, pos)
    ensures TiesOrderedBy(ys[1..], key, pos)
  {
    var rest := ys[1..];
    forall i, j | 0 <= i < j < |rest| && key(rest[i]) == key(rest[j]) ensures pos(rest[i]) < pos(rest[j]) {
      assert rest[i] == ys[i + 1] && rest[j] == ys[j + 1];
    }
  }

  /** Every element of `ys[1..]` sharing the head's key comes after the head. */
  lemma {:induction false} TiesAfterHead<T>(ys: seq<T>, e: T, key: T -> int, pos: T -> int)
    requires ys != [] && TiesOrderedBy(ys, key, pos)
    requires e in ys[1..] && key(e) == key(ys[0])
    ensures pos(ys[0]) < pos(e)
  {
    var k :| 0 <= k < |ys[1..]| && ys[1..][k] == e;
    assert ys[k + 1] == e;
  }

  lemma {:induction false} TiesOrderedCons<T>(h: T, s: seq<T>, key: T -> int, pos: T -> int)
    requires TiesOrderedBy(s, key, pos)
    requires forall e :: e in s && key(e) == key(h) ==> pos(h) < pos(e)
    ensures TiesOrderedBy([h] + s, key, pos)
  {
    var r := [h] + s;
    forall i, j | 0 <= i < j < |r| && key(r[i]) == key(r[j]) ensures pos(r[i]) < pos(r[j]) {
      if i == 0 { assert r[j] == s[j - 1]; assert r[j] in s; }
      else { assert r[i] == s[i - 1] && r[j] == s[j - 1]; }
    }
  }

  lemma {:induction false} InsertDescStable<T>(x: T, ys: seq<T>, key: T -> int, pos: T -> int)
    requires TiesOrderedBy(ys, key, pos)
    requires forall y :: y in ys ==> pos(x) < pos(y)
    ensures TiesOrderedBy(InsertDesc(x, ys, key), key, pos)
  {
    if ys != [] && key(ys[0]) > key(x) {
      var head := ys[0];
      var rest := ys[1..];
      TiesOrderedTail(ys, key, pos);
      assert forall y :: y in rest ==> y in ys;
      InsertDescStable(x, rest, key, pos);
      var tail := InsertDesc(x, rest, key);
      assert InsertDesc(x, ys, key) == [head] + tail;
      forall e | e in tail && key(e) == key(head) ensures pos(head) < pos(e) {
        assert e in multiset(tail);
        assert e != x;
        assert e in multiset(rest);
        TiesAfterHead(ys, e, key, pos);
      }
      TiesOrderedCons(head, tail, key, pos);
    } else {
      TiesOrderedCons(x, ys, key, pos);
      if ys == [] { assert InsertDesc(x, ys, key) == [x] + ys; }
    }
  }

  /** Stability: when `pos` strictly increases along the input, elements with equal keys
      come out in increasing `pos` order, i.e. in their input order. */
  lemma {:induction false} SortDescStable<T>(xs: seq<T>, key: T -> int, pos: T -> int)
    requires StrictlyIncreasing(xs, pos)
    ensures TiesOrderedBy(SortDesc(xs, key), key, pos)
  {
    if xs != [] {
      var rest := xs[1..];
      IncreasingTail(xs, pos);
      SortDescStable(rest, key, pos);
      var sorted := SortDesc(rest, key);
      forall y | y in sorted ensures y in rest {
        assert y in multiset(sorted);
      }
      InsertDescStable(xs[0], sorted, key, pos);
    }
  }

  /** The elements with key `k`, in order. */
  function WithKey<T>(s: seq<T>, key: T -> int, k: int): seq<T> {
    if s == [] then [] else (if key(s[0]) == k then [s[0]] else []) + WithKey(s[1..], key, k)
  }

  lemma {:induction false} WithKeyCons<T>(x: T, s: seq<T>, key: T -> int, k: int)
    ensures WithKey([x] + s, key, k) == (if key(x) == k then [x] else []) + WithKey(s, key, k)
  {
    assert ([x] + s)[1..] == s;
  }

  /** Moving `x` in front of an element with another key does not change any key's elements. */
  lemma {:induction false} WithKeySwap<T>(x: T, head: T, rest: seq<T>, key: T -> int, k: int)
    requires key(x) != key(head)
    ensures WithKey([head] + ([x] + rest), key, k) == WithKey([x] + ([head] + rest), key, k)
  {
    WithKeyCons(head, [x] + rest, key, k);
    WithKeyCons(x, rest, key, k);
    WithKeyCons(x, [head] + rest, key, k);
    WithKeyCons(head, rest, key, k);
  }

  lemma {:induction false} WithKeyInsert<T>(x: T, ys: seq<T>, key: T -> int, k: int)
    ensures WithKey(InsertDesc(x, ys, key), key, k) == WithKey([x] + ys, key, k)
  {
    if ys != [] && key(ys[0]) > key(x) {
      var head := ys[0];
      var rest := ys[1..];
      var tail := InsertDesc(x, rest, key);
      assert InsertDesc(x, ys, key) == [head] + tail;
      WithKeyInsert(x, rest, key, k);
      WithKeyCons(head, tail, key, k);
      WithKeyCons(head, [x] + rest, key, k);
      WithKeySwap(x, head, rest, key, k);
      assert [head] + rest == ys;
    } else if ys == [] {
      assert InsertDesc(x, ys, key) == [x] + ys;
    }
  }

  /** Stability stated on values: for every key, the elements carrying it appear in the result
      in exactly the order they had in the input. */
  lemma {:induction false} SortDescKeepsTieOrder<T>(xs: seq<T>, key: T -> int, k: int)
    ensures WithKey(SortDesc(xs, key), key, k) == WithKey(xs, key, k)
  {
    if xs != [] {
      SortDescKeepsTieOrder(xs[1..], key, k);
      WithKeyInsert(xs[0], SortDesc(xs[1..], key), key, k);
      WithKeyCons(xs[0], SortDesc(xs[1..], key), key, k);
      WithKeyCons(xs[0], xs[1..], key, k);
      assert [xs[0]] + xs[1..] == xs;
    }
  }

  /** A sequence already in non-increasing order is its own sort. */
  lemma {:induction false} SortDescOfSorted<T>(xs: seq<T>, key: T -> int)
    requires SortedDesc(xs, key)
    ensures SortDesc(xs, key) == xs
  {
    if xs != [] {
      var rest := xs[1..];
      assert SortedDesc(rest, key) by {
        forall i, j | 0 <= i < j < |rest| ensures key(rest[i]) >= key(rest[j]) {
          assert rest[i] == xs[i + 1] && rest[j] == xs[j + 1];
        }
      }
      SortDescOfSorted(rest, key);
      if rest != [] {
        assert key(rest[0]) <= key(xs[0]) by { assert rest[0] == xs[1]; }
      }
      assert xs == [xs[0]] + rest;
    }
  }

  /** A prefix of a non-increasing sequence is non-increasing, and is its top: an element
      that only occurs after the prefix has a key no larger than any element of it. */
  lemma {:induction false} SortedPrefixIsTop<T>(sorted: seq<T>, n: int, key: T -> int)
    requires SortedDesc(sorted, key) && 0 <= n <= |sorted|
    ensures SortedDesc(sorted[..n], key)
    ensures multiset(sorted[..n]) <= multiset(sorted)
    ensures forall x, y :: x in sorted && x !in sorted[..n] && y in sorted[..n] ==> key(x) <= key(y)
  {
    var r := sorted[..n];
    assert sorted == r + sorted[n..];
    assert multiset(sorted) == multiset(r) + multiset(sorted[n..]);
    forall x, y | x in sorted && x !in r && y in r ensures key(x) <= key(y) {
      var j :| 0 <= j < |sorted| && sorted[j] == x;
      var i :| 0 <= i < |r| && r[i] == y;
      assert j >= n;
      assert key(sorted[i]) >= key(sorted[j]);
    }
  }

  /** Python's `xs[:n]`: the first `n` elements, or all but the last `-n` when `n` is negative. */
  function PyPrefix<T>(xs: seq<T>, n: int): (r: seq<T>)
    ensures n >= 0 ==> |r| == if n < |xs| then n else |xs|
    ensures n < 0 ==> |r| == if |xs| + n > 0 then |xs| + n else 0
    ensures r == xs[..|r|]
  {
    if n >= 0 then (if n < |xs| then xs[..n] else xs)
    else (if |xs| + n > 0 then xs[..|xs| + n] else [])
  }
}
