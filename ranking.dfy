/** Stable descending sort by a real-valued key: what Python's
    `list.sort(key=..., reverse=True)` and JavaScript's
    `Array.prototype.sort((a, b) => key(b) - key(a))` (stable since ES2019)
    compute. Defined once here as an insertion sort and proved sorted, a
    permutation of its input, and stable. */
module Ranking {

  /** Keys never increase from left to right. */
  predicate SortedDesc<T>(xs: seq<T>, key: T -> real) {
    forall i, j :: 0 <= i < j < |xs| ==> key(xs[i]) >= key(xs[j])
  }

  /** The elements of `xs` whose key is `v`, in their order in `xs`. */
  function WithKey<T>(xs: seq<T>, key: T -> real, v: real): (r: seq<T>)
    ensures |r| <= |xs|
    ensures forall k :: 0 <= k < |r| ==> key(r[k]) == v
  {
    if xs == [] then []
    else (if key(xs[0]) == v then [xs[0]] else []) + WithKey(xs[1..], key, v)
  }

  /** Puts `x` in front of the first element whose key is not larger, so that
      `x` stays ahead of every element with the same key. */
  function Insert<T>(x: T, ys: seq<T>, key: T -> real): seq<T>
  {
    if ys == [] || key(x) >= key(ys[0]) then [x] + ys
    else [ys[0]] + Insert(x, ys[1..], key)
  }

  /** The stable descending sort. */
  function SortDesc<T>(xs: seq<T>, key: T -> real): seq<T>
  {
    if xs == [] then [] else Insert(xs[0], SortDesc(xs[1..], key), key)
  }

  lemma {:induction false} InsertPermutes<T>(x: T, ys: seq<T>, key: T -> real)
    ensures multiset(Insert(x, ys, key)) == multiset([x] + ys)
  {
    if ys == [] || key(x) >= key(ys[0]) {
    } else {
      InsertPermutes(x, ys[1..], key);
      assert ys == [ys[0]] + ys[1..];
    }
  }

  /** Every element of `Insert(x, ys, key)` is `x` or an element of `ys`. */
  lemma InsertSource<T>(x: T, ys: seq<T>, key: T -> real, j: nat)
    requires j < |Insert(x, ys, key)|
    ensures Insert(x, ys, key)[j] == x || exists k :: 0 <= k < |ys| && ys[k] == Insert(x, ys, key)[j]
  {
    var e := Insert(x, ys, key)[j];
    InsertPermutes(x, ys, key);
    assert e in multiset(Insert(x, ys, key));
    assert e in multiset([x] + ys);
  }

  lemma {:induction false} InsertSorted<T>(x: T, ys: seq<T>, key: T -> real)
    requires SortedDesc(ys, key)
    ensures SortedDesc(Insert(x, ys, key), key)
    ensures |Insert(x, ys, key)| == |ys| + 1
  {
    if ys == [] || key(x) >= key(ys[0]) {
    } else {
      var tail := Insert(x, ys[1..], key);
      InsertSorted(x, ys[1..], key);
      var r := [ys[0]] + tail;
      assert Insert(x, ys, key) == r;
      forall i, j | 0 <= i < j < |r| ensures key(r[i]) >= key(r[j]) {
        if i > 0 {
          assert r[i] == tail[i - 1] && r[j] == tail[j - 1];
        } else {
          assert r[j] == tail[j - 1];
          InsertSource(x, ys[1..], key, j - 1);
          if tail[j - 1] != x {
            var k :| 0 <= k < |ys[1..]| && ys[1..][k] == tail[j - 1];
            assert ys[k + 1] == r[j];
          }
        }
      }
    }
  }

  lemma WithKeyCons<T>(e: T, s: seq<T>, key: T -> real, v: real)
    ensures WithKey([e] + s, key, v) == (if key(e) == v then [e] else []) + WithKey(s, key, v)
  {
    assert ([e] + s)[0] == e;
    assert ([e] + s)[1..] == s;
  }

  /** Inserting `x` adds it in front of the elements with its key and
      leaves the others of each key as they were. */
  lemma {:induction false} InsertWithKey<T>(x: T, ys: seq<T>, key: T -> real, v: real)
    ensures WithKey(Insert(x, ys, key), key, v)
         == (if key(x) == v then [x] else []) + WithKey(ys, key, v)
  {
    if ys == [] || key(x) >= key(ys[0]) {
      WithKeyCons(x, ys, key, v);
    } else {
      var ins := Insert(x, ys[1..], key);
      assert Insert(x, ys, key) == [ys[0]] + ins;
      var w := WithKey(ys[1..], key, v);
      WithKeyCons(ys[0], ins, key, v);
      WithKeyCons(ys[0], ys[1..], key, v);
      assert [ys[0]] + ys[1..] == ys;
      InsertWithKey(x, ys[1..], key, v);
      if key(ys[0]) == v {
        // x has a smaller key than ys[0], so not the key v
        assert WithKey(ins, key, v) == w;
        assert WithKey(ys, key, v) == [ys[0]] + w;
      } else {
        assert WithKey(Insert(x, ys, key), key, v) == WithKey(ins, key, v);
        assert WithKey(ys, key, v) == w;
      }
    }
  }

  /** The sort is a permutation, is ordered, and is stable: the elements that
      share a key keep their relative input order. */
  lemma {:induction false} SortDescCorrect<T>(xs: seq<T>, key: T -> real)
    ensures multiset(SortDesc(xs, key)) == multiset(xs)
    ensures |SortDesc(xs, key)| == |xs|
    ensures SortedDesc(SortDesc(xs, key), key)
    ensures forall v :: WithKey(SortDesc(xs, key), key, v) == WithKey(xs, key, v)
  {
    if xs != [] {
      var rest := SortDesc(xs[1..], key);
      SortDescCorrect(xs[1..], key);
      InsertPermutes(xs[0], rest, key);
      InsertSorted(xs[0], rest, key);
      assert xs == [xs[0]] + xs[1..];
      forall v ensures WithKey(SortDesc(xs, key), key, v) == WithKey(xs, key, v) {
        InsertWithKey(xs[0], rest, key, v);
      }
    }
  }

  /** Among elements with equal keys, `rank` never decreases from left to right. */
  predicate TiesRanked<T>(xs: seq<T>, key: T -> real, rank: T -> int) {
    forall i, j :: 0 <= i < j < |xs| && key(xs[i]) == key(xs[j]) ==> rank(xs[i]) <= rank(xs[j])
  }

  lemma {:induction false} InsertKeepsRankOnTies<T>(x: T, ys: seq<T>, key: T -> real, rank: T -> int)
    requires TiesRanked(ys, key, rank)
    requires forall k :: 0 <= k < |ys| ==> rank(x) <= rank(ys[k])
    ensures TiesRanked(Insert(x, ys, key), key, rank)
  {
    if ys == [] || key(x) >= key(ys[0]) {
      var r := [x] + ys;
      forall i, j | 0 <= i < j < |r| && key(r[i]) == key(r[j]) ensures rank(r[i]) <= rank(r[j]) {
        if i > 0 { assert r[i] == ys[i - 1] && r[j] == ys[j - 1]; } else { assert r[j] == ys[j - 1]; }
      }
    } else {
      var ins := Insert(x, ys[1..], key);
      InsertKeepsRankOnTies(x, ys[1..], key, rank);
      var r := [ys[0]] + ins;
      assert Insert(x, ys, key) == r;
      forall i, j | 0 <= i < j < |r| && key(r[i]) == key(r[j]) ensures rank(r[i]) <= rank(r[j]) {
        if i > 0 {
          assert r[i] == ins[i - 1] && r[j] == ins[j - 1];
        } else {
          assert r[j] == ins[j - 1];
          InsertSource(x, ys[1..], key, j - 1);
          if ins[j - 1] != x {
            var k :| 0 <= k < |ys[1..]| && ys[1..][k] == ins[j - 1];
            assert ys[k + 1] == r[j];
          }
        }
      }
    }
  }

  /** A second reading of stability: when the input lists elements in
      non-decreasing `rank`, elements with equal keys leave the sort in
      non-decreasing `rank` too. */
  lemma {:induction false} SortDescKeepsRankOnTies<T>(xs: seq<T>, key: T -> real, rank: T -> int)
    requires forall a, b :: 0 <= a < b < |xs| ==> rank(xs[a]) <= rank(xs[b])
    ensures TiesRanked(SortDesc(xs, key), key, rank)
  {
    if xs != [] {
      var rest := SortDesc(xs[1..], key);
      SortDescKeepsRankOnTies(xs[1..], key, rank);
      SortDescCorrect(xs[1..], key);
      forall k | 0 <= k < |rest| ensures rank(xs[0]) <= rank(rest[k]) {
        assert rest[k] in multiset(xs[1..]);
        var m :| 0 <= m < |xs[1..]| && xs[1..][m] == rest[k];
        assert xs[m + 1] == rest[k];
      }
      InsertKeepsRankOnTies(xs[0], rest, key, rank);
    }
  }
}
