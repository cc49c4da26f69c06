/** The stable descending sort the code gets from
    `array.sort((a, b) => key(b) - key(a))`: larger keys first, and equal
    keys keep their original relative order (ECMA-262 requires `sort` to be
    stable). The sort is computed on positions: `SortOrder(keys, n)` lists
    the positions `0..n-1` in the order the sorted array holds them. */
module Sorting {
  import opened Seqs

  /** Position `i` comes before position `j` in the sorted array. */
  predicate Before(keys: seq<real>, i: nat, j: nat)
    requires i < |keys| && j < |keys|
  {
    keys[i] > keys[j] || (keys[i] == keys[j] && i < j)
  }

  ghost predicate SortedBy(keys: seq<real>, order: seq<nat>)
  {
    forall a, b :: 0 <= a < b < |order| ==> order[a] < |keys| && order[b] < |keys| && Before(keys, order[a], order[b])
  }

  /** `order` lists each of the positions `0..n-1` exactly once. */
  ghost predicate IsPermutation(order: seq<nat>, n: nat)
  {
    |order| == n && Distinct(order) && (forall k :: 0 <= k < n ==> order[k] < n)
    && (forall p :: 0 <= p < n ==> p in order)
  }

  /** Insertion step: `x` goes before the first element with a smaller key. */
  function Insert(keys: seq<real>, x: nat, order: seq<nat>): (r: seq<nat>)
    requires x < |keys|
    requires forall k :: 0 <= k < |order| ==> order[k] < |keys|
    ensures |r| == |order| + 1
    ensures forall k :: 0 <= k < |r| ==> r[k] == x || r[k] in order
    ensures x in r && forall k :: 0 <= k < |order| ==> order[k] in r
  {
    if order == [] then [x]
    else if keys[order[0]] < keys[x] then [x] + order
    else [order[0]] + Insert(keys, x, order[1..])
  }

  /** Positions `0..n-1` sorted by descending key, ties by position. */
  function SortOrder(keys: seq<real>, n: nat): (r: seq<nat>)
    requires n <= |keys|
    ensures |r| == n && forall k :: 0 <= k < n ==> r[k] < n
  {
    if n == 0 then [] else Insert(keys, n - 1, SortOrder(keys, n - 1))
  }

  /** Putting in front an element that comes before all others keeps the
      order sorted. */
  lemma SortedCons(keys: seq<real>, y: nat, order: seq<nat>)
    requires y < |keys| && forall k :: 0 <= k < |order| ==> order[k] < |keys|
    requires SortedBy(keys, order)
    requires forall k :: 0 <= k < |order| ==> Before(keys, y, order[k])
    ensures SortedBy(keys, [y] + order)
  {
    var r := [y] + order;
    forall a, b | 0 <= a < b < |r| ensures Before(keys, r[a], r[b]) {
      if a == 0 {
        assert r[b] == order[b - 1];
      } else {
        assert r[a] == order[a - 1] && r[b] == order[b - 1];
      }
    }
  }

  lemma SortedTail(keys: seq<real>, order: seq<nat>)
    requires order != [] && SortedBy(keys, order)
    ensures SortedBy(keys, order[1..])
    ensures forall k :: 1 <= k < |order| ==> Before(keys, order[0], order[k])
  {
    var tail := order[1..];
    forall a, b | 0 <= a < b < |tail| ensures Before(keys, tail[a], tail[b]) {
      assert tail[a] == order[a + 1] && tail[b] == order[b + 1];
    }
    forall k | 1 <= k < |order| ensures Before(keys, order[0], order[k]) {
    }
  }

  /** Inserting a position larger than all others keeps the order sorted. */
  lemma {:induction false} InsertSorted(keys: seq<real>, x: nat, order: seq<nat>)
    requires x < |keys|
    requires forall k :: 0 <= k < |order| ==> order[k] < x
    requires SortedBy(keys, order)
    ensures SortedBy(keys, Insert(keys, x, order))
    decreases |order|
  {
    if order != [] {
      SortedTail(keys, order);
      if keys[order[0]] < keys[x] {
        SortedCons(keys, x, order);
      } else {
        var tail := order[1..];
        InsertSorted(keys, x, tail);
        var t := Insert(keys, x, tail);
        forall k | 0 <= k < |t| ensures Before(keys, order[0], t[k]) {
          if t[k] != x {
            var j :| 0 <= j < |tail| && tail[j] == t[k];
            assert tail[j] == order[j + 1];
          }
        }
        SortedCons(keys, order[0], t);
      }
    }
  }

  /** The sort order is a permutation of the positions, sorted by descending
      key, with equal keys in original position order. */
  lemma {:induction false} SortOrderCorrect(keys: seq<real>, n: nat)
    requires n <= |keys|
    ensures IsPermutation(SortOrder(keys, n), n)
    ensures SortedBy(keys, SortOrder(keys, n))
  {
    if n > 0 {
      SortOrderCorrect(keys, n - 1);
      InsertCorrect(keys, n, SortOrder(keys, n - 1));
    }
  }

  /** One insertion step of the sort keeps a sorted permutation. */
  lemma InsertCorrect(keys: seq<real>, n: nat, prev: seq<nat>)
    requires 0 < n <= |keys| && IsPermutation(prev, n - 1) && SortedBy(keys, prev)
    ensures IsPermutation(Insert(keys, n - 1, prev), n)
    ensures SortedBy(keys, Insert(keys, n - 1, prev))
  {
    InsertSorted(keys, n - 1, prev);
    InsertDistinct(keys, n, prev);
    InsertCovers(keys, n, prev);
  }

  /** Two positions of a sorted order are different. */
  lemma InsertDistinct(keys: seq<real>, n: nat, prev: seq<nat>)
    requires 0 < n <= |keys| && IsPermutation(prev, n - 1)
    requires SortedBy(keys, Insert(keys, n - 1, prev))
    ensures Distinct(Insert(keys, n - 1, prev))
  {
    var r := Insert(keys, n - 1, prev);
    forall i, j | 0 <= i < j < n ensures r[i] != r[j] {
      assert Before(keys, r[i], r[j]);
    }
  }

  /** Inserting `n - 1` into a permutation of `0..n-2` covers `0..n-1`. */
  lemma InsertCovers(keys: seq<real>, n: nat, prev: seq<nat>)
    requires 0 < n <= |keys| && IsPermutation(prev, n - 1)
    requires Distinct(Insert(keys, n - 1, prev))
    ensures IsPermutation(Insert(keys, n - 1, prev), n)
  {
    var r := Insert(keys, n - 1, prev);
    forall p | 0 <= p < n ensures p in r {
      if p < n - 1 {
        assert p in prev;
        var k :| 0 <= k < |prev| && prev[k] == p;
      }
    }
  }

  /** The sort keys of the elements of `s`. */
  function KeySeq<T>(s: seq<T>, key: T -> real): (ks: seq<real>)
    ensures |ks| == |s| && forall i :: 0 <= i < |s| ==> ks[i] == key(s[i])
  {
    seq(|s|, i requires 0 <= i < |s| => key(s[i]))
  }

  /** `s.sort((a, b) => key(b) - key(a))`, for a stable `sort`. */
  function SortDesc<T>(s: seq<T>, key: T -> real): (r: seq<T>)
    ensures |r| == |s|
  {
    var order := SortOrder(KeySeq(s, key), |s|);
    seq(|s|, k requires 0 <= k < |s| => s[order[k]])
  }

  /** The sorted array has non-increasing keys and is a rearrangement of
      the input in which equal keys keep their order. */
  lemma SortDescProperties<T>(s: seq<T>, key: T -> real)
    ensures var order := SortOrder(KeySeq(s, key), |s|);
            IsPermutation(order, |s|)
            && (forall k :: 0 <= k < |s| ==> SortDesc(s, key)[k] == s[order[k]])
            && (forall a, b :: 0 <= a < b < |s| ==> key(SortDesc(s, key)[a]) >= key(SortDesc(s, key)[b]))
            && (forall a, b :: 0 <= a < b < |s| && key(SortDesc(s, key)[a]) == key(SortDesc(s, key)[b]) ==> order[a] < order[b])
  {
    SortOrderCorrect(KeySeq(s, key), |s|);
    SortDescSorted(s, key);
  }

  lemma SortDescSorted<T>(s: seq<T>, key: T -> real)
    ensures var order := SortOrder(KeySeq(s, key), |s|);
            forall a, b :: 0 <= a < b < |s| ==>
              key(SortDesc(s, key)[a]) >= key(SortDesc(s, key)[b])
              && (key(SortDesc(s, key)[a]) == key(SortDesc(s, key)[b]) ==> order[a] < order[b])
  {
    var ks := KeySeq(s, key);
    var order := SortOrder(ks, |s|);
    var r := SortDesc(s, key);
    SortOrderCorrect(ks, |s|);
    forall a, b | 0 <= a < b < |s|
      ensures key(r[a]) >= key(r[b]) && (key(r[a]) == key(r[b]) ==> order[a] < order[b])
    {
      assert Before(ks, order[a], order[b]);
      assert r[a] == s[order[a]] && r[b] == s[order[b]];
      assert ks[order[a]] == key(r[a]) && ks[order[b]] == key(r[b]);
    }
  }

  /** Every element of the sorted array comes from the input. */
  lemma SortDescMembers<T>(s: seq<T>, key: T -> real)
    ensures forall k :: 0 <= k < |SortDesc(s, key)| ==> SortDesc(s, key)[k] in s
  {
    var order := SortOrder(KeySeq(s, key), |s|);
    forall k | 0 <= k < |SortDesc(s, key)| ensures SortDesc(s, key)[k] in s {
      assert SortDesc(s, key)[k] == s[order[k]];
    }
  }

  /** The first `n` of the sorted array have non-increasing keys, and none
      of the rest has a larger key than any of them. */
  lemma SortDescPrefix<T>(s: seq<T>, key: T -> real, n: int)
    ensures var r := Prefix(SortDesc(s, key), n);
            var sorted := SortDesc(s, key);
            && (forall a, b :: 0 <= a < b < |r| ==> key(r[a]) >= key(r[b]))
            && (forall a, b :: 0 <= a < |r| <= b < |sorted| ==> key(r[a]) >= key(sorted[b]))
  {
    var sorted := SortDesc(s, key);
    SortDescNonIncreasing(s, key);
    PrefixNonIncreasing(sorted, key, n);
  }

  /** The sorted array has non-increasing keys. */
  lemma SortDescNonIncreasing<T>(s: seq<T>, key: T -> real)
    ensures forall a, b :: 0 <= a < b < |SortDesc(s, key)| ==> key(SortDesc(s, key)[a]) >= key(SortDesc(s, key)[b])
  {
    SortDescSorted(s, key);
  }

  /** A prefix of a sequence with non-increasing keys has non-increasing
      keys, none smaller than any key after it. */
  lemma PrefixNonIncreasing<T>(sorted: seq<T>, key: T -> real, n: int)
    requires forall a, b :: 0 <= a < b < |sorted| ==> key(sorted[a]) >= key(sorted[b])
    ensures var r := Prefix(sorted, n);
            && (forall a, b :: 0 <= a < b < |r| ==> key(r[a]) >= key(r[b]))
            && (forall a, b :: 0 <= a < |r| <= b < |sorted| ==> key(r[a]) >= key(sorted[b]))
  {
    var r := Prefix(sorted, n);
    assert forall a :: 0 <= a < |r| ==> r[a] == sorted[a];
  }

  /** Sorting keeps the set of keys `id` gives. */
  lemma SortDescKeysOf<T, K>(s: seq<T>, key: T -> real, id: T -> K)
    ensures KeysOf(SortDesc(s, key), id) == KeysOf(s, id)
  {
    SortDescProperties(s, key);
    KeysOfReordered(s, SortDesc(s, key), SortOrder(KeySeq(s, key), |s|), id);
  }

  /** A reordering of `s` by a permutation has the keys of `s`. */
  lemma KeysOfReordered<T, K>(s: seq<T>, t: seq<T>, order: seq<nat>, id: T -> K)
    requires IsPermutation(order, |s|) && |t| == |s|
    requires forall k :: 0 <= k < |t| ==> t[k] == s[order[k]]
    ensures KeysOf(t, id) == KeysOf(s, id)
  {
    forall p | 0 <= p < |s| ensures id(s[p]) in KeysOf(t, id) {
      assert p in order;
      var k :| 0 <= k < |order| && order[k] == p;
      assert t[k] == s[p];
    }
    forall k | 0 <= k < |t| ensures id(t[k]) in KeysOf(s, id) {
      assert t[k] == s[order[k]];
    }
  }

  /** Sorting keeps keys that `id` gives pairwise distinct. */
  lemma SortDescDistinct<T, K>(s: seq<T>, key: T -> real, id: T -> K)
    requires forall a, b :: 0 <= a < b < |s| ==> id(s[a]) != id(s[b])
    ensures forall a, b :: 0 <= a < b < |SortDesc(s, key)| ==> id(SortDesc(s, key)[a]) != id(SortDesc(s, key)[b])
  {
    var sorted := SortDesc(s, key);
    var order := SortOrder(KeySeq(s, key), |s|);
    SortDescProperties(s, key);
    forall a, b | 0 <= a < b < |sorted| ensures id(sorted[a]) != id(sorted[b]) {
      assert sorted[a] == s[order[a]] && sorted[b] == s[order[b]];
      assert order[a] != order[b];
      if order[a] < order[b] {
      } else {
      }
    }
  }
}
