/** Sequence operations shared by the whole model: JavaScript's `filter`,
    `slice(0, n)`, `flat`, and the "first occurrence wins" deduplication
    that the code writes with a `Set` or a `Map` of seen keys. */
module Seqs {

  function Last<T>(s: seq<T>): T
    requires s != []
  {
    s[|s| - 1]
  }

  function Init<T>(s: seq<T>): seq<T>
    requires s != []
  {
    s[..|s| - 1]
  }

  function Min(a: int, b: int): int
  {
    if a <= b then a else b
  }

  /** Pairwise distinct elements. */
  predicate Distinct<T(==)>(s: seq<T>)
  {
    forall i, j :: 0 <= i < j < |s| ==> s[i] != s[j]
  }

  /** `s.filter(p)`: the elements satisfying `p`, in their order. */
  function Filter<T>(s: seq<T>, p: T -> bool): (r: seq<T>)
    ensures |r| <= |s|
    ensures forall i :: 0 <= i < |r| ==> r[i] in s && p(r[i])
    ensures forall i :: 0 <= i < |s| && p(s[i]) ==> s[i] in r
  {
    if s == [] then []
    else Filter(Init(s), p) + (if p(Last(s)) then [Last(s)] else [])
  }

  /** The end index that `slice(0, end)` uses on a sequence of length `len`:
      a negative `end` counts from the back. */
  function SliceEnd(len: nat, end: int): (e: nat)
    ensures e <= len
    ensures end >= 0 ==> e == Min(end, len)
    ensures end < 0 ==> e == if len + end >= 0 then len + end else 0
  {
    if end >= 0 then Min(end, len)
    else if len + end >= 0 then len + end
    else 0
  }

  /** `s.slice(0, end)`. */
  function Prefix<T>(s: seq<T>, end: int): seq<T>
  {
    s[..SliceEnd(|s|, end)]
  }

  /** A prefix shorter than asked for is the whole sequence. */
  lemma PrefixWhole<T>(s: seq<T>, n: int)
    ensures |Prefix(s, n)| < n ==> Prefix(s, n) == s
  {
    if |Prefix(s, n)| < n {
      assert s[..|s|] == s;
    }
  }

  /** `ss.flat()`: the pieces concatenated in order. */
  function Flatten<T>(ss: seq<seq<T>>): seq<T>
  {
    if ss == [] then [] else Flatten(Init(ss)) + Last(ss)
  }

  lemma {:induction false} FlattenCons<T>(x: seq<T>, ss: seq<seq<T>>)
    ensures Flatten([x] + ss) == x + Flatten(ss)
    decreases |ss|
  {
    if ss == [] {
      assert Init([x]) == [];
    } else {
      assert Init([x] + ss) == [x] + Init(ss);
      FlattenCons(x, Init(ss));
    }
  }

  /** Number of occurrences of `x` in `s`. */
  function Count<T(==)>(s: seq<T>, x: T): nat
  {
    if s == [] then 0 else Count(Init(s), x) + (if Last(s) == x then 1 else 0)
  }

  lemma {:induction false} CountPositive<T>(s: seq<T>, x: T)
    ensures Count(s, x) > 0 <==> x in s
  {
    if s != [] {
      CountPositive(Init(s), x);
      assert x in s <==> x in Init(s) || x == Last(s);
    }
  }

  // ---------------------------------------------------------------------
  // Order-preserving subsequences

  /** `a` is obtained from `b` by deleting elements (order kept). */
  ghost predicate Subseq<T>(a: seq<T>, b: seq<T>)
    decreases |b|
  {
    if a == [] then true
    else if b == [] then false
    else (Last(a) == Last(b) && Subseq(Init(a), Init(b))) || Subseq(a, Init(b))
  }

  lemma SubseqEmpty<T>(b: seq<T>)
    ensures Subseq([], b)
  {
  }

  lemma SubseqSkip<T>(a: seq<T>, b: seq<T>, x: T)
    requires Subseq(a, b)
    ensures Subseq(a, b + [x])
  {
    assert Init(b + [x]) == b;
  }

  lemma SubseqKeep<T>(a: seq<T>, b: seq<T>, x: T)
    requires Subseq(a, b)
    ensures Subseq(a + [x], b + [x])
  {
    assert Init(b + [x]) == b;
    assert Init(a + [x]) == a;
  }

  lemma {:induction false} SubseqRefl<T>(s: seq<T>)
    ensures Subseq(s, s)
    decreases |s|
  {
    if s != [] {
      SubseqRefl(Init(s));
      SubseqKeep(Init(s), Init(s), Last(s));
      assert Init(s) + [Last(s)] == s;
    }
  }

  lemma {:induction false} SubseqPrefix<T>(s: seq<T>, k: nat)
    requires k <= |s|
    ensures Subseq(s[..k], s)
    decreases |s|
  {
    if k == |s| {
      assert s[..k] == s;
      SubseqRefl(s);
    } else {
      SubseqPrefix(Init(s), k);
      assert Init(s)[..k] == s[..k];
      SubseqSkip(s[..k], Init(s), Last(s));
      assert Init(s) + [Last(s)] == s;
    }
  }

  lemma {:induction false} SubseqElements<T>(a: seq<T>, b: seq<T>)
    requires Subseq(a, b)
    ensures |a| <= |b|
    ensures forall x :: x in a ==> x in b
    decreases |b|
  {
    if a != [] {
      if Last(a) == Last(b) && Subseq(Init(a), Init(b)) {
        SubseqElements(Init(a), Init(b));
        assert forall x :: x in a ==> x in Init(a) || x == Last(a);
      } else {
        SubseqElements(a, Init(b));
      }
    }
  }

  lemma {:induction false} SubseqTrans<T>(a: seq<T>, b: seq<T>, c: seq<T>)
    requires Subseq(a, b) && Subseq(b, c)
    ensures Subseq(a, c)
    decreases |c|
  {
    if a == [] {
    } else if Last(b) == Last(c) && Subseq(Init(b), Init(c)) {
      if Last(a) == Last(b) && Subseq(Init(a), Init(b)) {
        SubseqTrans(Init(a), Init(b), Init(c));
      } else {
        SubseqTrans(a, Init(b), Init(c));
      }
    } else {
      SubseqTrans(a, b, Init(c));
    }
  }

  lemma {:induction false} FilterSubseq<T>(s: seq<T>, p: T -> bool)
    ensures Subseq(Filter(s, p), s)
    decreases |s|
  {
    if s != [] {
      FilterSubseq(Init(s), p);
      assert Init(s) + [Last(s)] == s;
      if p(Last(s)) {
        assert Filter(s, p) == Filter(Init(s), p) + [Last(s)];
        SubseqKeep(Filter(Init(s), p), Init(s), Last(s));
      } else {
        assert Filter(s, p) == Filter(Init(s), p) + [];
        assert Filter(Init(s), p) + [] == Filter(Init(s), p);
        SubseqSkip(Filter(Init(s), p), Init(s), Last(s));
      }
    }
  }

  /** The first `n` elements that pass a filter are taken in order from
      the input, and there are at most `n` of them. */
  lemma PrefixFilterSubseq<T>(s: seq<T>, p: T -> bool, n: int)
    ensures Subseq(Prefix(Filter(s, p), n), s)
    ensures n >= 0 ==> |Prefix(Filter(s, p), n)| <= n
  {
    var f := Filter(s, p);
    FilterSubseq(s, p);
    SubseqPrefix(f, SliceEnd(|f|, n));
    SubseqTrans(Prefix(f, n), f, s);
  }

  /** `filter` distributes over concatenation. */
  lemma {:induction false} FilterConcat<T>(a: seq<T>, b: seq<T>, p: T -> bool)
    ensures Filter(a + b, p) == Filter(a, p) + Filter(b, p)
    decreases |b|
  {
    if b == [] {
      assert a + b == a;
    } else {
      assert Init(a + b) == a + Init(b) && Last(a + b) == Last(b);
      FilterConcat(a, Init(b), p);
    }
  }

  lemma FilterSingle<T>(x: T, p: T -> bool)
    ensures Filter([x], p) == if p(x) then [x] else []
  {
    assert Init([x]) == [];
  }

  /** A relation that holds between every earlier and later element of `b`
      holds between those of a subsequence of `b`. */
  lemma {:induction false} SubseqPairwise<T>(a: seq<T>, b: seq<T>, r: (T, T) -> bool)
    requires Subseq(a, b)
    requires forall i, j :: 0 <= i < j < |b| ==> r(b[i], b[j])
    ensures forall i, j :: 0 <= i < j < |a| ==> r(a[i], a[j])
    decreases |b|
  {
    if a != [] {
      if Last(a) == Last(b) && Subseq(Init(a), Init(b)) {
        SubseqPairwise(Init(a), Init(b), r);
        SubseqElements(Init(a), Init(b));
        forall i, j | 0 <= i < j < |a| ensures r(a[i], a[j]) {
          if j == |a| - 1 {
            assert a[i] in Init(a);
            var k :| 0 <= k < |Init(b)| && Init(b)[k] == a[i];
            assert r(b[k], b[|b| - 1]);
          } else {
            assert a[i] == Init(a)[i] && a[j] == Init(a)[j];
          }
        }
      } else {
        SubseqPairwise(a, Init(b), r);
      }
    }
  }

  /** Filtering by a predicate every element satisfies changes nothing. */
  lemma {:induction false} FilterAll<T>(s: seq<T>, p: T -> bool)
    requires forall i :: 0 <= i < |s| ==> p(s[i])
    ensures Filter(s, p) == s
    decreases |s|
  {
    if s != [] {
      FilterAll(Init(s), p);
      assert Init(s) + [Last(s)] == s;
    }
  }

  /** Filtering keeps elements pairwise distinct. */
  lemma {:induction false} FilterDistinct<T>(s: seq<T>, p: T -> bool)
    requires Distinct(s)
    ensures Distinct(Filter(s, p))
    decreases |s|
  {
    if s != [] {
      assert Distinct(Init(s));
      FilterDistinct(Init(s), p);
      assert Last(s) !in Init(s);
    }
  }

  /** Two distinct sequences with no common element concatenate to a
      distinct sequence. */
  lemma DistinctConcat<T>(a: seq<T>, b: seq<T>)
    requires Distinct(a) && Distinct(b)
    requires forall x :: x in a ==> x !in b
    ensures Distinct(a + b)
  {
    var c := a + b;
    forall i, j | 0 <= i < j < |c| ensures c[i] != c[j] {
      if j >= |a| && i < |a| {
        assert c[i] in a && c[j] == b[j - |a|];
      } else if i >= |a| {
        assert c[i] == b[i - |a|] && c[j] == b[j - |a|];
      }
    }
  }

  /** One step of `Filter`, in the form a left-to-right loop uses it. */
  lemma FilterSnoc<T>(s: seq<T>, i: nat, p: T -> bool)
    requires i < |s|
    ensures Filter(s[..i + 1], p) == Filter(s[..i], p) + (if p(s[i]) then [s[i]] else [])
  {
    assert Init(s[..i + 1]) == s[..i];
  }

  // ---------------------------------------------------------------------
  // First-occurrence deduplication

  /** The keys of the elements of `s`. */
  function KeysOf<T, K(==)>(s: seq<T>, key: T -> K): (r: set<K>)
    ensures forall i :: 0 <= i < |s| ==> key(s[i]) in r
    ensures forall k :: k in r ==> exists i :: 0 <= i < |s| && key(s[i]) == k
  {
    if s == [] then {} else KeysOf(Init(s), key) + {key(Last(s))}
  }

  /** The elements of `s` whose key has not been seen earlier in `s`, in
      order: what a loop keeping a set of seen keys pushes. */
  function DedupBy<T, K(==)>(s: seq<T>, key: T -> K): seq<T>
  {
    if s == [] then []
    else if key(Last(s)) in KeysOf(Init(s), key) then DedupBy(Init(s), key)
    else DedupBy(Init(s), key) + [Last(s)]
  }

  lemma DedupBySnoc<T, K>(s: seq<T>, i: nat, key: T -> K)
    requires i < |s|
    ensures DedupBy(s[..i + 1], key)
         == if key(s[i]) in KeysOf(s[..i], key) then DedupBy(s[..i], key)
            else DedupBy(s[..i], key) + [s[i]]
    ensures KeysOf(s[..i + 1], key) == KeysOf(s[..i], key) + {key(s[i])}
  {
    assert Init(s[..i + 1]) == s[..i];
  }

  /** `DedupBy` of a sequence extended by one element. */
  lemma DedupByAppend<T, K>(s: seq<T>, x: T, key: T -> K)
    ensures DedupBy(s + [x], key)
         == if key(x) in KeysOf(s, key) then DedupBy(s, key) else DedupBy(s, key) + [x]
    ensures KeysOf(s + [x], key) == KeysOf(s, key) + {key(x)}
  {
    assert Init(s + [x]) == s && Last(s + [x]) == x;
  }

  /** A sequence whose keys are already pairwise distinct is left as it is. */
  lemma {:induction false} DedupByOfDistinct<T, K>(s: seq<T>, key: T -> K)
    requires forall i, j :: 0 <= i < j < |s| ==> key(s[i]) != key(s[j])
    ensures DedupBy(s, key) == s
    decreases |s|
  {
    if s != [] {
      var init, x := Init(s), Last(s);
      assert forall i, j :: 0 <= i < j < |init| ==> key(init[i]) != key(init[j]);
      DedupByOfDistinct(init, key);
      forall i | 0 <= i < |init| ensures key(init[i]) != key(x) {
        assert init[i] == s[i] && x == s[|s| - 1];
      }
      assert key(x) !in KeysOf(init, key);
      assert init + [x] == s;
    }
  }

  /** One step of a loop that skips elements failing `p` and elements whose
      key was seen, and records the keys it sees. */
  lemma DedupFilterStep<T, K>(s: seq<T>, i: nat, p: T -> bool, key: T -> K)
    requires i < |s|
    ensures DedupBy(Filter(s[..i + 1], p), key)
         == if p(s[i]) && key(s[i]) !in KeysOf(Filter(s[..i], p), key)
            then DedupBy(Filter(s[..i], p), key) + [s[i]]
            else DedupBy(Filter(s[..i], p), key)
    ensures KeysOf(Filter(s[..i + 1], p), key)
         == KeysOf(Filter(s[..i], p), key) + (if p(s[i]) then {key(s[i])} else {})
  {
    var f := Filter(s[..i], p);
    FilterSnoc(s, i, p);
    if p(s[i]) {
      DedupByAppend(f, s[i], key);
    } else {
      assert f + [] == f;
    }
  }

  /** A prefix of `b` after `a`, extended by the next element of `b`. */
  lemma ConcatPrefixSnoc<T>(a: seq<T>, b: seq<T>, i: nat)
    requires i < |b|
    ensures a + b[..i + 1] == (a + b[..i]) + [b[i]]
  {
    assert b[..i + 1] == b[..i] + [b[i]];
  }

  /** `DedupFilterStep` for a sequence extended by one element. */
  lemma DedupFilterAppend<T, K>(s: seq<T>, x: T, p: T -> bool, key: T -> K)
    ensures DedupBy(Filter(s + [x], p), key)
         == if p(x) && key(x) !in KeysOf(Filter(s, p), key)
            then DedupBy(Filter(s, p), key) + [x]
            else DedupBy(Filter(s, p), key)
    ensures KeysOf(Filter(s + [x], p), key)
         == KeysOf(Filter(s, p), key) + (if p(x) then {key(x)} else {})
  {
    assert Init(s + [x]) == s && Last(s + [x]) == x;
    var f := Filter(s, p);
    if p(x) {
      DedupByAppend(f, x, key);
    } else {
      assert f + [] == f;
    }
  }

  /** The output has exactly the input's keys. */
  lemma {:induction false} DedupByKeys<T, K>(s: seq<T>, key: T -> K)
    ensures KeysOf(DedupBy(s, key), key) == KeysOf(s, key)
    decreases |s|
  {
    if s != [] {
      DedupByKeys(Init(s), key);
      var d := DedupBy(Init(s), key);
      if key(Last(s)) !in KeysOf(Init(s), key) {
        assert Init(d + [Last(s)]) == d;
      }
    }
  }

  /** No two output elements share a key. */
  lemma {:induction false} DedupByDistinctKeys<T, K>(s: seq<T>, key: T -> K)
    ensures forall i, j :: 0 <= i < j < |DedupBy(s, key)| ==> key(DedupBy(s, key)[i]) != key(DedupBy(s, key)[j])
    decreases |s|
  {
    if s != [] {
      DedupByDistinctKeys(Init(s), key);
      DedupByKeys(Init(s), key);
    }
  }

  /** The output keeps input order. */
  lemma {:induction false} DedupBySubseq<T, K>(s: seq<T>, key: T -> K)
    ensures Subseq(DedupBy(s, key), s)
    decreases |s|
  {
    if s != [] {
      DedupBySubseq(Init(s), key);
      assert Init(s) + [Last(s)] == s;
      if key(Last(s)) in KeysOf(Init(s), key) {
        SubseqSkip(DedupBy(Init(s), key), Init(s), Last(s));
      } else {
        SubseqKeep(DedupBy(Init(s), key), Init(s), Last(s));
      }
    }
  }

  /** An element is kept iff it stands at the first occurrence of its key. */
  lemma {:induction false} DedupByFirst<T, K>(s: seq<T>, key: T -> K, i: nat)
    requires i < |s|
    requires key(s[i]) !in KeysOf(s[..i], key)
    ensures s[i] in DedupBy(s, key)
    decreases |s|
  {
    if i == |s| - 1 {
      assert s[..i] == Init(s);
    } else {
      assert Init(s)[..i] == s[..i];
      DedupByFirst(Init(s), key, i);
    }
  }

  lemma {:induction false} DedupByOnlyFirst<T, K>(s: seq<T>, key: T -> K, x: T)
    requires x in DedupBy(s, key)
    ensures exists i :: 0 <= i < |s| && s[i] == x && key(x) !in KeysOf(s[..i], key)
    decreases |s|
  {
    var d := DedupBy(Init(s), key);
    if x in d {
      DedupByOnlyFirst(Init(s), key, x);
      var i :| 0 <= i < |Init(s)| && Init(s)[i] == x && key(x) !in KeysOf(Init(s)[..i], key);
      assert Init(s)[..i] == s[..i];
    } else {
      assert x == Last(s) && key(x) !in KeysOf(Init(s), key);
      assert s[..|s| - 1] == Init(s);
    }
  }

  /** `[...new Set(s)]`: distinct elements in first-seen order. */
  function Unique<T(==)>(s: seq<T>): seq<T>
  {
    DedupBy(s, x => x)
  }

  lemma UniqueProperties<T>(s: seq<T>)
    ensures Distinct(Unique(s))
    ensures forall x :: x in Unique(s) <==> x in s
    ensures Subseq(Unique(s), s)
  {
    var id := (x: T) => x;
    DedupByDistinctKeys(s, id);
    DedupByKeys(s, id);
    DedupBySubseq(s, id);
    var u := Unique(s);
    forall x ensures x in u <==> x in s {
      if x in u {
        assert id(x) in KeysOf(u, id);
      }
      if x in s {
        assert id(x) in KeysOf(s, id);
        var k :| 0 <= k < |u| && id(u[k]) == x;
      }
    }
  }

  /** Appending one element to the input appends it to the output unless
      it was seen before. */
  lemma UniqueSnoc<T>(s: seq<T>, x: T)
    ensures Unique(s + [x]) == if x in s then Unique(s) else Unique(s) + [x]
  {
    var id := (y: T) => y;
    assert Init(s + [x]) == s && Last(s + [x]) == x;
    if x in s {
      var i :| 0 <= i < |s| && s[i] == x;
      assert id(s[i]) in KeysOf(s, id);
    }
  }

  /** A distinct sequence is its own `Unique`. */
  lemma {:induction false} UniqueOfDistinct<T>(s: seq<T>)
    requires Distinct(s)
    ensures Unique(s) == s
    decreases |s|
  {
    if s != [] {
      UniqueOfDistinct(Init(s));
      var id := (x: T) => x;
      assert id(Last(s)) !in KeysOf(Init(s), id);
      assert Init(s) + [Last(s)] == s;
    }
  }

  /** Loop form of `[...new Set(s)]`: insert into a set, spread in
      insertion order. */
  method SpreadSet<T(==)>(s: seq<T>) returns (u: seq<T>)
    ensures u == Unique(s)
  {
    u := [];
    var seen: set<T> := {};
    for i := 0 to |s|
      invariant u == Unique(s[..i])
      invariant seen == KeysOf(s[..i], x => x)
    {
      DedupBySnoc(s, i, x => x);
      if s[i] !in seen {
        seen := seen + {s[i]};
        u := u + [s[i]];
      }
    }
    assert s[..|s|] == s;
  }

  // ---------------------------------------------------------------------
  // Fixed-size pieces

  /** `s` cut into consecutive pieces of `n` elements (the last may be shorter). */
  function Chunks<T>(s: seq<T>, n: nat): seq<seq<T>>
    requires n > 0
    decreases |s|
  {
    if s == [] then [] else if |s| <= n then [s] else [s[..n]] + Chunks(s[n..], n)
  }

  /** The pieces put back together give the input; every piece is non-empty
      and at most `n` long; all but the last are exactly `n` long. */
  lemma {:induction false} ChunksProperties<T>(s: seq<T>, n: nat)
    requires n > 0
    ensures Flatten(Chunks(s, n)) == s
    ensures forall k :: 0 <= k < |Chunks(s, n)| ==> 0 < |Chunks(s, n)[k]| <= n
    ensures forall k :: 0 <= k < |Chunks(s, n)| - 1 ==> |Chunks(s, n)[k]| == n
    decreases |s|
  {
    if s == [] {
    } else if |s| <= n {
      assert Flatten([s]) == Flatten([]) + s;
    } else {
      ChunksProperties(s[n..], n);
      FlattenCons(s[..n], Chunks(s[n..], n));
      assert s[..n] + s[n..] == s;
    }
  }

  /** Every element of a piece is an element of the input. */
  lemma {:induction false} ChunksMember<T>(s: seq<T>, n: nat, k: nat, j: nat)
    requires n > 0 && k < |Chunks(s, n)| && j < |Chunks(s, n)[k]|
    ensures Chunks(s, n)[k][j] in s
    decreases |s|
  {
    if |s| > n {
      if k == 0 {
        assert Chunks(s, n)[0] == s[..n];
        assert s[..n][j] == s[j];
      } else {
        assert Chunks(s, n)[k] == Chunks(s[n..], n)[k - 1];
        ChunksMember(s[n..], n, k - 1, j);
        var x := Chunks(s[n..], n)[k - 1][j];
        var i :| 0 <= i < |s[n..]| && s[n..][i] == x;
        assert s[n + i] == x;
      }
    }
  }

  /** The loop `for (i = 0; i < s.length; i += n) out.push(s.slice(i, i + n))`.
      `i` may step past the end; `slice` stops at the end. */
  method ChunkLoop<T>(s: seq<T>, n: nat) returns (out: seq<seq<T>>)
    requires n > 0
    ensures out == Chunks(s, n)
  {
    out := [];
    var i := 0;
    while i < |s|
      invariant out + Chunks(s[Min(i, |s|)..], n) == Chunks(s, n)
      decreases |s| - i
    {
      var piece := s[i..Min(i + n, |s|)];
      ChunksStep(s, i, n);
      out := out + [piece];
      i := i + n;
    }
    assert s[Min(i, |s|)..] == [];
  }

  lemma ChunksStep<T>(s: seq<T>, i: nat, n: nat)
    requires n > 0 && i < |s|
    ensures Chunks(s[i..], n) == [s[i..Min(i + n, |s|)]] + Chunks(s[Min(i + n, |s|)..], n)
  {
    if |s| - i <= n {
      assert s[i..Min(i + n, |s|)] == s[i..];
      assert s[Min(i + n, |s|)..] == [];
    } else {
      assert s[i..][..n] == s[i..i + n];
      assert s[i..][n..] == s[i + n..];
    }
  }
}
