/** The token co-occurrence graph and the seed weights of the liked-video
    ranking (`buildGraph` and `buildSeedFreq` in src/ppr.js). Each row of the
    `tokens` table holds the artists and keywords extracted from one video;
    the rows are given as input instead of being read from the database. */
module PprGraph {
  import opened Seqs

  /** One `tokens` row with its `artists_json` / `keywords_json` arrays
      already parsed. */
  datatype TokenRow = TokenRow(sourceId: string, artists: seq<string>, keywords: seq<string>)

  /** `[...artists, ...keywords]`. */
  function RowTokens(r: TokenRow): seq<string>
  {
    r.artists + r.keywords
  }

  /** The token lists of all rows, one after the other. */
  function AllTokens(rows: seq<TokenRow>): seq<string>
  {
    if rows == [] then [] else AllTokens(Init(rows)) + RowTokens(Last(rows))
  }

  lemma AllTokensSnoc(rows: seq<TokenRow>, k: nat)
    requires k < |rows|
    ensures AllTokens(rows[..k + 1]) == AllTokens(rows[..k]) + RowTokens(rows[k])
  {
    assert Init(rows[..k + 1]) == rows[..k];
  }

  /** Every token of a row is among all tokens. */
  lemma {:induction false} AllTokensHas(rows: seq<TokenRow>, k: nat, t: string)
    requires k < |rows| && t in RowTokens(rows[k])
    ensures t in AllTokens(rows)
    decreases |rows|
  {
    if k < |rows| - 1 {
      AllTokensHas(Init(rows), k, t);
    }
  }

  /** The number of rows whose token list holds both `x` and `y`, for two
      different tokens; 0 for a token paired with itself. */
  function CoCount(rows: seq<TokenRow>, x: string, y: string): nat
  {
    if rows == [] then 0
    else CoCount(Init(rows), x, y)
         + (if x != y && x in RowTokens(Last(rows)) && y in RowTokens(Last(rows)) then 1 else 0)
  }

  // ---------------------------------------------------------------------
  // Vertex numbering

  /** The first position of `t` in `s`. */
  function FirstPos(s: seq<string>, t: string): (i: nat)
    requires t in s
    ensures i < |s| && s[i] == t && t !in s[..i]
  {
    if s[0] == t then 0
    else
      var k := FirstPos(s[1..], t);
      assert s[..k + 1] == [s[0]] + s[1..][..k];
      k + 1
  }

  /** `new Map(tokens.map((t, i) => [t, i]))`. */
  function IndexMap(tokens: seq<string>): (index: map<string, nat>)
    ensures index.Keys == set t | t in tokens
  {
    map t | t in tokens :: FirstPos(tokens, t)
  }

  /** For distinct tokens, `index` and `tokens` are inverse to each other. */
  lemma IndexMapInverse(tokens: seq<string>)
    requires Distinct(tokens)
    ensures forall a :: 0 <= a < |tokens| ==> IndexMap(tokens)[tokens[a]] == a
    ensures forall t :: t in tokens ==> IndexMap(tokens)[t] < |tokens| && tokens[IndexMap(tokens)[t]] == t
  {
    forall a | 0 <= a < |tokens| ensures IndexMap(tokens)[tokens[a]] == a {
      var i := FirstPos(tokens, tokens[a]);
      assert tokens[i] == tokens[a];
    }
  }

  lemma IndexEq(tokens: seq<string>, a: nat, t: string)
    requires Distinct(tokens) && a < |tokens| && t in tokens
    ensures IndexMap(tokens)[t] == a <==> tokens[a] == t
  {
    IndexMapInverse(tokens);
  }

  // ---------------------------------------------------------------------
  // The graph

  /** `{ tokens, index, adj }`: vertices in first-seen order, their numbers,
      and for each vertex a map from neighbour number to edge weight. */
  datatype Graph = Graph(tokens: seq<string>, index: map<string, nat>, adj: seq<map<nat, nat>>)

  /** `adj[a].get(b) || 0`. */
  function Weight(m: map<nat, nat>, b: nat): nat
  {
    if b in m then m[b] else 0
  }

  /** The neighbours of vertex `a`, each with the number of rows shared. */
  function CoRow(rows: seq<TokenRow>, toks: seq<string>, a: nat): (m: map<nat, nat>)
    requires a < |toks|
    ensures forall b :: b in m ==> b < |toks| && m[b] > 0
    ensures forall b :: 0 <= b < |toks| ==> Weight(m, b) == CoCount(rows, toks[a], toks[b])
  {
    map b | 0 <= b < |toks| && CoCount(rows, toks[a], toks[b]) > 0 :: CoCount(rows, toks[a], toks[b])
  }

  /** The graph `buildGraph` builds from the rows. */
  function CoGraph(rows: seq<TokenRow>): Graph
  {
    var toks := Unique(AllTokens(rows));
    Graph(toks, IndexMap(toks), seq(|toks|, a requires 0 <= a < |toks| => CoRow(rows, toks, a)))
  }

  /** Well-formed graph: one adjacency map per vertex, neighbours are vertex
      numbers, and `index` numbers the distinct tokens. */
  ghost predicate ValidGraph(g: Graph)
  {
    |g.adj| == |g.tokens| && Distinct(g.tokens)
    && g.index == IndexMap(g.tokens)
    && forall a, b :: 0 <= a < |g.adj| && b in g.adj[a] ==> b < |g.tokens|
  }

  /** The vertices are exactly the distinct tokens of all rows, in first-seen
      order, and `index` gives each token its position. */
  lemma CoGraphVertices(rows: seq<TokenRow>)
    ensures Distinct(CoGraph(rows).tokens)
    ensures forall t :: t in CoGraph(rows).tokens <==> t in AllTokens(rows)
    ensures Subseq(CoGraph(rows).tokens, AllTokens(rows))
    ensures forall a :: 0 <= a < |CoGraph(rows).tokens| ==> CoGraph(rows).index[CoGraph(rows).tokens[a]] == a
    ensures ValidGraph(CoGraph(rows))
  {
    UniqueProperties(AllTokens(rows));
    IndexMapInverse(CoGraph(rows).tokens);
  }

  lemma {:induction false} CoCountSymmetric(rows: seq<TokenRow>, x: string, y: string)
    ensures CoCount(rows, x, y) == CoCount(rows, y, x)
  {
    if rows != [] {
      CoCountSymmetric(Init(rows), x, y);
    }
  }

  lemma {:induction false} CoCountSelf(rows: seq<TokenRow>, x: string)
    ensures CoCount(rows, x, x) == 0
  {
    if rows != [] {
      CoCountSelf(Init(rows), x);
    }
  }

  /** The adjacency is symmetric, has no self-loops, and the weight of an
      edge is the number of rows that hold both of its tokens. */
  lemma CoGraphEdges(rows: seq<TokenRow>)
    ensures var g := CoGraph(rows);
            forall a, b :: 0 <= a < |g.tokens| && 0 <= b < |g.tokens| ==>
              Weight(g.adj[a], b) == Weight(g.adj[b], a)
              && Weight(g.adj[a], b) == CoCount(rows, g.tokens[a], g.tokens[b])
              && (a == b ==> b !in g.adj[a])
  {
    var g := CoGraph(rows);
    forall a, b | 0 <= a < |g.tokens| && 0 <= b < |g.tokens|
      ensures Weight(g.adj[a], b) == Weight(g.adj[b], a)
      ensures Weight(g.adj[a], b) == CoCount(rows, g.tokens[a], g.tokens[b])
      ensures a == b ==> b !in g.adj[a]
    {
      assert g.adj[a] == CoRow(rows, g.tokens, a) && g.adj[b] == CoRow(rows, g.tokens, b);
      CoCountSymmetric(rows, g.tokens[a], g.tokens[b]);
      CoCountSelf(rows, g.tokens[a]);
    }
  }

  // ---------------------------------------------------------------------
  // Counting the pairs of one deduplicated row

  /** Adds one to the weight of `x -> y` and of `y -> x`. */
  function Bump(adj: seq<map<nat, nat>>, x: nat, y: nat): (r: seq<map<nat, nat>>)
    requires x < |adj| && y < |adj|
    ensures |r| == |adj|
  {
    var m1: map<nat, nat> := adj[x][y := Weight(adj[x], y) + 1];
    var adj1 := adj[x := m1];
    var m2: map<nat, nat> := adj1[y][x := Weight(adj1[y], x) + 1];
    adj1[y := m2]
  }

  /** `Bump` as two map updates, the first of which the second reads. */
  lemma BumpUpdates(adj: seq<map<nat, nat>>, x: nat, y: nat, m1: map<nat, nat>, m2: map<nat, nat>)
    requires x < |adj| && y < |adj|
    requires m1 == adj[x][y := Weight(adj[x], y) + 1]
    requires m2 == adj[x := m1][y][x := Weight(adj[x := m1][y], x) + 1]
    ensures adj[x := m1][y := m2] == Bump(adj, x, y)
  {
  }

  lemma BumpWeight(adj: seq<map<nat, nat>>, x: nat, y: nat, a: nat, b: nat)
    requires x < |adj| && y < |adj| && a < |adj|
    ensures Weight(Bump(adj, x, y)[a], b)
         == Weight(adj[a], b) + (if a == x && b == y then 1 else 0) + (if a == y && b == x then 1 else 0)
    ensures forall k :: k in Bump(adj, x, y)[a] ==> k in adj[a] || (a == x && k == y) || (a == y && k == x)
  {
  }

  /** Matches of the pair `(x, y)`, in either orientation, among the pairs
      `(u[i], u[q])` with `i < q < j`. */
  function Hits(u: seq<string>, i: nat, j: nat, x: string, y: string): nat
    requires i < j <= |u|
  {
    if j == i + 1 then 0
    else Hits(u, i, j - 1, x, y)
         + (if u[i] == x && u[j - 1] == y then 1 else 0)
         + (if u[i] == y && u[j - 1] == x then 1 else 0)
  }

  /** Matches among all pairs `(u[p], u[q])` with `p < i` and `p < q`. */
  function PairsBefore(u: seq<string>, i: nat, x: string, y: string): nat
    requires i <= |u|
  {
    if i == 0 then 0 else PairsBefore(u, i - 1, x, y) + Hits(u, i - 1, |u|, x, y)
  }

  lemma {:induction false} HitsCount(u: seq<string>, i: nat, j: nat, x: string, y: string)
    requires i < j <= |u|
    ensures Hits(u, i, j, x, y)
         == (if u[i] == x then Count(u[i + 1..j], y) else 0) + (if u[i] == y then Count(u[i + 1..j], x) else 0)
    decreases j
  {
    if j > i + 1 {
      HitsCount(u, i, j - 1, x, y);
      assert Init(u[i + 1..j]) == u[i + 1..j - 1];
    }
  }

  lemma {:induction false} CountDistinct(s: seq<string>, x: string)
    requires Distinct(s)
    ensures Count(s, x) == if x in s then 1 else 0
  {
    if s != [] {
      CountDistinct(Init(s), x);
      assert x in s <==> x in Init(s) || x == Last(s);
      if x == Last(s) {
        assert x !in Init(s);
      }
    }
  }

  /** Splitting a sequence without repeats at position `p`. */
  lemma SplitDistinct(u: seq<string>, p: nat)
    requires Distinct(u) && p < |u|
    ensures Distinct(u[p + 1..])
    ensures u[p] !in u[..p] && u[p] !in u[p + 1..]
    ensures forall z :: z in u[..p] ==> z !in u[p + 1..]
    ensures forall z :: z in u[..p + 1] <==> z in u[..p] || z == u[p]
    ensures forall z :: z in u <==> z in u[..p] || z == u[p] || z in u[p + 1..]
  {
    var rest := u[p + 1..];
    forall a, b | 0 <= a < b < |rest| ensures rest[a] != rest[b] {
      assert rest[a] == u[p + 1 + a] && rest[b] == u[p + 1 + b];
    }
    forall a, b | 0 <= a < p && 0 <= b < |rest| ensures u[a] != rest[b] {
      assert rest[b] == u[p + 1 + b];
    }
    forall b | 0 <= b < |rest| ensures u[p] != rest[b] {
      assert rest[b] == u[p + 1 + b];
    }
    assert u[..p + 1] == u[..p] + [u[p]];
    assert u == u[..p] + [u[p]] + rest;
  }

  /** In a row without repeats, a pair of different tokens is counted once
      both have been reached, and a token is never paired with itself. */
  lemma {:induction false} PairsBeforeValue(u: seq<string>, i: nat, x: string, y: string)
    requires Distinct(u) && i <= |u|
    ensures PairsBefore(u, i, x, y)
         == if x != y && x in u && y in u && (x in u[..i] || y in u[..i]) then 1 else 0
  {
    if i > 0 {
      var p := i - 1;
      PairsBeforeValue(u, p, x, y);
      HitsCount(u, p, |u|, x, y);
      SplitDistinct(u, p);
      var rest := u[p + 1..];
      assert u[p + 1..|u|] == rest;
      CountDistinct(rest, x);
      CountDistinct(rest, y);
      if u[p] == x && x == y {
      } else if u[p] == x {
        if y in u[..p] {
          assert y !in rest;
        }
      } else if u[p] == y {
        if x in u[..p] {
          assert x !in rest;
        }
      }
    }
  }

  /** Row `a` has only vertex numbers as keys, each with a positive weight. */
  ghost predicate KeysOk(m: map<nat, nat>, n: nat)
  {
    forall b :: b in m ==> b < n && m[b] > 0
  }

  lemma BumpKeys(adj: seq<map<nat, nat>>, x: nat, y: nat, a: nat, n: nat)
    requires x < |adj| && y < |adj| && a < |adj| && x < n && y < n && KeysOk(adj[a], n)
    ensures KeysOk(Bump(adj, x, y)[a], n)
  {
    forall b | b in Bump(adj, x, y)[a] ensures b < n && Bump(adj, x, y)[a][b] > 0 {
      BumpWeight(adj, x, y, a, b);
    }
  }

  /** Every token of `u` has a number below `n`. */
  ghost predicate Numbered(index: map<string, nat>, u: seq<string>, n: nat)
  {
    forall t :: t in u ==> t in index && index[t] < n
  }

  lemma NumberedOf(toks: seq<string>, u: seq<string>)
    requires forall t :: t in u ==> t in toks
    ensures Numbered(IndexMap(toks), u, |toks|)
  {
  }

  /** The adjacency after the inner loop has done the pairs `(u[i], u[q])`
      with `i < q < j`. */
  ghost function InnerAdj(adj: seq<map<nat, nat>>, index: map<string, nat>, u: seq<string>, i: nat, j: nat): (r: seq<map<nat, nat>>)
    requires i < j <= |u| && Numbered(index, u, |adj|)
    ensures |r| == |adj|
    decreases j
  {
    if j == i + 1 then adj else Bump(InnerAdj(adj, index, u, i, j - 1), index[u[i]], index[u[j - 1]])
  }

  /** The adjacency after the outer loop has done its first `i` rounds. */
  ghost function OuterAdj(adj: seq<map<nat, nat>>, index: map<string, nat>, u: seq<string>, i: nat): (r: seq<map<nat, nat>>)
    requires i <= |u| && Numbered(index, u, |adj|)
    ensures |r| == |adj|
  {
    if i == 0 then adj else InnerAdj(OuterAdj(adj, index, u, i - 1), index, u, i - 1, |u|)
  }

  /** The adjacency after all the rows, starting from empty maps. */
  ghost function RowsAdj(toks: seq<string>, rows: seq<TokenRow>): (r: seq<map<nat, nat>>)
    requires forall t :: t in AllTokens(rows) ==> t in toks
    ensures |r| == |toks|
  {
    if rows == [] then seq(|toks|, _ => map[])
    else
      var u := Unique(RowTokens(Last(rows)));
      UniqueProperties(RowTokens(Last(rows)));
      OuterAdj(RowsAdj(toks, Init(rows)), IndexMap(toks), u, |u|)
  }

  /** `index` numbers the tokens of `u` by their positions in `toks`. */
  ghost predicate NumbersOf(index: map<string, nat>, toks: seq<string>, u: seq<string>)
  {
    forall t :: t in u ==> t in index && index[t] < |toks| && toks[index[t]] == t
  }

  lemma {:induction false} InnerWeight(adj: seq<map<nat, nat>>, index: map<string, nat>, toks: seq<string>,
                                         u: seq<string>, i: nat, j: nat, a: nat, b: nat)
    requires Distinct(toks) && |adj| == |toks| && i < j <= |u| && a < |toks| && b < |toks|
    requires NumbersOf(index, toks, u) && Numbered(index, u, |adj|)
    ensures Weight(InnerAdj(adj, index, u, i, j)[a], b) == Weight(adj[a], b) + Hits(u, i, j, toks[a], toks[b])
    decreases j
  {
    if j > i + 1 {
      InnerWeight(adj, index, toks, u, i, j - 1, a, b);
      var prev := InnerAdj(adj, index, u, i, j - 1);
      var x, y := index[u[i]], index[u[j - 1]];
      assert u[i] in u && u[j - 1] in u;
      assert (x == a) == (toks[a] == u[i]) && (x == b) == (toks[b] == u[i]);
      assert (y == a) == (toks[a] == u[j - 1]) && (y == b) == (toks[b] == u[j - 1]);
      var d := (if u[i] == toks[a] && u[j - 1] == toks[b] then 1 else 0)
             + (if u[i] == toks[b] && u[j - 1] == toks[a] then 1 else 0);
      BumpStepWeight(prev, x, y, a, b, d);
    }
  }

  /** Bumping `(x, y)` adds `d` to the weight of `(a, b)`. */
  lemma BumpStepWeight(prev: seq<map<nat, nat>>, x: nat, y: nat, a: nat, b: nat, d: nat)
    requires x < |prev| && y < |prev| && a < |prev|
    requires d == (if a == x && b == y then 1 else 0) + (if a == y && b == x then 1 else 0)
    ensures Weight(Bump(prev, x, y)[a], b) == Weight(prev[a], b) + d
  {
    BumpWeight(prev, x, y, a, b);
  }

  lemma {:induction false} InnerKeys(adj: seq<map<nat, nat>>, index: map<string, nat>, u: seq<string>,
                                     i: nat, j: nat, a: nat)
    requires i < j <= |u| && a < |adj| && Numbered(index, u, |adj|) && KeysOk(adj[a], |adj|)
    ensures KeysOk(InnerAdj(adj, index, u, i, j)[a], |adj|)
    decreases j
  {
    if j > i + 1 {
      InnerKeys(adj, index, u, i, j - 1, a);
      BumpKeys(InnerAdj(adj, index, u, i, j - 1), index[u[i]], index[u[j - 1]], a, |adj|);
    }
  }

  lemma OuterWeight(adj: seq<map<nat, nat>>, toks: seq<string>, u: seq<string>, i: nat, a: nat, b: nat)
    requires Distinct(toks) && |adj| == |toks| && i <= |u| && a < |toks| && b < |toks|
    requires (forall t :: t in u ==> t in toks) && Numbered(IndexMap(toks), u, |adj|)
    ensures Weight(OuterAdj(adj, IndexMap(toks), u, i)[a], b) == Weight(adj[a], b) + PairsBefore(u, i, toks[a], toks[b])
  {
    IndexMapInverse(toks);
    OuterWeightAt(adj, IndexMap(toks), toks, u, i, a, b);
  }

  lemma {:induction false} OuterWeightAt(adj: seq<map<nat, nat>>, index: map<string, nat>, toks: seq<string>,
                                         u: seq<string>, i: nat, a: nat, b: nat)
    requires Distinct(toks) && |adj| == |toks| && i <= |u| && a < |toks| && b < |toks|
    requires NumbersOf(index, toks, u) && Numbered(index, u, |adj|)
    ensures Weight(OuterAdj(adj, index, u, i)[a], b) == Weight(adj[a], b) + PairsBefore(u, i, toks[a], toks[b])
  {
    if i > 0 {
      OuterWeightAt(adj, index, toks, u, i - 1, a, b);
      OuterStep(adj, index, toks, u, i, a, b);
    }
  }

  /** One outer round adds the hits of the pairs it does. */
  lemma OuterStep(adj: seq<map<nat, nat>>, index: map<string, nat>, toks: seq<string>, u: seq<string>,
                  i: nat, a: nat, b: nat)
    requires Distinct(toks) && |adj| == |toks| && 0 < i <= |u| && a < |toks| && b < |toks|
    requires NumbersOf(index, toks, u) && Numbered(index, u, |adj|)
    ensures Weight(OuterAdj(adj, index, u, i)[a], b)
         == Weight(OuterAdj(adj, index, u, i - 1)[a], b) + Hits(u, i - 1, |u|, toks[a], toks[b])
  {
    InnerWeight(OuterAdj(adj, index, u, i - 1), index, toks, u, i - 1, |u|, a, b);
  }

  lemma {:induction false} OuterKeys(adj: seq<map<nat, nat>>, index: map<string, nat>, u: seq<string>, i: nat, a: nat)
    requires i <= |u| && a < |adj| && Numbered(index, u, |adj|) && KeysOk(adj[a], |adj|)
    ensures KeysOk(OuterAdj(adj, index, u, i)[a], |adj|)
  {
    if i > 0 {
      OuterKeys(adj, index, u, i - 1, a);
      InnerKeys(OuterAdj(adj, index, u, i - 1), index, u, i - 1, |u|, a);
    }
  }

  /** After all rows, the weight of `(a, b)` is the number of rows holding
      both tokens. */
  lemma {:induction false} RowsWeight(toks: seq<string>, rows: seq<TokenRow>, a: nat, b: nat)
    requires Distinct(toks) && (forall t :: t in AllTokens(rows) ==> t in toks) && a < |toks| && b < |toks|
    ensures Weight(RowsAdj(toks, rows)[a], b) == CoCount(rows, toks[a], toks[b])
  {
    if rows != [] {
      var row := RowTokens(Last(rows));
      var u := Unique(row);
      UniqueProperties(row);
      RowsWeight(toks, Init(rows), a, b);
      OuterWeight(RowsAdj(toks, Init(rows)), toks, u, |u|, a, b);
      PairsBeforeValue(u, |u|, toks[a], toks[b]);
      assert u[..|u|] == u;
    }
  }

  /** Only vertices with a positive weight are keys. */
  lemma {:induction false} RowsKeys(toks: seq<string>, rows: seq<TokenRow>, a: nat)
    requires (forall t :: t in AllTokens(rows) ==> t in toks) && a < |toks|
    ensures KeysOk(RowsAdj(toks, rows)[a], |toks|)
  {
    if rows != [] {
      var u := Unique(RowTokens(Last(rows)));
      UniqueProperties(RowTokens(Last(rows)));
      RowsKeys(toks, Init(rows), a);
      OuterKeys(RowsAdj(toks, Init(rows)), IndexMap(toks), u, |u|, a);
    }
  }

  /** The adjacency built from the vertices of the rows is that of `CoGraph`. */
  lemma RowsAdjIsCoGraph(rows: seq<TokenRow>)
    requires forall t :: t in AllTokens(rows) ==> t in Unique(AllTokens(rows))
    requires Distinct(Unique(AllTokens(rows)))
    ensures RowsAdj(Unique(AllTokens(rows)), rows) == CoGraph(rows).adj
  {
    var toks := Unique(AllTokens(rows));
    var got := RowsAdj(toks, rows);
    var want := CoGraph(rows).adj;
    forall a | 0 <= a < |toks| ensures got[a] == want[a] {
      RowsKeys(toks, rows, a);
      var m := CoRow(rows, toks, a);
      assert want[a] == m;
      forall b ensures b in got[a] <==> b in m {
        if b in got[a] {
          RowsWeight(toks, rows, a, b);
          assert Weight(got[a], b) > 0;
        }
        if b in m {
          RowsWeight(toks, rows, a, b);
        }
      }
      forall b | b in got[a] ensures got[a][b] == m[b] {
        RowsWeight(toks, rows, a, b);
      }
    }
  }

  lemma {:induction false} AllTokensPrefix(rows: seq<TokenRow>, k: nat, t: string)
    requires k <= |rows| && t in AllTokens(rows[..k])
    ensures t in AllTokens(rows)
    decreases |rows|
  {
    if k < |rows| {
      assert Init(rows)[..k] == rows[..k];
      AllTokensPrefix(Init(rows), k, t);
    } else {
      assert rows[..k] == rows;
    }
  }

  /** `adj[a].set(b, (adj[a].get(b) || 0) + 1)` followed by the same for
      `adj[b]` and `a`. */
  method BumpPair(adj: array<map<nat, nat>>, a: nat, b: nat)
    requires a < adj.Length && b < adj.Length
    modifies adj
    ensures adj[..] == Bump(old(adj[..]), a, b)
  {
    ghost var pre := adj[..];
    var wab: nat := Weight(adj[a], b) + 1;
    var m1: map<nat, nat> := adj[a][b := wab];
    adj[a] := m1;
    assert adj[..] == pre[a := m1];
    var wba: nat := Weight(adj[b], a) + 1;
    var m2: map<nat, nat> := adj[b][a := wba];
    adj[b] := m2;
    BumpUpdates(pre, a, b, m1, m2);
  }

  /** The vertex collection of `buildGraph`: every token of every row goes
      into a `Set`, whose insertion order gives the vertex list. */
  method CollectTokens(rows: seq<TokenRow>) returns (tokens: seq<string>)
    ensures tokens == Unique(AllTokens(rows))
  {
    tokens := [];
    var tokSet: set<string> := {};
    for k := 0 to |rows|
      invariant tokens == Unique(AllTokens(rows[..k]))
      invariant forall x :: x in tokSet <==> x in AllTokens(rows[..k])
    {
      tokens, tokSet := AddTokens(tokens, tokSet, AllTokens(rows[..k]), RowTokens(rows[k]));
      AllTokensSnoc(rows, k);
    }
    assert rows[..|rows|] == rows;
  }

  /** The inner loop of the vertex collection: the tokens of one row go
      into the `Set`. */
  method AddTokens(tokens: seq<string>, tokSet: set<string>, ghost before: seq<string>, toks: seq<string>)
    returns (tokens': seq<string>, tokSet': set<string>)
    requires tokens == Unique(before)
    requires forall x :: x in tokSet <==> x in before
    ensures tokens' == Unique(before + toks)
    ensures forall x :: x in tokSet' <==> x in before + toks
  {
    tokens', tokSet' := tokens, tokSet;
    assert before + toks[..0] == before;
    for t := 0 to |toks|
      invariant tokens' == Unique(before + toks[..t])
      invariant forall x :: x in tokSet' <==> x in before + toks[..t]
    {
      ghost var done := before + toks[..t];
      assert before + toks[..t + 1] == done + [toks[t]];
      UniqueSnoc(done, toks[t]);
      if toks[t] !in tokSet' {
        tokSet' := tokSet' + {toks[t]};
        tokens' := tokens' + [toks[t]];
      }
    }
    assert toks[..|toks|] == toks;
  }

  /** The pair loops of `buildGraph` for one row, whose deduplicated tokens
      are `u`: `(u[i], u[j])` for every `i < j`. */
  method AddRowPairs(adj: array<map<nat, nat>>, index: map<string, nat>, u: seq<string>)
    requires Numbered(index, u, adj.Length)
    modifies adj
    ensures adj[..] == OuterAdj(old(adj[..]), index, u, |u|)
  {
    ghost var base := adj[..];
    for i := 0 to |u|
      invariant adj[..] == OuterAdj(base, index, u, i)
    {
      for j := i + 1 to |u|
        invariant adj[..] == InnerAdj(OuterAdj(base, index, u, i), index, u, i, j)
      {
        BumpPair(adj, index[u[i]], index[u[j]]);
      }
    }
  }

  /** `buildGraph`: collects the vertices in first-seen order, numbers them,
      and adds one to both directions of every pair of different tokens of
      every row. */
  method BuildGraph(rows: seq<TokenRow>) returns (g: Graph)
    ensures g == CoGraph(rows)
  {
    var tokens := CollectTokens(rows);
    UniqueProperties(AllTokens(rows));
    var index := IndexMap(tokens);
    var n := |tokens|;
    var adj := new map<nat, nat>[n](_ => map[]);
    forall k | 0 <= k <= |rows| ensures forall t :: t in AllTokens(rows[..k]) ==> t in tokens {
      forall t | t in AllTokens(rows[..k]) ensures t in tokens {
        AllTokensPrefix(rows, k, t);
      }
    }
    for k := 0 to |rows|
      invariant adj.Length == n
      invariant adj[..] == RowsAdj(tokens, rows[..k])
    {
      var u := SpreadSet(rows[k].artists + rows[k].keywords);
      UniqueProperties(RowTokens(rows[k]));
      forall t | t in u ensures t in tokens {
        AllTokensHas(rows, k, t);
      }
      NumberedOf(tokens, u);
      AddRowPairs(adj, index, u);
      assert Init(rows[..k + 1]) == rows[..k] && Last(rows[..k + 1]) == rows[k];
    }
    assert rows[..|rows|] == rows;
    RowsAdjIsCoGraph(rows);
    g := Graph(tokens, index, adj[..]);
  }

  // ---------------------------------------------------------------------
  // Seed weights

  /** The weight of each token seen in `s`: its number of occurrences,
      capped at 2. */
  function CappedCounts(s: seq<string>): (freq: map<string, nat>)
    ensures freq.Keys == set t | t in s
  {
    map t | t in s :: Min(Count(s, t), 2)
  }

  /** The map `buildSeedFreq` returns for the rows. */
  function SeedFreq(rows: seq<TokenRow>): map<string, nat>
  {
    CappedCounts(AllTokens(rows))
  }

  /** A token has a weight exactly when it occurs in some row; the weight is
      2 when it occurs at least twice (repeats inside one row count) and 1
      when it occurs once. */
  lemma SeedFreqValues(rows: seq<TokenRow>, t: string)
    ensures t in SeedFreq(rows) <==> t in AllTokens(rows)
    ensures t in SeedFreq(rows) ==> SeedFreq(rows)[t] == (if Count(AllTokens(rows), t) >= 2 then 2 else 1)
  {
    CountPositive(AllTokens(rows), t);
  }

  /** One more token: `freq.set(t, prev >= 2 ? 2 : prev + 1)`. */
  lemma CappedCountsSnoc(s: seq<string>, x: string)
    ensures CappedCounts(s + [x])
         == var prev := if x in CappedCounts(s) then CappedCounts(s)[x] else 0;
            CappedCounts(s)[x := if prev >= 2 then 2 else prev + 1]
  {
    assert Init(s + [x]) == s && Last(s + [x]) == x;
    CountPositive(s, x);
    var prev := if x in CappedCounts(s) then CappedCounts(s)[x] else 0;
    var want := CappedCounts(s)[x := if prev >= 2 then 2 else prev + 1];
    forall t | t in s + [x] ensures CappedCounts(s + [x])[t] == want[t] {
      assert Count(s + [x], t) == Count(s, t) + (if x == t then 1 else 0);
    }
  }

  /** `buildSeedFreq`: counts every token of every row, capped at 2. The
      map's insertion order is returned as `keys`. */
  method BuildSeedFreq(rows: seq<TokenRow>) returns (keys: seq<string>, freq: map<string, nat>)
    ensures keys == Unique(AllTokens(rows))
    ensures freq == SeedFreq(rows)
  {
    keys := [];
    freq := map[];
    for k := 0 to |rows|
      invariant keys == Unique(AllTokens(rows[..k]))
      invariant freq == CappedCounts(AllTokens(rows[..k]))
    {
      keys, freq := CountTokens(keys, freq, AllTokens(rows[..k]), RowTokens(rows[k]));
      AllTokensSnoc(rows, k);
    }
    assert rows[..|rows|] == rows;
  }

  /** The inner loop of `buildSeedFreq`: the tokens of one row are counted. */
  method CountTokens(keys: seq<string>, freq: map<string, nat>, ghost before: seq<string>, toks: seq<string>)
    returns (keys': seq<string>, freq': map<string, nat>)
    requires keys == Unique(before) && freq == CappedCounts(before)
    ensures keys' == Unique(before + toks) && freq' == CappedCounts(before + toks)
  {
    keys', freq' := keys, freq;
    assert before + toks[..0] == before;
    for t := 0 to |toks|
      invariant keys' == Unique(before + toks[..t])
      invariant freq' == CappedCounts(before + toks[..t])
    {
      assert before + toks[..t + 1] == (before + toks[..t]) + [toks[t]];
      keys', freq' := CountToken(keys', freq', before + toks[..t], toks[t]);
    }
    assert toks[..|toks|] == toks;
  }

  /** One token counted: a new key is appended, and its count goes up,
      stopping at 2. */
  method CountToken(keys: seq<string>, freq: map<string, nat>, ghost done: seq<string>, x: string)
    returns (keys': seq<string>, freq': map<string, nat>)
    requires keys == Unique(done) && freq == CappedCounts(done)
    ensures keys' == Unique(done + [x]) && freq' == CappedCounts(done + [x])
  {
    UniqueSnoc(done, x);
    CappedCountsSnoc(done, x);
    var prev := if x in freq then freq[x] else 0;
    keys' := keys;
    if x !in freq {
      keys' := keys + [x];
    }
    freq' := freq[x := if prev >= 2 then 2 else prev + 1];
  }
}
