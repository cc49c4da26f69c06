/** `personalizedPageRank` of src/ppr.js over the real numbers: a
    personalisation vector built from seed weights, a uniform start vector,
    and `iters` rounds of `nr = (1 - alpha) * (r * P) + alpha * p`, where `P`
    spreads a vertex's rank over its edges in proportion to their weights. */
module PageRank {
  import opened Seqs
  import opened PprGraph

  function Sum(v: seq<real>): real
  {
    if v == [] then 0.0 else Sum(Init(v)) + Last(v)
  }

  function Zeros(n: nat): (v: seq<real>)
    ensures |v| == n && forall i :: 0 <= i < n ==> v[i] == 0.0
  {
    seq(n, _ => 0.0)
  }

  // ---------------------------------------------------------------------
  // Personalisation

  /** `p` after the seed loop: each entry `(t, w)` whose token is a vertex
      adds `w` at that vertex. */
  function SeedVector(index: map<string, nat>, n: nat, seeds: seq<(string, real)>): (p: seq<real>)
    requires forall t :: t in index ==> index[t] < n
    ensures |p| == n
  {
    if seeds == [] then Zeros(n)
    else
      var p := SeedVector(index, n, Init(seeds));
      var t := Last(seeds).0;
      if t in index then p[index[t] := p[index[t]] + Last(seeds).1] else p
  }

  /** `sum` after the seed loop. */
  function SeedSum(index: map<string, nat>, seeds: seq<(string, real)>): real
  {
    if seeds == [] then 0.0
    else SeedSum(index, Init(seeds)) + (if Last(seeds).0 in index then Last(seeds).1 else 0.0)
  }

  /** The total weight of the entries for token `t`. */
  function WeightOf(seeds: seq<(string, real)>, t: string): real
  {
    if seeds == [] then 0.0
    else WeightOf(Init(seeds), t) + (if Last(seeds).0 == t then Last(seeds).1 else 0.0)
  }

  /** The uniform distribution over `n` vertices. */
  function Uniform(n: nat): (u: seq<real>)
    requires n > 0
    ensures |u| == n && forall i :: 0 <= i < n ==> u[i] == 1.0 / n as real
  {
    seq(n, _ => 1.0 / n as real)
  }

  /** The personalisation vector: the seed weights divided by their sum, or
      uniform when the seeds miss every vertex (or sum to zero). */
  function Personalization(g: Graph, seeds: seq<(string, real)>): (p: seq<real>)
    requires ValidGraph(g) && |g.tokens| > 0
    ensures |p| == |g.tokens|
  {
    IndexMapInverse(g.tokens);
    var n := |g.tokens|;
    var v := SeedVector(g.index, n, seeds);
    var sum := SeedSum(g.index, seeds);
    if sum == 0.0 then Uniform(n)
    else seq(n, i requires 0 <= i < n => v[i] / sum)
  }

  lemma {:induction false} SumSnoc(v: seq<real>, x: real)
    ensures Sum(v + [x]) == Sum(v) + x
  {
    assert Init(v + [x]) == v;
  }

  lemma {:induction false} SumUpdate(v: seq<real>, k: nat, x: real)
    requires k < |v|
    ensures Sum(v[k := x]) == Sum(v) - v[k] + x
  {
    if k < |v| - 1 {
      SumUpdate(Init(v), k, x);
      assert Init(v[k := x]) == Init(v)[k := x];
    } else {
      assert Init(v[k := x]) == Init(v);
    }
  }

  lemma {:induction false} SumZeros(n: nat)
    ensures Sum(Zeros(n)) == 0.0
  {
    if n > 0 {
      SumZeros(n - 1);
      assert Init(Zeros(n)) == Zeros(n - 1);
    }
  }

  /** The seed vector holds the whole seed sum. */
  lemma {:induction false} SeedVectorSum(index: map<string, nat>, n: nat, seeds: seq<(string, real)>)
    requires forall t :: t in index ==> index[t] < n
    ensures Sum(SeedVector(index, n, seeds)) == SeedSum(index, seeds)
  {
    if seeds == [] {
      SumZeros(n);
    } else {
      SeedVectorSum(index, n, Init(seeds));
      var t := Last(seeds).0;
      if t in index {
        var p := SeedVector(index, n, Init(seeds));
        SumUpdate(p, index[t], p[index[t]] + Last(seeds).1);
      }
    }
  }

  /** Each vertex gets the total weight of its token's entries. */
  lemma {:induction false} SeedVectorAt(g: Graph, seeds: seq<(string, real)>, a: nat)
    requires ValidGraph(g) && a < |g.tokens|
    ensures forall t :: t in g.index ==> g.index[t] < |g.tokens|
    ensures SeedVector(g.index, |g.tokens|, seeds)[a] == WeightOf(seeds, g.tokens[a])
  {
    IndexMapInverse(g.tokens);
    if seeds != [] {
      SeedVectorAt(g, Init(seeds), a);
      var t := Last(seeds).0;
      if t in g.index {
        IndexEq(g.tokens, a, t);
      }
    }
  }

  lemma DivAdd(a: real, b: real, c: real)
    requires c != 0.0
    ensures (a + b) / c == a / c + b / c
  {
    assert (a / c + b / c) * c == a + b;
  }

  lemma DivNonNegative(x: real, y: real)
    requires x >= 0.0 && y > 0.0
    ensures x / y >= 0.0
  {
  }

  lemma MulNonNegative(x: real, y: real)
    requires x >= 0.0 && y >= 0.0
    ensures x * y >= 0.0
  {
  }

  lemma {:induction false} SumScaled(v: seq<real>, w: seq<real>, c: real)
    requires c != 0.0 && |w| == |v|
    requires forall i :: 0 <= i < |v| ==> w[i] == v[i] / c
    ensures Sum(w) == Sum(v) / c
  {
    if v != [] {
      SumScaled(Init(v), Init(w), c);
      assert Last(w) == Last(v) / c;
      DivAdd(Sum(Init(v)), Last(v), c);
    }
  }

  lemma {:induction false} SumConst(n: nat, c: real)
    ensures Sum(seq(n, _ => c)) == n as real * c
  {
    if n > 0 {
      SumConst(n - 1, c);
      assert Init(seq(n, _ => c)) == seq(n - 1, _ => c);
    }
  }

  lemma UniformSum(n: nat)
    requires n > 0
    ensures Sum(Uniform(n)) == 1.0
  {
    var c := 1.0 / n as real;
    SumConst(n, c);
    assert Uniform(n) == seq(n, _ => c);
    assert n as real * c == 1.0;
  }

  /** The personalisation vector is a distribution: it sums to 1. */
  lemma PersonalizationSum(g: Graph, seeds: seq<(string, real)>)
    requires ValidGraph(g) && |g.tokens| > 0
    ensures Sum(Personalization(g, seeds)) == 1.0
  {
    IndexMapInverse(g.tokens);
    var n := |g.tokens|;
    var sum := SeedSum(g.index, seeds);
    var p := Personalization(g, seeds);
    if sum == 0.0 {
      assert p == Uniform(n);
      UniformSum(n);
    } else {
      var v := SeedVector(g.index, n, seeds);
      assert forall i :: 0 <= i < n ==> p[i] == v[i] / sum;
      SeedVectorSum(g.index, n, seeds);
      SumScaled(v, p, sum);
      assert Sum(v) / sum == 1.0;
    }
  }

  // ---------------------------------------------------------------------
  // Transition

  /** The total weight of the edges of a vertex. */
  function RowSum(m: map<nat, nat>, n: nat): nat
  {
    if n == 0 then 0 else RowSum(m, n - 1) + Weight(m, n - 1)
  }

  /** `outdeg[i]`: the total edge weight, or 1 for an isolated vertex. */
  function OutDeg(m: map<nat, nat>, n: nat): (d: real)
    ensures d >= 1.0
  {
    var s := RowSum(m, n);
    if s == 0 then 1.0 else s as real
  }

  /** `(1 - alpha) * r[i] * (w / outdeg[i])`: what an edge of weight `w`
      carries from a vertex of rank `ri` and out-degree `d`. */
  function Flow(alpha: real, ri: real, w: nat, d: real): real
    requires d >= 1.0
  {
    (1.0 - alpha) * ri * (w as real / d)
  }

  /** The rank vertex `i` passes on to vertex `j` in one round (nothing
      when there is no edge). */
  function Share(g: Graph, alpha: real, r: seq<real>, i: nat, j: nat): real
    requires ValidGraph(g) && |r| == |g.tokens| && i < |g.tokens|
  {
    Flow(alpha, r[i], Weight(g.adj[i], j), OutDeg(g.adj[i], |g.tokens|))
  }

  lemma FlowZero(alpha: real, ri: real, d: real)
    requires d >= 1.0
    ensures Flow(alpha, ri, 0, d) == 0.0
  {
    assert 0 as real / d == 0.0;
  }

  /** `nr` after the edges of vertex `i` up to (excluding) neighbour `j`
      have been added to `v`. */
  function SpreadRow(g: Graph, alpha: real, r: seq<real>, v: seq<real>, i: nat, j: nat): (w: seq<real>)
    requires ValidGraph(g) && |r| == |g.tokens| && |v| == |g.tokens| && i < |g.tokens| && j <= |g.tokens|
    ensures |w| == |v|
  {
    if j == 0 then v
    else
      var w := SpreadRow(g, alpha, r, v, i, j - 1);
      if j - 1 in g.adj[i] then w[j - 1 := w[j - 1] + Flow(alpha, r[i], g.adj[i][j - 1], OutDeg(g.adj[i], |g.tokens|))]
      else w
  }

  /** `nr` after the edges of the vertices below `i`. */
  function Spread(g: Graph, alpha: real, r: seq<real>, i: nat): (w: seq<real>)
    requires ValidGraph(g) && |r| == |g.tokens| && i <= |g.tokens|
    ensures |w| == |g.tokens|
  {
    if i == 0 then Zeros(|g.tokens|) else SpreadRow(g, alpha, r, Spread(g, alpha, r, i - 1), i - 1, |g.tokens|)
  }

  /** `alpha * p[i]`: the personalisation share of a vertex whose
      personalisation weight is `pi`. */
  function Teleport(alpha: real, pi: real): real
  {
    alpha * pi
  }

  /** `nr` after the personalisation step has reached vertex `i`. */
  function AddSeed(v: seq<real>, p: seq<real>, alpha: real, i: nat): (w: seq<real>)
    requires |p| == |v| && i <= |v|
    ensures |w| == |v|
  {
    if i == 0 then v else var w := AddSeed(v, p, alpha, i - 1); w[i - 1 := w[i - 1] + Teleport(alpha, p[i - 1])]
  }

  /** One round of the power iteration. */
  function Round(g: Graph, alpha: real, p: seq<real>, r: seq<real>): (nr: seq<real>)
    requires ValidGraph(g) && |r| == |g.tokens| && |p| == |g.tokens|
    ensures |nr| == |g.tokens|
  {
    AddSeed(Spread(g, alpha, r, |g.tokens|), p, alpha, |g.tokens|)
  }

  /** `k` rounds from `r`. */
  function Rounds(g: Graph, alpha: real, p: seq<real>, r: seq<real>, k: nat): (rk: seq<real>)
    requires ValidGraph(g) && |r| == |g.tokens| && |p| == |g.tokens|
    ensures |rk| == |g.tokens|
  {
    if k == 0 then r else Round(g, alpha, p, Rounds(g, alpha, p, r, k - 1))
  }

  /** The entries `(tokens[i], r[i])`, in vertex order. */
  function Scored(tokens: seq<string>, r: seq<real>): (out: seq<(string, real)>)
    requires |r| == |tokens|
    ensures |out| == |tokens|
    ensures forall i :: 0 <= i < |tokens| ==> out[i] == (tokens[i], r[i])
  {
    seq(|tokens|, i requires 0 <= i < |tokens| => (tokens[i], r[i]))
  }

  /** The map `personalizedPageRank` returns, as its entries in insertion
      order: `iters` rounds from the uniform vector, one score per vertex. */
  function PprScores(g: Graph, seeds: seq<(string, real)>, alpha: real, iters: nat): (out: seq<(string, real)>)
    requires ValidGraph(g)
    ensures |out| == |g.tokens|
  {
    var n := |g.tokens|;
    if n == 0 then []
    else
      Scored(g.tokens, Rounds(g, alpha, Personalization(g, seeds), Uniform(n), iters))
  }

  // ---------------------------------------------------------------------
  // What a round computes

  /** The rank flowing into `j` from the vertices below `i`. */
  function Inflow(g: Graph, alpha: real, r: seq<real>, i: nat, j: nat): real
    requires ValidGraph(g) && |r| == |g.tokens| && i <= |g.tokens|
  {
    if i == 0 then 0.0 else Inflow(g, alpha, r, i - 1, j) + Share(g, alpha, r, i - 1, j)
  }

  lemma {:induction false} SpreadRowAt(g: Graph, alpha: real, r: seq<real>, v: seq<real>, i: nat, j: nat, b: nat)
    requires ValidGraph(g) && |r| == |g.tokens| && |v| == |g.tokens| && i < |g.tokens| && j <= |g.tokens|
    requires b < |g.tokens|
    ensures SpreadRow(g, alpha, r, v, i, j)[b] == v[b] + (if b < j then Share(g, alpha, r, i, b) else 0.0)
  {
    if j > 0 {
      SpreadRowAt(g, alpha, r, v, i, j - 1, b);
      if j - 1 !in g.adj[i] && b == j - 1 {
        FlowZero(alpha, r[i], OutDeg(g.adj[i], |g.tokens|));
      }
    }
  }

  lemma {:induction false} SpreadAt(g: Graph, alpha: real, r: seq<real>, i: nat, b: nat)
    requires ValidGraph(g) && |r| == |g.tokens| && i <= |g.tokens| && b < |g.tokens|
    ensures Spread(g, alpha, r, i)[b] == Inflow(g, alpha, r, i, b)
  {
    if i > 0 {
      SpreadAt(g, alpha, r, i - 1, b);
      SpreadRowAt(g, alpha, r, Spread(g, alpha, r, i - 1), i - 1, |g.tokens|, b);
    }
  }

  lemma {:induction false} AddSeedAt(v: seq<real>, p: seq<real>, alpha: real, i: nat, b: nat)
    requires |p| == |v| && i <= |v| && b < |v|
    ensures AddSeed(v, p, alpha, i)[b] == v[b] + (if b < i then Teleport(alpha, p[b]) else 0.0)
  {
    if i > 0 {
      AddSeedAt(v, p, alpha, i - 1, b);
    }
  }

  /** A round gives each vertex what flows in over its edges plus its
      share `alpha * p[j]` of the personalisation. */
  lemma RoundAt(g: Graph, alpha: real, p: seq<real>, r: seq<real>, j: nat)
    requires ValidGraph(g) && |r| == |g.tokens| && |p| == |g.tokens| && j < |g.tokens|
    ensures Round(g, alpha, p, r)[j] == Inflow(g, alpha, r, |g.tokens|, j) + Teleport(alpha, p[j])
  {
    SpreadAt(g, alpha, r, |g.tokens|, j);
    AddSeedAt(Spread(g, alpha, r, |g.tokens|), p, alpha, |g.tokens|, j);
  }

  ghost predicate NonNegative(v: seq<real>)
  {
    forall i :: 0 <= i < |v| ==> v[i] >= 0.0
  }

  lemma {:induction false} InflowNonNegative(g: Graph, alpha: real, r: seq<real>, i: nat, j: nat)
    requires ValidGraph(g) && |r| == |g.tokens| && i <= |g.tokens|
    requires alpha <= 1.0 && NonNegative(r)
    ensures Inflow(g, alpha, r, i, j) >= 0.0
  {
    if i > 0 {
      InflowNonNegative(g, alpha, r, i - 1, j);
      var x := Weight(g.adj[i - 1], j) as real / OutDeg(g.adj[i - 1], |g.tokens|);
      DivNonNegative(Weight(g.adj[i - 1], j) as real, OutDeg(g.adj[i - 1], |g.tokens|));
      MulNonNegative(1.0 - alpha, r[i - 1]);
      MulNonNegative((1.0 - alpha) * r[i - 1], x);
      assert Share(g, alpha, r, i - 1, j) == ((1.0 - alpha) * r[i - 1]) * x;
    }
  }

  lemma PersonalizationNonNegative(g: Graph, seeds: seq<(string, real)>)
    requires ValidGraph(g) && |g.tokens| > 0
    requires forall k :: 0 <= k < |seeds| ==> seeds[k].1 >= 0.0
    ensures NonNegative(Personalization(g, seeds))
  {
    IndexMapInverse(g.tokens);
    var n := |g.tokens|;
    SeedNonNegative(g.index, n, seeds);
  }

  lemma {:induction false} SeedNonNegative(index: map<string, nat>, n: nat, seeds: seq<(string, real)>)
    requires forall t :: t in index ==> index[t] < n
    requires forall k :: 0 <= k < |seeds| ==> seeds[k].1 >= 0.0
    ensures NonNegative(SeedVector(index, n, seeds)) && SeedSum(index, seeds) >= 0.0
  {
    if seeds != [] {
      SeedNonNegative(index, n, Init(seeds));
    }
  }

  /** With `0 <= alpha <= 1` and non-negative seed weights, every score
      stays non-negative through any number of rounds. */
  lemma {:induction false} RoundsNonNegative(g: Graph, alpha: real, p: seq<real>, r: seq<real>, k: nat)
    requires ValidGraph(g) && |r| == |g.tokens| && |p| == |g.tokens|
    requires 0.0 <= alpha <= 1.0 && NonNegative(p) && NonNegative(r)
    ensures NonNegative(Rounds(g, alpha, p, r, k))
  {
    if k > 0 {
      RoundsNonNegative(g, alpha, p, r, k - 1);
      RoundNonNegative(g, alpha, p, Rounds(g, alpha, p, r, k - 1));
    }
  }

  lemma RoundNonNegative(g: Graph, alpha: real, p: seq<real>, r: seq<real>)
    requires ValidGraph(g) && |r| == |g.tokens| && |p| == |g.tokens|
    requires 0.0 <= alpha <= 1.0 && NonNegative(p) && NonNegative(r)
    ensures NonNegative(Round(g, alpha, p, r))
  {
    forall j | 0 <= j < |g.tokens| ensures Round(g, alpha, p, r)[j] >= 0.0 {
      RoundAt(g, alpha, p, r, j);
      InflowNonNegative(g, alpha, r, |g.tokens|, j);
      MulNonNegative(alpha, p[j]);
    }
  }

  /** The scores: one entry per vertex, in vertex order, none negative. */
  lemma PprScoresProperties(g: Graph, seeds: seq<(string, real)>, alpha: real, iters: nat)
    requires ValidGraph(g)
    requires 0.0 <= alpha <= 1.0 && forall k :: 0 <= k < |seeds| ==> seeds[k].1 >= 0.0
    ensures forall i :: 0 <= i < |g.tokens| ==> PprScores(g, seeds, alpha, iters)[i].0 == g.tokens[i]
    ensures forall i :: 0 <= i < |g.tokens| ==> PprScores(g, seeds, alpha, iters)[i].1 >= 0.0
  {
    var n := |g.tokens|;
    if n > 0 {
      PersonalizationNonNegative(g, seeds);
      var r0 := Uniform(n);
      RoundsNonNegative(g, alpha, Personalization(g, seeds), r0, iters);
    }
  }

  /** Rank is not conserved: an isolated vertex counts as having out-degree
      1 but has no edge to pass its `(1 - alpha) * r[i]` on, so that share
      is lost. With one vertex and no edges a round keeps only `alpha`. */
  lemma IsolatedVertexLosesRank()
    ensures var g := Graph(["lofi"], map["lofi" := 0], [map[]]);
            ValidGraph(g) && Sum(Round(g, 0.2, [1.0], [1.0])) == 0.2
  {
    var g := Graph(["lofi"], map["lofi" := 0], [map[]]);
    assert IndexMap(g.tokens) == map["lofi" := 0];
    assert Spread(g, 0.2, [1.0], 1) == SpreadRow(g, 0.2, [1.0], Zeros(1), 0, 1);
    assert Zeros(1) == [0.0];
    assert SpreadRow(g, 0.2, [1.0], [0.0], 0, 1) == [0.0];
    assert Round(g, 0.2, [1.0], [1.0]) == [0.2];
    assert Sum([0.2]) == Sum([]) + 0.2;
  }

  // ---------------------------------------------------------------------
  // The imperative computation

  /** The seed loop: `p[i] += w; sum += w` for every entry whose token has
      a number. */
  method SeedLoop(g: Graph, seeds: seq<(string, real)>) returns (p: array<real>, sum: real)
    requires ValidGraph(g)
    ensures forall t :: t in g.index ==> g.index[t] < |g.tokens|
    ensures fresh(p) && p[..] == SeedVector(g.index, |g.tokens|, seeds)
    ensures sum == SeedSum(g.index, seeds)
  {
    IndexMapInverse(g.tokens);
    var n := |g.tokens|;
    p := new real[n](_ => 0.0);
    sum := 0.0;
    for k := 0 to |seeds|
      invariant p[..] == SeedVector(g.index, n, seeds[..k])
      invariant sum == SeedSum(g.index, seeds[..k])
    {
      assert Init(seeds[..k + 1]) == seeds[..k] && Last(seeds[..k + 1]) == seeds[k];
      var (t, w) := seeds[k];
      if t in g.index {
        var i := g.index[t];
        p[i] := p[i] + w;
        sum := sum + w;
      }
    }
    assert seeds[..|seeds|] == seeds;
  }

  /** The seed loop followed by the normalisation: the uniform vector
      when the sum is zero, else each weight divided by the sum. */
  method PersonalizationLoop(g: Graph, seeds: seq<(string, real)>) returns (p: array<real>)
    requires ValidGraph(g) && |g.tokens| > 0
    ensures fresh(p) && p[..] == Personalization(g, seeds)
  {
    var n := |g.tokens|;
    var sum;
    p, sum := SeedLoop(g, seeds);
    ghost var v := p[..];
    if sum == 0.0 {
      for i := 0 to n
        invariant forall a :: 0 <= a < i ==> p[a] == 1.0 / n as real
      {
        p[i] := 1.0 / n as real;
      }
    } else {
      for i := 0 to n
        invariant forall a :: 0 <= a < i ==> p[a] == v[a] / sum
        invariant forall a :: i <= a < n ==> p[a] == v[a]
      {
        p[i] := p[i] / sum;
      }
    }
  }

  /** `outdeg = adj.map(...)`: each vertex's total edge weight, or 1. */
  method OutDegrees(g: Graph) returns (outdeg: seq<real>)
    requires ValidGraph(g)
    ensures |outdeg| == |g.tokens|
    ensures forall i :: 0 <= i < |g.tokens| ==> outdeg[i] == OutDeg(g.adj[i], |g.tokens|)
  {
    var n := |g.tokens|;
    outdeg := [];
    for i := 0 to n
      invariant |outdeg| == i
      invariant forall a :: 0 <= a < i ==> outdeg[a] == OutDeg(g.adj[a], n)
    {
      var s: nat := 0;
      for b := 0 to n
        invariant s == RowSum(g.adj[i], b)
      {
        if b in g.adj[i] {
          s := s + g.adj[i][b];
        }
      }
      outdeg := outdeg + [if s == 0 then 1.0 else s as real];
    }
  }

  /** The inner loop of the transfer step: the edges of vertex `i`. */
  method SpreadVertex(g: Graph, alpha: real, r: array<real>, outdeg: seq<real>, i: nat, nr: array<real>)
    requires ValidGraph(g) && r.Length == |g.tokens| && nr.Length == |g.tokens| && r != nr && i < |g.tokens|
    requires |outdeg| == |g.tokens| && outdeg[i] == OutDeg(g.adj[i], |g.tokens|)
    modifies nr
    ensures nr[..] == SpreadRow(g, alpha, r[..], old(nr[..]), i, |g.tokens|)
  {
    ghost var base := nr[..];
    for j := 0 to |g.tokens|
      invariant nr[..] == SpreadRow(g, alpha, r[..], base, i, j)
    {
      if j in g.adj[i] {
        nr[j] := nr[j] + Flow(alpha, r[i], g.adj[i][j], outdeg[i]);
      }
    }
  }

  /** The personalisation step: `nr[i] += alpha * p[i]` for every vertex. */
  method AddTeleport(alpha: real, p: array<real>, nr: array<real>)
    requires p.Length == nr.Length && p != nr
    modifies nr
    ensures nr[..] == AddSeed(old(nr[..]), p[..], alpha, nr.Length)
  {
    ghost var spread := nr[..];
    for i := 0 to nr.Length
      invariant nr[..] == AddSeed(spread, p[..], alpha, i)
    {
      nr[i] := nr[i] + Teleport(alpha, p[i]);
    }
  }

  /** One round: spread `r` over the edges into a fresh `nr`, then add
      `alpha * p`. */
  method RoundLoop(g: Graph, alpha: real, p: array<real>, r: array<real>, outdeg: seq<real>) returns (nr: array<real>)
    requires ValidGraph(g) && p.Length == |g.tokens| && r.Length == |g.tokens|
    requires |outdeg| == |g.tokens| && forall i :: 0 <= i < |g.tokens| ==> outdeg[i] == OutDeg(g.adj[i], |g.tokens|)
    ensures fresh(nr) && nr[..] == Round(g, alpha, p[..], r[..])
  {
    var n := |g.tokens|;
    nr := new real[n](_ => 0.0);
    assert nr[..] == Zeros(n);
    for i := 0 to n
      invariant nr[..] == Spread(g, alpha, r[..], i)
    {
      SpreadVertex(g, alpha, r, outdeg, i, nr);
    }
    AddTeleport(alpha, p, nr);
  }

  /** `personalizedPageRank(graph, seedWeights, { alpha, iters })`, with the
      seed map given as its entries and the result as the entries of the
      returned map. */
  method PersonalizedPageRank(g: Graph, seeds: seq<(string, real)>, alpha: real, iters: nat)
    returns (out: seq<(string, real)>)
    requires ValidGraph(g)
    ensures out == PprScores(g, seeds, alpha, iters)
  {
    var n := |g.tokens|;
    if n == 0 {
      return [];
    }
    var p := PersonalizationLoop(g, seeds);
    var r := Iterate(g, alpha, p, iters);
    out := Entries(g.tokens, r);
  }

  /** `iters` rounds from the uniform vector. */
  method Iterate(g: Graph, alpha: real, p: array<real>, iters: nat) returns (r: array<real>)
    requires ValidGraph(g) && |g.tokens| > 0 && p.Length == |g.tokens|
    ensures r[..] == Rounds(g, alpha, p[..], Uniform(|g.tokens|), iters)
  {
    var n := |g.tokens|;
    r := new real[n](_ => 1.0 / n as real);
    assert r[..] == Uniform(n);
    var outdeg := OutDegrees(g);
    for k := 0 to iters
      invariant r[..] == Rounds(g, alpha, p[..], Uniform(n), k)
    {
      r := RoundLoop(g, alpha, p, r, outdeg);
    }
  }

  /** `out.set(tokens[i], r[i])` for every vertex, in vertex order. */
  method Entries(tokens: seq<string>, r: array<real>) returns (out: seq<(string, real)>)
    requires r.Length == |tokens|
    ensures out == Scored(tokens, r[..])
  {
    out := [];
    for i := 0 to |tokens|
      invariant |out| == i
      invariant forall a :: 0 <= a < i ==> out[a] == (tokens[a], r[a])
    {
      out := out + [(tokens[i], r[i])];
    }
  }
}
