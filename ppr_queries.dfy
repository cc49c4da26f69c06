/** The two consumers of the rank vector in src/ppr.js: the query policy
    of `buildQueriesFromLiked` and the candidate scores of
    `scoreCandidates`, and the pipelines that feed them from the liked
    rows with `alpha = 0.2` and 30 rounds. */
module PprQueries {
  import opened Seqs
  import opened Strings
  import opened Sorting
  import opened PprGraph
  import opened PageRank

  const ALPHA: real := 0.2
  const ITERS: nat := 30

  // ---------------------------------------------------------------------
  // Ranking and classification

  function Score(e: (string, real)): real
  {
    e.1
  }

  /** `[...pr.entries()].sort((a, b) => b[1] - a[1]).map(([t]) => t)`. */
  function Ranked(scores: seq<(string, real)>): (ranked: seq<string>)
    ensures |ranked| == |scores|
  {
    var sorted := SortDesc(scores, Score);
    seq(|sorted|, k requires 0 <= k < |sorted| => sorted[k].0)
  }

  function Tokens(scores: seq<(string, real)>): (ts: seq<string>)
    ensures |ts| == |scores| && forall i :: 0 <= i < |scores| ==> ts[i] == scores[i].0
  {
    seq(|scores|, i requires 0 <= i < |scores| => scores[i].0)
  }

  /** The ranked list holds the tokens of the entries, each once when they
      are distinct, in non-increasing order of score. */
  lemma RankedProperties(scores: seq<(string, real)>)
    ensures forall t :: t in Ranked(scores) <==> t in Tokens(scores)
    ensures Distinct(Tokens(scores)) ==> Distinct(Ranked(scores))
    ensures forall a, b :: 0 <= a < b < |scores| ==> Score(SortDesc(scores, Score)[a]) >= Score(SortDesc(scores, Score)[b])
    ensures forall k :: 0 <= k < |scores| ==> Ranked(scores)[k] == SortDesc(scores, Score)[k].0
  {
    SortDescProperties(scores, Score);
    RankedAt(scores);
    RankedTokens(scores);
    if Distinct(Tokens(scores)) {
      RankedDistinct(scores);
    }
  }

  /** The `k`-th ranked token is the token of the entry the sort put at `k`. */
  lemma RankedAt(scores: seq<(string, real)>)
    ensures var order := SortOrder(KeySeq(scores, Score), |scores|);
            forall k :: 0 <= k < |scores| ==> Ranked(scores)[k] == Tokens(scores)[order[k]]
  {
    SortDescProperties(scores, Score);
  }

  lemma RankedTokens(scores: seq<(string, real)>)
    ensures forall t :: t in Ranked(scores) <==> t in Tokens(scores)
  {
    var order := SortOrder(KeySeq(scores, Score), |scores|);
    SortOrderCorrect(KeySeq(scores, Score), |scores|);
    RankedAt(scores);
    var ranked := Ranked(scores);
    forall t | t in Tokens(scores) ensures t in ranked {
      var i :| 0 <= i < |scores| && Tokens(scores)[i] == t;
      assert i in order;
      var k :| 0 <= k < |order| && order[k] == i;
      assert ranked[k] == t;
    }
  }

  lemma RankedDistinct(scores: seq<(string, real)>)
    requires Distinct(Tokens(scores))
    ensures Distinct(Ranked(scores))
  {
    var order := SortOrder(KeySeq(scores, Score), |scores|);
    SortOrderCorrect(KeySeq(scores, Score), |scores|);
    RankedAt(scores);
    var ranked := Ranked(scores);
    var toks := Tokens(scores);
    forall a, b | 0 <= a < b < |ranked| ensures ranked[a] != ranked[b] {
      var i, j := order[a], order[b];
      assert i != j;
      if i < j {
        assert toks[i] != toks[j];
      } else {
        assert toks[j] != toks[i];
      }
    }
  }

  /** `/^[a-z0-9가-힣ぁ-ゟァ-ヿ]/i`: the first character is an ASCII letter
      or digit, a Hangul syllable, Hiragana or Katakana. */
  predicate IsArtistLike(t: string)
  {
    t != [] &&
    var c := t[0];
    ('a' <= c <= 'z') || ('A' <= c <= 'Z') || ('0' <= c <= '9')
    || ('\U{AC00}' <= c <= '\U{D7A3}') || ('\U{3041}' <= c <= '\U{309F}') || ('\U{30A1}' <= c <= '\U{30FF}')
  }

  function NotIn(xs: seq<string>): string -> bool
  {
    t => t !in xs
  }

  /** `ranked.filter(isArtistLike).slice(0, 12)`. */
  function TopArtists(ranked: seq<string>): seq<string>
  {
    Prefix(Filter(ranked, IsArtistLike), 12)
  }

  /** `ranked.filter((t) => !topArtists.includes(t)).slice(0, 30)`. */
  function TopKeys(ranked: seq<string>): seq<string>
  {
    Prefix(Filter(ranked, NotIn(TopArtists(ranked))), 30)
  }

  /** How many keys the slot loop shifts into the artist slots. */
  function Moved(ranked: seq<string>): nat
  {
    Min(3 - |Prefix(TopArtists(ranked), 3)|, |TopKeys(ranked)|)
  }

  /** `artistsForQueries`: the first three artist-like tokens, topped up
      from the front of `topKeys`. */
  function Slots(ranked: seq<string>): seq<string>
  {
    Prefix(TopArtists(ranked), 3) + TopKeys(ranked)[..Moved(ranked)]
  }

  /** `keyQueue`: what the slot loop left of `topKeys`. */
  function KeyQueue(ranked: seq<string>): seq<string>
  {
    TopKeys(ranked)[Moved(ranked)..]
  }

  /** `artistUsage`: a truthy slot 0 twice, truthy slots 1 and 2 once. */
  function Usage(slots: seq<string>): (usage: seq<string>)
    ensures |usage| <= 4
  {
    (if |slots| > 0 && NonEmpty(slots[0]) then [slots[0], slots[0]] else [])
    + (if |slots| > 1 && NonEmpty(slots[1]) then [slots[1]] else [])
    + (if |slots| > 2 && NonEmpty(slots[2]) then [slots[2]] else [])
  }

  /** A key of the queue, as `keyQueue.shift() || ""` yields it. */
  function KeyAt(queue: seq<string>, i: nat): string
  {
    if i < |queue| then queue[i] else ""
  }

  /** `[a, k1, k2].filter(Boolean)`. */
  function Truthy(a: string, k1: string, k2: string): seq<string>
  {
    (if NonEmpty(a) then [a] else []) + (if NonEmpty(k1) then [k1] else []) + (if NonEmpty(k2) then [k2] else [])
  }

  /** `[a, k1, k2].filter(Boolean).join(" ").trim()`. */
  function QueryText(a: string, k1: string, k2: string): string
  {
    Trim(Join(Truthy(a, k1, k2), " "))
  }

  /** The text `text` forms for each usage entry, the `i`-th taking keys
      `2i` and `2i + 1` of the queue. */
  function TextsBy(usage: seq<string>, queue: seq<string>, text: (string, string, string) -> string): (texts: seq<string>)
    ensures |texts| == |usage|
  {
    seq(|usage|, i requires 0 <= i < |usage| => text(usage[i], KeyAt(queue, 2 * i), KeyAt(queue, 2 * i + 1)))
  }

  /** The query text of each usage entry. */
  function Texts(usage: seq<string>, queue: seq<string>): (texts: seq<string>)
    ensures |texts| == |usage|
  {
    TextsBy(usage, queue, QueryText)
  }

  /** `queries` after the first `n` texts: each non-empty one is pushed,
      and the loop stops once four queries exist. */
  function Collect(texts: seq<string>, n: nat): seq<string>
    requires n <= |texts|
  {
    if n == 0 then []
    else
      var prev := Collect(texts, n - 1);
      if |prev| >= 4 then prev
      else if NonEmpty(texts[n - 1]) then prev + [texts[n - 1]] else prev
  }

  /** The result of `buildQueriesFromLiked` for a ranked token list. */
  function QueryPolicy(ranked: seq<string>): seq<string>
  {
    var texts := Texts(Usage(Slots(ranked)), KeyQueue(ranked));
    var qs := Collect(texts, |texts|);
    if qs == [] then Filter(Prefix(ranked, 4), NonEmpty) else Unique(qs)
  }

  // ---------------------------------------------------------------------
  // What the policy guarantees

  lemma {:induction false} CollectBound(texts: seq<string>, n: nat)
    requires n <= |texts|
    ensures |Collect(texts, n)| <= n
    ensures forall k :: 0 <= k < |Collect(texts, n)| ==> NonEmpty(Collect(texts, n)[k])
  {
    if n > 0 {
      CollectBound(texts, n - 1);
    }
  }

  /** Once four queries exist the remaining usage entries add nothing: the
      `break` of the loop. */
  lemma {:induction false} CollectSaturated(texts: seq<string>, i: nat, n: nat)
    requires i <= n <= |texts| && |Collect(texts, i)| >= 4
    ensures Collect(texts, n) == Collect(texts, i)
  {
    if n > i {
      CollectSaturated(texts, i, n - 1);
    }
  }

  /** At most four queries, none empty. */
  lemma QueryPolicyBound(ranked: seq<string>)
    ensures |QueryPolicy(ranked)| <= 4
    ensures forall k :: 0 <= k < |QueryPolicy(ranked)| ==> NonEmpty(QueryPolicy(ranked)[k])
  {
    var texts := Texts(Usage(Slots(ranked)), KeyQueue(ranked));
    var qs := Collect(texts, |texts|);
    CollectBound(texts, |texts|);
    if qs != [] {
      UniqueNonEmpty(qs);
    }
  }

  lemma UniqueNonEmpty(qs: seq<string>)
    requires forall k :: 0 <= k < |qs| ==> NonEmpty(qs[k])
    ensures |Unique(qs)| <= |qs|
    ensures forall k :: 0 <= k < |Unique(qs)| ==> NonEmpty(Unique(qs)[k])
  {
    var u := Unique(qs);
    UniqueProperties(qs);
    SubseqElements(u, qs);
    forall k | 0 <= k < |u| ensures NonEmpty(u[k]) {
      assert u[k] in qs;
      var j :| 0 <= j < |qs| && qs[j] == u[k];
    }
  }

  /** The queries are pairwise distinct (for the fallback, when the ranked
      tokens are). */
  lemma QueryPolicyDistinct(ranked: seq<string>)
    requires Distinct(ranked)
    ensures Distinct(QueryPolicy(ranked))
  {
    var texts := Texts(Usage(Slots(ranked)), KeyQueue(ranked));
    var qs := Collect(texts, |texts|);
    if qs == [] {
      FilterDistinct(Prefix(ranked, 4), NonEmpty);
    } else {
      UniqueProperties(qs);
    }
  }

  /** No query is produced from an empty list; a ranked list whose first
      token is non-empty always gives at least one query. */
  lemma QueryPolicyEmpty(ranked: seq<string>)
    ensures ranked == [] ==> QueryPolicy(ranked) == []
    ensures ranked != [] && NonEmpty(ranked[0]) ==> QueryPolicy(ranked) != []
  {
    var texts := Texts(Usage(Slots(ranked)), KeyQueue(ranked));
    var qs := Collect(texts, |texts|);
    if ranked == [] {
      assert Filter(ranked, IsArtistLike) == [];
      assert TopArtists(ranked) == [] && TopKeys(ranked) == [];
      assert Usage(Slots(ranked)) == [];
    } else if NonEmpty(ranked[0]) {
      if qs == [] {
        assert Prefix(ranked, 4)[0] == ranked[0];
      } else {
        UniqueProperties(qs);
        assert qs[0] in Unique(qs);
      }
    }
  }

  /** A non-empty ranked list can still give no query: an empty token
      fills no slot and is filtered out of the fallback. */
  lemma EmptyTokenGivesNoQuery()
    ensures QueryPolicy([""]) == []
  {
    var ranked := [""];
    EmptyTokenSlots();
    assert Texts(Usage(Slots(ranked)), KeyQueue(ranked)) == [];
    assert SliceEnd(|ranked|, 4) == 1;
    assert Prefix(ranked, 4) == ranked[..1] == ranked;
    assert Filter(ranked, NonEmpty) == [] by {
      assert Init(ranked) == [];
    }
  }

  /** The empty token is not artist-like, so it is shifted into the first
      slot, where it is not truthy. */
  lemma EmptyTokenSlots()
    ensures Slots([""]) == [""] && Usage(Slots([""])) == []
  {
    var ranked := [""];
    assert Filter(ranked, IsArtistLike) == [] by {
      assert Init(ranked) == [];
    }
    assert TopArtists(ranked) == [];
    assert Filter(ranked, NotIn([])) == [""] by {
      assert Init(ranked) == [];
    }
  }

  /** For a ranked list without repeats, no query comes back exactly when
      the list is empty or holds only the empty token: otherwise either the
      top token or, behind an empty one, the next token survives the
      fallback's `filter(Boolean)`. */
  lemma QueryPolicyEmptyExact(ranked: seq<string>)
    requires Distinct(ranked)
    ensures QueryPolicy(ranked) == [] <==> ranked == [] || ranked == [""]
  {
    QueryPolicyEmpty(ranked);
    if ranked == [""] {
      EmptyTokenGivesNoQuery();
    } else if ranked != [] && !NonEmpty(ranked[0]) {
      var texts := Texts(Usage(Slots(ranked)), KeyQueue(ranked));
      var qs := Collect(texts, |texts|);
      assert |ranked| >= 2;
      assert ranked[0] != ranked[1];
      if qs == [] {
        var p := Prefix(ranked, 4);
        assert |p| >= 2 && p[1] == ranked[1];
        assert ranked[1] in Filter(p, NonEmpty);
      } else {
        UniqueProperties(qs);
        assert qs[0] in Unique(qs);
      }
    }
  }

  /** The artist slots and the key queue never share a token, and no token
      occurs twice among them: a key shifted into a slot is not used as a
      key again and every key serves one query. */
  lemma SlotsAndKeysDistinct(ranked: seq<string>)
    requires Distinct(ranked)
    ensures Distinct(Slots(ranked) + KeyQueue(ranked))
    ensures |Slots(ranked)| <= 3
  {
    TopKeysApart(ranked);
    var ta := TopArtists(ranked);
    var tk := TopKeys(ranked);
    var a3 := Prefix(ta, 3);
    forall i, j | 0 <= i < j < |a3| ensures a3[i] != a3[j] {
      assert a3[i] == ta[i] && a3[j] == ta[j];
    }
    forall x | x in a3 ensures x !in tk {
      var k :| 0 <= k < |a3| && a3[k] == x;
      assert ta[k] == x;
    }
    DistinctConcat(a3, tk);
    var m := Moved(ranked);
    assert Slots(ranked) + KeyQueue(ranked) == a3 + (tk[..m] + tk[m..]);
    assert tk[..m] + tk[m..] == tk;
  }

  /** The artist list and the key list are each free of repeats, and no key
      is an artist. */
  lemma TopKeysApart(ranked: seq<string>)
    requires Distinct(ranked)
    ensures Distinct(TopArtists(ranked)) && Distinct(TopKeys(ranked))
    ensures forall x :: x in TopKeys(ranked) ==> x !in TopArtists(ranked)
  {
    var ta := TopArtists(ranked);
    var fa := Filter(ranked, IsArtistLike);
    var fk := Filter(ranked, NotIn(ta));
    FilterDistinct(ranked, IsArtistLike);
    FilterDistinct(ranked, NotIn(ta));
    var tk := TopKeys(ranked);
    forall i, j | 0 <= i < j < |ta| ensures ta[i] != ta[j] {
      assert ta[i] == fa[i] && ta[j] == fa[j];
    }
    forall i, j | 0 <= i < j < |tk| ensures tk[i] != tk[j] {
      assert tk[i] == fk[i] && tk[j] == fk[j];
    }
    forall x | x in tk ensures x !in ta {
      var k :| 0 <= k < |tk| && tk[k] == x;
      assert fk[k] == x;
      assert NotIn(ta)(fk[k]);
    }
  }

  /** `trim` keeps a lead token that has no white space at its ends. */
  lemma QueryStartsWithLead(a: string, k1: string, k2: string)
    requires a != [] && !IsSpace(a[0]) && !IsSpace(Last(a))
    ensures StartsWith(QueryText(a, k1, k2), a)
  {
    var parts := Truthy(a, k1, k2);
    assert parts[..1] == [a];
    JoinPrefix(parts, " ", 1);
    var joined := Join(parts, " ");
    assert joined == a + joined[|a|..];
    TrimKeepsLead(a, joined[|a|..]);
  }

  /** When the best-ranked token is artist-like and has no trailing white
      space, some query starts with it. */
  lemma LeadQuery(ranked: seq<string>)
    requires ranked != [] && IsArtistLike(ranked[0]) && !IsSpace(Last(ranked[0]))
    ensures exists q :: q in QueryPolicy(ranked) && StartsWith(q, ranked[0])
  {
    var texts := Texts(Usage(Slots(ranked)), KeyQueue(ranked));
    LeadCollected(ranked);
    var q := Collect(texts, |texts|)[0];
    CollectedInPolicy(ranked, q);
  }

  /** The lead slot's text is the first collected query. */
  lemma LeadCollected(ranked: seq<string>)
    requires ranked != [] && IsArtistLike(ranked[0]) && !IsSpace(Last(ranked[0]))
    ensures var texts := Texts(Usage(Slots(ranked)), KeyQueue(ranked));
            Collect(texts, |texts|) != [] && StartsWith(Collect(texts, |texts|)[0], ranked[0])
  {
    var top := ranked[0];
    SlotsFirst(ranked);
    var slots := Slots(ranked);
    UsageFirst(slots);
    var usage := Usage(slots);
    var queue := KeyQueue(ranked);
    LeadText(usage, queue);
    var texts := Texts(usage, queue);
    CollectFirst(texts, texts[0]);
  }

  /** The first text starts with the first usage entry. */
  lemma LeadText(usage: seq<string>, queue: seq<string>)
    requires usage != [] && usage[0] != [] && !IsSpace(usage[0][0]) && !IsSpace(Last(usage[0]))
    ensures Texts(usage, queue) != [] && Texts(usage, queue)[0] != "" && StartsWith(Texts(usage, queue)[0], usage[0])
  {
    var q := QueryText(usage[0], KeyAt(queue, 0), KeyAt(queue, 1));
    TextAt(usage, queue, 0, q);
    QueryStartsWithLead(usage[0], KeyAt(queue, 0), KeyAt(queue, 1));
  }

  /** A non-empty first text is the first collected query. */
  lemma CollectFirst(texts: seq<string>, q: string)
    requires texts != [] && texts[0] == q && q != ""
    ensures Collect(texts, |texts|) != [] && Collect(texts, |texts|)[0] == q
  {
    CollectStep(texts, 0, q);
    CollectKeep(texts, 1, |texts|);
  }

  /** An artist-like first token takes the first slot. */
  lemma SlotsFirst(ranked: seq<string>)
    requires ranked != [] && IsArtistLike(ranked[0])
    ensures Slots(ranked) != [] && Slots(ranked)[0] == ranked[0]
  {
    FilterPrefixFirst(ranked, IsArtistLike);
    assert TopArtists(ranked)[0] == ranked[0];
    assert Prefix(TopArtists(ranked), 3)[0] == ranked[0];
  }

  lemma UsageFirst(slots: seq<string>)
    requires slots != [] && NonEmpty(slots[0])
    ensures Usage(slots) != [] && Usage(slots)[0] == slots[0]
  {
  }

  /** Every collected text is a query of the policy. */
  lemma CollectedInPolicy(ranked: seq<string>, q: string)
    requires q in Collect(Texts(Usage(Slots(ranked)), KeyQueue(ranked)), |Usage(Slots(ranked))|)
    ensures q in QueryPolicy(ranked)
  {
    var texts := Texts(Usage(Slots(ranked)), KeyQueue(ranked));
    UniqueProperties(Collect(texts, |texts|));
  }

  /** The queries of a prefix of the usage list begin the full list. */
  lemma {:induction false} CollectKeep(texts: seq<string>, i: nat, n: nat)
    requires i <= n <= |texts| && |Collect(texts, i)| > 0
    ensures |Collect(texts, n)| > 0 && Collect(texts, n)[0] == Collect(texts, i)[0]
  {
    if n > i {
      CollectKeep(texts, i, n - 1);
    }
  }

  /** The first element of `s` that satisfies `p` is the first of the
      filtered list. */
  lemma {:induction false} FilterPrefixFirst(s: seq<string>, p: string -> bool)
    requires s != [] && p(s[0])
    ensures Filter(s, p) != [] && Filter(s, p)[0] == s[0]
    decreases |s|
  {
    if |s| > 1 {
      FilterPrefixFirst(Init(s), p);
    } else {
      assert Init(s) == [];
    }
  }

  // ---------------------------------------------------------------------
  // The loops of buildQueriesFromLiked

  /** The slot loop and the queue loop of `buildQueriesFromLiked`, from the
      ranked list on. */
  method BuildQueries(ranked: seq<string>) returns (queries: seq<string>)
    ensures queries == QueryPolicy(ranked)
  {
    var artists, keyQueue := SlotLoop(ranked);
    var usage := UsageOf(artists);
    queries := QueueLoop(usage, keyQueue, QueryText);
    if queries == [] {
      return Filter(Prefix(ranked, 4), NonEmpty);
    }
    queries := SpreadSet(queries);
  }

  /** `topArtists`, `topKeys` and the loop that tops up the artist slots
      from the front of `topKeys`. */
  method SlotLoop(ranked: seq<string>) returns (artists: seq<string>, topKeys: seq<string>)
    ensures artists == Slots(ranked) && topKeys == KeyQueue(ranked)
  {
    var topArtists := Prefix(Filter(ranked, IsArtistLike), 12);
    topKeys := Prefix(Filter(ranked, NotIn(topArtists)), 30);
    artists := Prefix(topArtists, 3);
    ghost var lead := artists;
    ghost var keys := topKeys;
    assert lead == Prefix(TopArtists(ranked), 3) && keys == TopKeys(ranked);
    ghost var moved: nat := 0;
    while |artists| < 3 && topKeys != []
      invariant moved <= |keys| && |lead| + moved <= 3
      invariant artists == lead + keys[..moved]
      invariant topKeys == keys[moved..]
      decreases |topKeys|
    {
      artists := artists + [topKeys[0]];
      topKeys := topKeys[1..];
      moved := moved + 1;
    }
    assert moved == Moved(ranked);
  }

  /** `artistUsage`, built by pushes. */
  method UsageOf(artists: seq<string>) returns (usage: seq<string>)
    ensures usage == Usage(artists)
  {
    usage := [];
    if |artists| > 0 && artists[0] != "" {
      usage := usage + [artists[0], artists[0]];
    }
    if |artists| > 1 && artists[1] != "" {
      usage := usage + [artists[1]];
    }
    if |artists| > 2 && artists[2] != "" {
      usage := usage + [artists[2]];
    }
  }

  /** Two shifts take keys `2i` and `2i + 1` off the queue. */
  lemma QueueStep(queue: seq<string>, i: nat, before: seq<string>, k1: string, k2: string, after: seq<string>)
    requires before == queue[Min(2 * i, |queue|)..]
    requires k1 == KeyAt(before, 0)
    requires k2 == KeyAt(if before == [] then [] else before[1..], 0)
    requires after == if |before| <= 2 then [] else before[2..]
    ensures k1 == KeyAt(queue, 2 * i) && k2 == KeyAt(queue, 2 * i + 1)
    ensures after == queue[Min(2 * (i + 1), |queue|)..]
  {
  }

  /** `queue.shift() || ""`: the front key (or `""`) and the rest. */
  method Shift(queue: seq<string>) returns (key: string, rest: seq<string>)
    ensures key == KeyAt(queue, 0)
    ensures rest == if queue == [] then [] else queue[1..]
  {
    key := "";
    rest := queue;
    if queue != [] {
      key := queue[0];
      rest := queue[1..];
    }
  }

  /** `for (const a of artistUsage)`: two keys off the queue per entry,
      one query per non-empty text, at most four. The text of a round is
      formed by `text`, which the caller gives as `QueryText`. */
  method QueueLoop(usage: seq<string>, queue: seq<string>, text: (string, string, string) -> string)
    returns (queries: seq<string>)
    ensures queries == Collect(TextsBy(usage, queue, text), |usage|)
  {
    ghost var texts := TextsBy(usage, queue, text);
    var keyQueue := queue;
    queries := [];
    var i := 0;
    while i < |usage|
      invariant i <= |usage|
      invariant keyQueue == queue[Min(2 * i, |queue|)..]
      invariant queries == Collect(texts, i)
    {
      if |queries| >= 4 {
        break;
      }
      keyQueue, queries := QueueRound(usage, queue, text, texts, i, keyQueue, queries);
      i := i + 1;
    }
    if i < |usage| {
      CollectSaturated(texts, i, |usage|);
    }
  }

  /** One pass of the loop body: two keys off the queue, and the text
      pushed when it is non-empty. */
  method QueueRound(usage: seq<string>, queue: seq<string>, text: (string, string, string) -> string,
                    ghost texts: seq<string>, i: nat, keyQueue: seq<string>, queries: seq<string>)
    returns (keyQueue': seq<string>, queries': seq<string>)
    requires texts == TextsBy(usage, queue, text)
    requires i < |usage| && keyQueue == queue[Min(2 * i, |queue|)..]
    requires queries == Collect(texts, i) && |queries| < 4
    ensures keyQueue' == queue[Min(2 * (i + 1), |queue|)..]
    ensures queries' == Collect(texts, i + 1)
  {
    var k1, k2;
    k1, keyQueue' := Shift(keyQueue);
    k2, keyQueue' := Shift(keyQueue');
    QueueStep(queue, i, keyQueue, k1, k2, keyQueue');
    var q := text(usage[i], k1, k2);
    assert texts[i] == q;
    queries' := queries;
    if q != "" {
      queries' := queries + [q];
    }
    CollectStep(texts, i, q);
  }

  lemma TextAt(usage: seq<string>, queue: seq<string>, i: nat, q: string)
    requires i < |usage| && q == QueryText(usage[i], KeyAt(queue, 2 * i), KeyAt(queue, 2 * i + 1))
    ensures Texts(usage, queue)[i] == q
  {
    var texts := Texts(usage, queue);
    assert texts[i] == QueryText(usage[i], KeyAt(queue, 2 * i), KeyAt(queue, 2 * i + 1));
  }

  /** One round of the queue loop below the four-query bound. */
  lemma CollectStep(texts: seq<string>, i: nat, q: string)
    requires i < |texts| && texts[i] == q && |Collect(texts, i)| < 4
    ensures Collect(texts, i + 1) == if q != "" then Collect(texts, i) + [q] else Collect(texts, i)
  {
  }

  // ---------------------------------------------------------------------
  // Candidate scores

  /** `pr`: the map built by `out.set(tokens[i], r[i])`; a later entry for
      the same token overwrites an earlier one. */
  function PrMap(entries: seq<(string, real)>): (pr: map<string, real>)
    ensures pr.Keys == set i | 0 <= i < |entries| :: entries[i].0
  {
    if entries == [] then map[]
    else PrMap(Init(entries))[Last(entries).0 := Last(entries).1]
  }

  /** `pr.get(t) || 0`. */
  function PrGet(pr: map<string, real>, t: string): real
  {
    if t in pr then pr[t] else 0.0
  }

  /** The score loop: `score += pr.get(t) || 0` over the tokens of a row. */
  function TokenSum(pr: map<string, real>, ts: seq<string>): real
  {
    if ts == [] then 0.0 else TokenSum(pr, Init(ts)) + PrGet(pr, Last(ts))
  }

  lemma {:induction false} PrMapAt(entries: seq<(string, real)>, i: nat)
    requires i < |entries| && Distinct(Tokens(entries))
    ensures PrMap(entries)[entries[i].0] == entries[i].1
  {
    if i < |entries| - 1 {
      assert Tokens(Init(entries)) == Init(Tokens(entries));
      PrMapAt(Init(entries), i);
      assert Tokens(entries)[i] != Tokens(entries)[|entries| - 1];
    }
  }

  /** The score of a row is additive over its tokens. */
  lemma {:induction false} TokenSumAppend(pr: map<string, real>, ts: seq<string>, us: seq<string>)
    ensures TokenSum(pr, ts + us) == TokenSum(pr, ts) + TokenSum(pr, us)
    decreases |us|
  {
    if us == [] {
      assert ts + us == ts;
    } else {
      assert Init(ts + us) == ts + Init(us);
      TokenSumAppend(pr, ts, Init(us));
    }
  }

  /** Tokens the rank map does not know contribute nothing. */
  lemma {:induction false} TokenSumUnknown(pr: map<string, real>, ts: seq<string>)
    requires forall k :: 0 <= k < |ts| ==> ts[k] !in pr
    ensures TokenSum(pr, ts) == 0.0
  {
    if ts != [] {
      TokenSumUnknown(pr, Init(ts));
    }
  }

  /** With non-negative ranks every score is non-negative and at least the
      rank of each of its tokens. */
  lemma {:induction false} TokenSumLower(pr: map<string, real>, ts: seq<string>, k: nat)
    requires forall t :: t in pr ==> pr[t] >= 0.0
    requires k < |ts|
    ensures TokenSum(pr, ts) >= PrGet(pr, ts[k]) >= 0.0
  {
    if k < |ts| - 1 {
      TokenSumLower(pr, Init(ts), k);
    } else {
      TokenSumNonNegative(pr, Init(ts));
    }
  }

  lemma {:induction false} TokenSumNonNegative(pr: map<string, real>, ts: seq<string>)
    requires forall t :: t in pr ==> pr[t] >= 0.0
    ensures TokenSum(pr, ts) >= 0.0
  {
    if ts != [] {
      TokenSumNonNegative(pr, Init(ts));
    }
  }

  /** A token that occurs twice in a row counts twice. */
  lemma RepeatCountsTwice(pr: map<string, real>, t: string)
    ensures TokenSum(pr, [t, t]) == 2.0 * PrGet(pr, t)
  {
    assert Init([t, t]) == [t] && Init([t]) == [];
    assert TokenSum(pr, [t]) == TokenSum(pr, []) + PrGet(pr, t);
  }

  /** `(source_id, score)` for one candidate row. */
  function CandidateScore(pr: map<string, real>, row: TokenRow): (string, real)
  {
    (row.sourceId, TokenSum(pr, RowTokens(row)))
  }

  method ScoreRow(pr: map<string, real>, row: TokenRow) returns (score: real)
    ensures score == TokenSum(pr, RowTokens(row))
  {
    var ts := row.artists + row.keywords;
    score := 0.0;
    for k := 0 to |ts|
      invariant score == TokenSum(pr, ts[..k])
    {
      assert Init(ts[..k + 1]) == ts[..k];
      score := score + (if ts[k] in pr then pr[ts[k]] else 0.0);
    }
    assert ts[..|ts|] == ts;
  }

  /** `rows.map(...)`: one `(source_id, score)` per candidate row. */
  method ScoreRows(pr: map<string, real>, rows: seq<TokenRow>) returns (updates: seq<(string, real)>)
    ensures |updates| == |rows|
    ensures forall k :: 0 <= k < |rows| ==> updates[k] == CandidateScore(pr, rows[k])
  {
    updates := [];
    for k := 0 to |rows|
      invariant |updates| == k
      invariant forall a :: 0 <= a < k ==> updates[a] == CandidateScore(pr, rows[a])
    {
      var score := ScoreRow(pr, rows[k]);
      updates := updates + [(rows[k].sourceId, score)];
    }
  }

  // ---------------------------------------------------------------------
  // From the liked rows

  /** `freq` as the entries `personalizedPageRank` iterates, in insertion
      order. */
  function SeedEntries(keys: seq<string>, freq: map<string, nat>): (seeds: seq<(string, real)>)
    ensures |seeds| == |keys|
  {
    seq(|keys|, i requires 0 <= i < |keys| => (keys[i], if keys[i] in freq then freq[keys[i]] as real else 0.0))
  }

  /** The rank entries both consumers compute from the liked rows. */
  function LikedScores(liked: seq<TokenRow>): seq<(string, real)>
  {
    CoGraphVertices(liked);
    PprScores(CoGraph(liked), SeedEntries(Unique(AllTokens(liked)), SeedFreq(liked)), ALPHA, ITERS)
  }

  /** `buildQueriesFromLiked` on the given liked rows. */
  function LikedQueries(liked: seq<TokenRow>): seq<string>
  {
    QueryPolicy(Ranked(LikedScores(liked)))
  }

  /** Every liked token is ranked once; the rank entries are in vertex
      order and none is negative. */
  lemma LikedScoresProperties(liked: seq<TokenRow>)
    ensures Tokens(LikedScores(liked)) == Unique(AllTokens(liked))
    ensures forall k :: 0 <= k < |LikedScores(liked)| ==> LikedScores(liked)[k].1 >= 0.0
  {
    CoGraphVertices(liked);
    var g := CoGraph(liked);
    var seeds := SeedEntries(Unique(AllTokens(liked)), SeedFreq(liked));
    forall k | 0 <= k < |seeds| ensures seeds[k].1 >= 0.0 {
    }
    PprScoresProperties(g, seeds, ALPHA, ITERS);
  }

  /** The liked queries: at most four, distinct, non-empty; none without
      liked rows. */
  lemma LikedQueriesProperties(liked: seq<TokenRow>)
    ensures |LikedQueries(liked)| <= 4 && Distinct(LikedQueries(liked))
    ensures forall k :: 0 <= k < |LikedQueries(liked)| ==> NonEmpty(LikedQueries(liked)[k])
    ensures liked == [] ==> LikedQueries(liked) == []
  {
    var scores := LikedScores(liked);
    LikedScoresProperties(liked);
    UniqueProperties(AllTokens(liked));
    RankedProperties(scores);
    QueryPolicyBound(Ranked(scores));
    QueryPolicyDistinct(Ranked(scores));
    if liked == [] {
      assert AllTokens(liked) == [];
      assert Unique(AllTokens(liked)) == [];
      QueryPolicyEmpty(Ranked(scores));
    }
  }

  /** Every candidate's score: the sum of the ranks of its tokens. */
  function CandidateScores(liked: seq<TokenRow>, candidates: seq<TokenRow>): seq<(string, real)>
  {
    var pr := PrMap(LikedScores(liked));
    seq(|candidates|, k requires 0 <= k < |candidates| => CandidateScore(pr, candidates[k]))
  }

  /** Candidate scores are non-negative; without liked rows every one is 0;
      a liked token in a candidate adds its rank to the score. */
  lemma CandidateScoresProperties(liked: seq<TokenRow>, candidates: seq<TokenRow>, k: nat, i: nat)
    requires k < |candidates|
    ensures CandidateScores(liked, candidates)[k].0 == candidates[k].sourceId
    ensures CandidateScores(liked, candidates)[k].1 >= 0.0
    ensures liked == [] ==> CandidateScores(liked, candidates)[k].1 == 0.0
    ensures i < |LikedScores(liked)| && LikedScores(liked)[i].0 in RowTokens(candidates[k]) ==>
              CandidateScores(liked, candidates)[k].1 >= LikedScores(liked)[i].1
  {
    var scores := LikedScores(liked);
    var pr := PrMap(scores);
    LikedScoresProperties(liked);
    UniqueProperties(AllTokens(liked));
    forall t | t in pr ensures pr[t] >= 0.0 {
      var j :| 0 <= j < |scores| && scores[j].0 == t;
      PrMapAt(scores, j);
    }
    var ts := RowTokens(candidates[k]);
    TokenSumNonNegative(pr, ts);
    if liked == [] {
      assert AllTokens(liked) == [];
      assert |scores| == 0;
      TokenSumUnknown(pr, ts);
    }
    if i < |scores| && scores[i].0 in ts {
      var j :| 0 <= j < |ts| && ts[j] == scores[i].0;
      PrMapAt(scores, i);
      TokenSumLower(pr, ts, j);
    }
  }

  /** `buildQueriesFromLiked(userId)` with the liked rows given. */
  method BuildQueriesFromLiked(liked: seq<TokenRow>) returns (queries: seq<string>)
    ensures queries == LikedQueries(liked)
  {
    var pr := LikedRanks(liked);
    queries := BuildQueries(Ranked(pr));
  }

  /** `scoreCandidates(userId)` up to the storage update, with the liked and
      candidate rows given. */
  method ScoreCandidates(liked: seq<TokenRow>, candidates: seq<TokenRow>) returns (updates: seq<(string, real)>)
    ensures updates == CandidateScores(liked, candidates)
  {
    var entries := LikedRanks(liked);
    var pr := PrMapOf(entries);
    updates := ScoreRows(pr, candidates);
  }

  /** `personalizedPageRank(buildGraph(..), buildSeedFreq(..), { alpha: 0.2, iters: 30 })`. */
  method LikedRanks(liked: seq<TokenRow>) returns (pr: seq<(string, real)>)
    ensures pr == LikedScores(liked)
  {
    var keys, freq := BuildSeedFreq(liked);
    var seeds := seq(|keys|, i requires 0 <= i < |keys| => (keys[i], if keys[i] in freq then freq[keys[i]] as real else 0.0));
    var g := BuildGraph(liked);
    CoGraphVertices(liked);
    assert seeds == SeedEntries(Unique(AllTokens(liked)), SeedFreq(liked));
    pr := PersonalizedPageRank(g, seeds, ALPHA, ITERS);
  }

  /** The rank map, filled entry by entry. */
  method PrMapOf(entries: seq<(string, real)>) returns (pr: map<string, real>)
    ensures pr == PrMap(entries)
  {
    pr := map[];
    for i := 0 to |entries|
      invariant pr == PrMap(entries[..i])
    {
      assert Init(entries[..i + 1]) == entries[..i];
      pr := pr[entries[i].0 := entries[i].1];
    }
    assert entries[..|entries|] == entries;
  }
}
