/** Keyword-driven recommendation (`src/reco.js`): the search queries built
    from the diary keywords, the pool gathered from the searches, its
    deduplication by track id, the keyword score, and the top of the pool
    by descending score. The track search is a function parameter. */
module Reco {
  import opened Wrappers
  import opened Seqs
  import opened Strings
  import opened Sorting

  /** A track as `toTrack` shapes it; a missing `name` is `""`, and `score`
      is the field that `recommend` adds. Links and images are not read by
      anything here and are left out. */
  datatype RecoTrack = RecoTrack(id: string, title: string, artists: seq<string>, popularity: nat, score: real)

  /** The default `topK` of `recommend`. */
  const DefaultTopK: int := 20

  // ---------------------------------------------------------------------
  // buildQueries

  /** The queries used when no keyword survives. */
  const DefaultQueries: seq<string> := ["chill instrumental", "lofi beats"]

  /** At most this many keywords go into the queries. */
  const MaxKeywords: int := 6

  /** `s.length >= 2`. */
  predicate LongEnough(s: string)
  {
    |s| >= 2
  }

  /** `kw` of `buildQueries`: the non-empty keywords, trimmed, of length at
      least 2, the first six of them. */
  function KeptKeywords(keywords: seq<string>): seq<string>
  {
    Prefix(Filter(TrimAll(Filter(keywords, NonEmpty)), LongEnough), MaxKeywords)
  }

  /** `buildQueries(keywords)`. */
  function BuildQueries(keywords: seq<string>): seq<string>
  {
    var kw := KeptKeywords(keywords);
    if kw == [] then DefaultQueries
    else GrowingJoins(kw)
  }

  /** The kept keywords are at most six trimmed strings of length at least
      2, taken in order from the trimmed non-empty keywords. */
  lemma KeptKeywordsProperties(keywords: seq<string>)
    ensures var kw := KeptKeywords(keywords);
            && |kw| <= MaxKeywords
            && (forall k :: 0 <= k < |kw| ==> Trimmed(kw[k]) && |kw[k]| >= 2)
            && Subseq(kw, TrimAll(Filter(keywords, NonEmpty)))
  {
    PrefixFilterSubseq(TrimAll(Filter(keywords, NonEmpty)), LongEnough, MaxKeywords);
    KeptTrimmed(Filter(keywords, NonEmpty));
  }

  /** Every string kept from the trimmed ones is trimmed and at least two
      long. */
  lemma KeptTrimmed(g: seq<string>)
    ensures var kw := Prefix(Filter(TrimAll(g), LongEnough), MaxKeywords);
            forall k :: 0 <= k < |kw| ==> Trimmed(kw[k]) && |kw[k]| >= 2
  {
    var ts := TrimAll(g);
    var f := Filter(ts, LongEnough);
    var kw := Prefix(f, MaxKeywords);
    forall k | 0 <= k < |kw| ensures Trimmed(kw[k]) && |kw[k]| >= 2 {
      assert kw[k] == f[k];
      var i :| 0 <= i < |ts| && ts[i] == f[k];
      TrimmedOfTrim(g[i]);
    }
  }

  /** The default queries are used exactly when no keyword trims to two
      characters or more. */
  lemma BuildQueriesDefault(keywords: seq<string>)
    ensures BuildQueries(keywords) == DefaultQueries <==>
              forall j :: 0 <= j < |keywords| ==> |Trim(keywords[j])| < 2
  {
    if KeptKeywords(keywords) != [] {
      assert |BuildQueries(keywords)| == 3;
      var j := KeptShort(keywords);
    } else {
      forall j | 0 <= j < |keywords| ensures |Trim(keywords[j])| < 2 {
        if |Trim(keywords[j])| >= 2 {
          KeptLong(keywords, j);
        }
      }
    }
  }

  /** Some keyword kept is a keyword that trims to two characters or more. */
  lemma KeptShort(keywords: seq<string>) returns (j: nat)
    requires KeptKeywords(keywords) != []
    ensures j < |keywords| && |Trim(keywords[j])| >= 2
  {
    var g := Filter(keywords, NonEmpty);
    var ts := TrimAll(g);
    var f := Filter(ts, LongEnough);
    assert f[0] in ts;
    var i :| 0 <= i < |ts| && ts[i] == f[0];
    assert g[i] in keywords;
    j :| 0 <= j < |keywords| && keywords[j] == g[i];
  }

  /** A keyword that trims to two characters or more leaves some keyword
      kept. */
  lemma KeptLong(keywords: seq<string>, j: nat)
    requires j < |keywords| && |Trim(keywords[j])| >= 2
    ensures KeptKeywords(keywords) != []
  {
    var g := Filter(keywords, NonEmpty);
    var ts := TrimAll(g);
    assert keywords[j] != "";
    assert keywords[j] in g;
    var i :| 0 <= i < |g| && g[i] == keywords[j];
    assert ts[i] in Filter(ts, LongEnough);
  }

  /** With kept keywords there are three trimmed queries, each the start of
      the next, the last joining every kept keyword. */
  lemma BuildQueriesShape(keywords: seq<string>)
    requires KeptKeywords(keywords) != []
    ensures var qs := BuildQueries(keywords);
            && |qs| == 3
            && (forall k :: 0 <= k < 3 ==> Trimmed(qs[k]))
            && StartsWith(qs[1], qs[0]) && StartsWith(qs[2], qs[1])
            && qs[2] == Join(KeptKeywords(keywords), " ")
  {
    var kw := KeptKeywords(keywords);
    KeptKeywordsProperties(keywords);
    GrowingJoinsTrimmed(kw);
    GrowingJoinsPrefixes(kw);
  }

  // ---------------------------------------------------------------------
  // score

  /** A keyword that adds 8: non-empty once lower-cased and found in the
      lower-cased title or artists. */
  function KeywordHit(titleLower: string, artistsLower: string): string -> bool
  {
    k => Lower(k) != "" && (Contains(titleLower, Lower(k)) || Contains(artistsLower, Lower(k)))
  }

  /** `score(track, {keywords})`: 8 per matching keyword plus a tenth of the
      popularity. */
  function Score(t: RecoTrack, keywords: seq<string>): real
  {
    8.0 * |Filter(keywords, KeywordHit(Lower(t.title), Lower(Join(t.artists, " "))))| as real
    + t.popularity as real * 0.1
  }

  /** The loop of `score`, accumulating `s`. */
  method ScoreTrack(t: RecoTrack, keywords: seq<string>) returns (s: real)
    ensures s == Score(t, keywords)
  {
    s := 0.0;
    var title := Lower(t.title);
    var artists := Lower(Join(t.artists, " "));
    for i := 0 to |keywords|
      invariant s == 8.0 * |Filter(keywords[..i], KeywordHit(title, artists))| as real
    {
      FilterSnoc(keywords, i, KeywordHit(title, artists));
      var kw := Lower(keywords[i]);
      if kw != "" && (Contains(title, kw) || Contains(artists, kw)) {
        s := s + 8.0;
      }
    }
    assert keywords[..|keywords|] == keywords;
    s := s + t.popularity as real * 0.1;
  }

  /** The score is at least a tenth of the popularity and at most that plus
      8 per keyword. */
  lemma ScoreBounds(t: RecoTrack, keywords: seq<string>)
    ensures t.popularity as real * 0.1 <= Score(t, keywords)
    ensures Score(t, keywords) <= t.popularity as real * 0.1 + 8.0 * |keywords| as real
  {
  }

  /** A keyword appended to the list adds exactly 8 when it matches and
      nothing otherwise. */
  lemma ScoreKeyword(t: RecoTrack, keywords: seq<string>, k: string)
    ensures Score(t, keywords + [k])
         == Score(t, keywords) + (if KeywordHit(Lower(t.title), Lower(Join(t.artists, " ")))(k) then 8.0 else 0.0)
  {
    assert Init(keywords + [k]) == keywords && Last(keywords + [k]) == k;
  }

  /** The score does not read the `score` field. */
  lemma ScoreIgnoresScore(t: RecoTrack, keywords: seq<string>, x: real)
    ensures Score(t.(score := x), keywords) == Score(t, keywords)
  {
    var u := t.(score := x);
    assert u.title == t.title && u.artists == t.artists && u.popularity == t.popularity;
  }

  // ---------------------------------------------------------------------
  // dedup

  /** `dedup(arr, keyFn)`: the loop over `arr` with the set `seen`, proved
      against `DedupBy`. */
  method Dedup<T, K(==)>(arr: seq<T>, key: T -> K) returns (out: seq<T>)
    ensures out == DedupBy(arr, key)
  {
    var seen: set<K> := {};
    out := [];
    for i := 0 to |arr|
      invariant out == DedupBy(arr[..i], key)
      invariant seen == KeysOf(arr[..i], key)
    {
      DedupBySnoc(arr, i, key);
      var k := key(arr[i]);
      if k !in seen {
        seen := seen + {k};
        out := out + [arr[i]];
      }
    }
    assert arr[..|arr|] == arr;
  }

  // ---------------------------------------------------------------------
  // recommend

  function TrackId(t: RecoTrack): string
  {
    t.id
  }

  function ScoreOf(t: RecoTrack): real
  {
    t.score
  }

  /** `pool`: the results of the searches for `qList`, in query order. */
  function Pool(qList: seq<string>, search: string -> seq<RecoTrack>): seq<RecoTrack>
  {
    if qList == [] then [] else Pool(Init(qList), search) + search(Last(qList))
  }

  /** Every pooled track was returned by the search for one of the
      queries, and every returned track is pooled. */
  lemma {:induction false} PoolMembers(qList: seq<string>, search: string -> seq<RecoTrack>)
    ensures forall x :: x in Pool(qList, search) <==> exists i :: 0 <= i < |qList| && x in search(qList[i])
  {
    if qList != [] {
      PoolMembers(Init(qList), search);
      assert forall i :: 0 <= i < |Init(qList)| ==> Init(qList)[i] == qList[i];
    }
  }

  /** The tracks with their scores filled in. */
  function Rescored(ts: seq<RecoTrack>, keywords: seq<string>): (r: seq<RecoTrack>)
    ensures |r| == |ts|
  {
    seq(|ts|, i requires 0 <= i < |ts| => ts[i].(score := Score(ts[i], keywords)))
  }

  /** The scored, deduplicated pool sorted by descending score. */
  function Ranked(pool: seq<RecoTrack>, keywords: seq<string>): seq<RecoTrack>
  {
    SortDesc(Rescored(DedupBy(pool, TrackId), keywords), ScoreOf)
  }

  /** The first `topK` of the ranked pool. */
  function Top(pool: seq<RecoTrack>, keywords: seq<string>, topK: int): seq<RecoTrack>
  {
    Prefix(Ranked(pool, keywords), topK)
  }

  /** What `recommend` returns. */
  function Recommended(keywords: seq<string>, search: string -> seq<RecoTrack>, topK: int): seq<RecoTrack>
  {
    Top(Pool(BuildQueries(keywords), search), keywords, topK)
  }

  /** `recommend(profile, opts)`, with the searches given by `search`. */
  method Recommend(keywords: seq<string>, search: string -> seq<RecoTrack>, topK: int)
    returns (r: seq<RecoTrack>)
    ensures r == Recommended(keywords, search, topK)
  {
    var qList := BuildQueries(keywords);
    var pool := CollectPool(qList, search);
    var uniq := Dedup(pool, TrackId);
    uniq := RescoreAll(uniq, keywords);
    r := Prefix(SortDesc(uniq, ScoreOf), topK);
  }

  /** The loops that push every search result into `pool`. */
  method CollectPool(qList: seq<string>, search: string -> seq<RecoTrack>) returns (pool: seq<RecoTrack>)
    ensures pool == Pool(qList, search)
  {
    pool := [];
    for i := 0 to |qList|
      invariant pool == Pool(qList[..i], search)
    {
      var items := search(qList[i]);
      ghost var before := pool;
      for j := 0 to |items|
        invariant pool == before + items[..j]
      {
        pool := pool + [items[j]];
        assert items[..j + 1] == items[..j] + [items[j]];
      }
      assert items[..|items|] == items;
      assert Init(qList[..i + 1]) == qList[..i] && Last(qList[..i + 1]) == qList[i];
    }
    assert qList[..|qList|] == qList;
  }

  /** `for (const tr of uniq) tr.score = score(tr, {keywords})`. */
  method RescoreAll(uniq: seq<RecoTrack>, keywords: seq<string>) returns (out: seq<RecoTrack>)
    ensures out == Rescored(uniq, keywords)
  {
    out := uniq;
    for i := 0 to |uniq|
      invariant |out| == |uniq|
      invariant forall k :: 0 <= k < i ==> out[k] == uniq[k].(score := Score(uniq[k], keywords))
      invariant forall k :: i <= k < |uniq| ==> out[k] == uniq[k]
    {
      var s := ScoreTrack(out[i], keywords);
      out := out[i := out[i].(score := s)];
    }
  }

  /** Scores fill in the deduplicated tracks and nothing else: every scored
      track carries its own score and the same id as before. */
  lemma RescoredScores(ts: seq<RecoTrack>, keywords: seq<string>)
    ensures forall k :: 0 <= k < |ts| ==>
              Rescored(ts, keywords)[k].id == ts[k].id
              && Rescored(ts, keywords)[k].score == Score(Rescored(ts, keywords)[k], keywords)
  {
    forall k | 0 <= k < |ts|
      ensures Rescored(ts, keywords)[k].score == Score(Rescored(ts, keywords)[k], keywords)
    {
      ScoreIgnoresScore(ts[k], keywords, Score(ts[k], keywords));
    }
  }

  /** At most `topK` tracks when `topK` is not negative, and never more
      than the pool holds. */
  lemma TopBound(pool: seq<RecoTrack>, keywords: seq<string>, topK: int)
    ensures var r := Top(pool, keywords, topK);
            && (topK >= 0 ==> |r| <= topK)
            && |r| <= |pool|
  {
    DedupBySubseq(pool, TrackId);
    SubseqElements(DedupBy(pool, TrackId), pool);
  }

  /** The recommended tracks have non-increasing scores, and every ranked
      track left out scores no more than any track kept. */
  lemma TopOrder(pool: seq<RecoTrack>, keywords: seq<string>, topK: int)
    ensures var r := Top(pool, keywords, topK);
            var ranked := Ranked(pool, keywords);
            && (forall a, b :: 0 <= a < b < |r| ==> r[a].score >= r[b].score)
            && (forall a, b :: 0 <= a < |r| <= b < |ranked| ==> r[a].score >= ranked[b].score)
  {
    SortDescPrefix(Rescored(DedupBy(pool, TrackId), keywords), ScoreOf, topK);
  }

  /** The recommended ids are pairwise distinct, every track carries its
      own score, and every track is a track of the pool with its score
      filled in. */
  lemma TopTracks(pool: seq<RecoTrack>, keywords: seq<string>, topK: int)
    ensures var r := Top(pool, keywords, topK);
            && (forall a, b :: 0 <= a < b < |r| ==> r[a].id != r[b].id)
            && (forall k :: 0 <= k < |r| ==> r[k].score == Score(r[k], keywords))
            && (forall k :: 0 <= k < |r| ==> r[k] in Rescored(pool, keywords))
  {
    var uniq := DedupBy(pool, TrackId);
    var scored := Rescored(uniq, keywords);
    var p := (t: RecoTrack) => t.score == Score(t, keywords) && t in Rescored(pool, keywords);
    RescoredScores(uniq, keywords);
    DedupByDistinctKeys(pool, TrackId);
    ScoredFromPool(pool, keywords);
    assert forall k :: 0 <= k < |scored| ==> p(scored[k]);
    TopOfScored(scored, topK, p);
  }

  /** The first `topK` of sorted tracks keep the ids pairwise distinct and
      keep any property every track has. */
  lemma TopOfScored(scored: seq<RecoTrack>, topK: int, p: RecoTrack -> bool)
    requires forall a, b :: 0 <= a < b < |scored| ==> scored[a].id != scored[b].id
    requires forall k :: 0 <= k < |scored| ==> p(scored[k])
    ensures var r := Prefix(SortDesc(scored, ScoreOf), topK);
            && (forall a, b :: 0 <= a < b < |r| ==> r[a].id != r[b].id)
            && (forall k :: 0 <= k < |r| ==> p(r[k]))
  {
    var ranked := SortDesc(scored, ScoreOf);
    var r := Prefix(ranked, topK);
    SortDescDistinct(scored, ScoreOf, TrackId);
    SortDescMembers(scored, ScoreOf);
    forall k | 0 <= k < |r| ensures p(r[k]) {
      assert r[k] == ranked[k];
      var i :| 0 <= i < |scored| && scored[i] == ranked[k];
    }
  }

  /** Every track of the scored, deduplicated pool is a scored track of the
      pool. */
  lemma ScoredFromPool(pool: seq<RecoTrack>, keywords: seq<string>)
    ensures forall x :: x in Rescored(DedupBy(pool, TrackId), keywords) ==> x in Rescored(pool, keywords)
  {
    var uniq := DedupBy(pool, TrackId);
    DedupBySubseq(pool, TrackId);
    SubseqElements(uniq, pool);
    forall x | x in Rescored(uniq, keywords) ensures x in Rescored(pool, keywords) {
      var i :| 0 <= i < |uniq| && Rescored(uniq, keywords)[i] == x;
      assert uniq[i] in pool;
      var j :| 0 <= j < |pool| && pool[j] == uniq[i];
      assert Rescored(pool, keywords)[j] == x;
    }
  }

  /** Fewer than `topK` recommendations means every id of the pool was
      recommended. */
  lemma TopComplete(pool: seq<RecoTrack>, keywords: seq<string>, topK: int)
    ensures var r := Top(pool, keywords, topK);
            |r| < topK ==> KeysOf(r, TrackId) == KeysOf(pool, TrackId)
  {
    var uniq := DedupBy(pool, TrackId);
    var scored := Rescored(uniq, keywords);
    PrefixWhole(SortDesc(scored, ScoreOf), topK);
    DedupByKeys(pool, TrackId);
    RescoredKeys(uniq, keywords);
    SortDescKeysOf(scored, ScoreOf, TrackId);
  }

  /** Scoring keeps the set of ids. */
  lemma RescoredKeys(ts: seq<RecoTrack>, keywords: seq<string>)
    ensures KeysOf(Rescored(ts, keywords), TrackId) == KeysOf(ts, TrackId)
  {
    var r := Rescored(ts, keywords);
    assert forall k :: 0 <= k < |ts| ==> r[k].id == ts[k].id;
  }
}
