/** The list logic of the YouTube routes (`src/routes/youtube.js`): the
    limits on queries and stored candidates in `searchAndStoreCandidates`,
    and the per-channel cap and top-K cut of `/youtube/recommend`. The
    database, the OAuth client and the searches are parameters. */
module YouTubeRoutes {
  import opened Wrappers
  import opened Seqs
  import PprGraph
  import PprQueries
  import YouTube

  /** At most this many queries are searched. */
  const QueryMax: int := 4

  /** The `perQuery` asked of `searchByQueries`. */
  const SearchPerQuery: int := 100

  /** At most this many candidates are stored. */
  const CandidateHardLimit: int := 200

  /** At most this many rows are shown. */
  const TopK: nat := 50

  /** At most this many rows per channel are shown. */
  const PerArtist: nat := 3

  // ---------------------------------------------------------------------
  // searchAndStoreCandidates

  /** `{ queries, count }`. */
  datatype SearchSummary = SearchSummary(queries: seq<string>, count: nat)

  /** The search responses for `queries`, one per query in order, with the
      items `search` gives for it. */
  function Responses(queries: seq<string>, search: string -> seq<YouTube.SearchItem>): (rs: seq<YouTube.SearchResponse>)
    ensures |rs| == |queries| && forall i :: 0 <= i < |queries| ==> rs[i].query == queries[i]
  {
    seq(|queries|, i requires 0 <= i < |queries| => YouTube.SearchResponse(queries[i], search(queries[i])))
  }

  /** The candidates `searchByQueries` returns for `queries`. */
  function Searched(queries: seq<string>, search: string -> seq<YouTube.SearchItem>,
                    durationItems: seq<YouTube.DurationItem>): seq<YouTube.Candidate>
  {
    var responses := Responses(queries, search);
    Filter(YouTube.Annotated(YouTube.Candidates(responses), YouTube.DurationMap(durationItems)),
           YouTube.NotShortCandidate)
  }

  /** `searchAndStoreCandidates(userId, auth)` on the given liked rows, up
      to the database writes: it returns the summary and the candidates
      handed to `upsertCandidates`. */
  method SearchAndStoreCandidates(liked: seq<PprGraph.TokenRow>, search: string -> seq<YouTube.SearchItem>,
                                  durationItems: seq<YouTube.DurationItem>)
    returns (summary: SearchSummary, stored: seq<YouTube.Candidate>)
    ensures summary.queries == Prefix(PprQueries.LikedQueries(liked), QueryMax)
    ensures stored == Prefix(Searched(summary.queries, search, durationItems), CandidateHardLimit)
    ensures summary.count == |stored|
  {
    var all := PprQueries.BuildQueriesFromLiked(liked);
    var queries := Prefix(all, QueryMax);
    var cand := YouTube.SearchByQueries(Responses(queries, search), durationItems);
    cand := Prefix(cand, CandidateHardLimit);
    summary := SearchSummary(queries, |cand|);
    stored := cand;
  }

  /** At most four queries and 200 stored candidates, the stored ones the
      first of those searched; the four-query cut never removes a query,
      since the query policy yields at most four. */
  lemma SearchLimits(liked: seq<PprGraph.TokenRow>, search: string -> seq<YouTube.SearchItem>,
                     durationItems: seq<YouTube.DurationItem>)
    ensures var queries := Prefix(PprQueries.LikedQueries(liked), QueryMax);
            var stored := Prefix(Searched(queries, search, durationItems), CandidateHardLimit);
            && |queries| <= QueryMax
            && queries == PprQueries.LikedQueries(liked)
            && |stored| <= CandidateHardLimit
            && StartsWithAll(Searched(queries, search, durationItems), stored)
  {
    var all := PprQueries.LikedQueries(liked);
    PprQueries.LikedQueriesProperties(liked);
    assert all[..|all|] == all;
  }

  /** `p` is a prefix of `s`. */
  predicate StartsWithAll<T(==)>(s: seq<T>, p: seq<T>)
  {
    |p| <= |s| && s[..|p|] == p
  }

  // ---------------------------------------------------------------------
  // The selection loop of /youtube/recommend

  /** A row of the top-candidates query; `channelTitle` is `""` when the
      column is null. */
  datatype CandidateRow = CandidateRow(videoId: string, title: string, channelTitle: string,
                                       thumbnailUrl: Option<string>, score: real)

  /** `r.channel_title || "unknown"`. */
  function ChannelKey(r: CandidateRow): string
  {
    if r.channelTitle != "" then r.channelTitle else "unknown"
  }

  /** How many of `rows` fall under channel key `key`. */
  function KeyCount(rows: seq<CandidateRow>, key: string): nat
  {
    if rows == [] then 0
    else KeyCount(Init(rows), key) + (if ChannelKey(Last(rows)) == key then 1 else 0)
  }

  lemma KeyCountSnoc(rows: seq<CandidateRow>, r: CandidateRow, key: string)
    ensures KeyCount(rows + [r], key) == KeyCount(rows, key) + (if ChannelKey(r) == key then 1 else 0)
  {
    assert Init(rows + [r]) == rows && Last(rows + [r]) == r;
  }

  /** `rows` after the loop has looked at the first `n` fetched rows: a row
      is taken unless 50 are already taken or its channel has 3. */
  function Selected(rowsRaw: seq<CandidateRow>, n: nat): seq<CandidateRow>
    requires n <= |rowsRaw|
  {
    if n == 0 then []
    else
      var picked := Selected(rowsRaw, n - 1);
      var r := rowsRaw[n - 1];
      if |picked| >= TopK || KeyCount(picked, ChannelKey(r)) >= PerArtist then picked
      else picked + [r]
  }

  /** The rows shown. */
  function Selection(rowsRaw: seq<CandidateRow>): seq<CandidateRow>
  {
    Selected(rowsRaw, |rowsRaw|)
  }

  /** The loop with the `seen` map and its `break`, proved against
      `Selection`. */
  method SelectRows(rowsRaw: seq<CandidateRow>) returns (rows: seq<CandidateRow>)
    ensures rows == Selection(rowsRaw)
  {
    var seen: map<string, nat> := map[];
    rows := [];
    var i := 0;
    assert rows == Selected(rowsRaw, 0) && SeenCounts(seen, rows);
    while i < |rowsRaw|
      invariant i <= |rowsRaw|
      invariant rows == Selected(rowsRaw, i) && |rows| < TopK
      invariant SeenCounts(seen, rows)
    {
      var full;
      rows, seen, full := SelectStep(rowsRaw, i, rows, seen);
      i := i + 1;
      if full {
        return;
      }
    }
    assert i == |rowsRaw|;
  }

  /** `seen` maps each channel key to its number of rows taken, and holds
      no key without one. */
  ghost predicate SeenCounts(seen: map<string, nat>, rows: seq<CandidateRow>)
  {
    && (forall k :: k in seen ==> seen[k] == KeyCount(rows, k))
    && (forall k :: k !in seen ==> KeyCount(rows, k) == 0)
  }

  /** One pass of the loop body: a row whose channel has 3 rows is skipped
      (`continue`); any other is counted and taken, and `full` reports
      that 50 rows are taken (`break`). */
  method SelectStep(rowsRaw: seq<CandidateRow>, i: nat, rows: seq<CandidateRow>, seen: map<string, nat>)
    returns (rows': seq<CandidateRow>, seen': map<string, nat>, full: bool)
    requires i < |rowsRaw| && rows == Selected(rowsRaw, i) && |rows| < TopK && SeenCounts(seen, rows)
    ensures rows' == Selected(rowsRaw, i + 1) && SeenCounts(seen', rows')
    ensures full <==> |rows'| >= TopK
    ensures full ==> rows' == Selection(rowsRaw)
  {
    var r := rowsRaw[i];
    var key := if r.channelTitle != "" then r.channelTitle else "unknown";
    var cnt := if key in seen then seen[key] else 0;
    assert key == ChannelKey(r);
    SelectedNext(rowsRaw, i);
    if cnt >= PerArtist {
      return rows, seen, false;
    }
    SeenCountsAdd(seen, rows, r, key, cnt);
    seen' := seen[key := cnt + 1];
    rows' := rows + [r];
    full := |rows'| >= TopK;
    if full {
      SelectedSaturated(rowsRaw, i + 1, |rowsRaw|);
    }
  }

  /** The next fetched row is taken unless 50 are taken or its channel has
      3. */
  lemma SelectedNext(rowsRaw: seq<CandidateRow>, i: nat)
    requires i < |rowsRaw|
    ensures var picked := Selected(rowsRaw, i);
            Selected(rowsRaw, i + 1)
            == if |picked| >= TopK || KeyCount(picked, ChannelKey(rowsRaw[i])) >= PerArtist then picked
               else picked + [rowsRaw[i]]
  {
  }

  /** Counting a taken row in `seen`. */
  lemma SeenCountsAdd(seen: map<string, nat>, rows: seq<CandidateRow>, r: CandidateRow, key: string, cnt: nat)
    requires SeenCounts(seen, rows) && key == ChannelKey(r) && cnt == (if key in seen then seen[key] else 0)
    ensures SeenCounts(seen[key := cnt + 1], rows + [r])
  {
    forall k ensures KeyCount(rows + [r], k) == KeyCount(rows, k) + (if ChannelKey(r) == k then 1 else 0) {
      KeyCountSnoc(rows, r, k);
    }
  }

  /** Once 50 rows are taken nothing more is taken. */
  lemma {:induction false} SelectedSaturated(rowsRaw: seq<CandidateRow>, n: nat, m: nat)
    requires n <= m <= |rowsRaw| && |Selected(rowsRaw, n)| >= TopK
    ensures Selected(rowsRaw, m) == Selected(rowsRaw, n)
    decreases m
  {
    if m > n {
      SelectedSaturated(rowsRaw, n, m - 1);
    }
  }

  /** At most 50 rows are shown. */
  lemma {:induction false} SelectedBound(rowsRaw: seq<CandidateRow>, n: nat)
    requires n <= |rowsRaw|
    ensures |Selected(rowsRaw, n)| <= TopK
  {
    if n > 0 {
      SelectedBound(rowsRaw, n - 1);
    }
  }

  /** No channel key has more than 3 rows shown. */
  lemma {:induction false} SelectedCap(rowsRaw: seq<CandidateRow>, n: nat)
    requires n <= |rowsRaw|
    ensures forall key :: KeyCount(Selected(rowsRaw, n), key) <= PerArtist
  {
    if n > 0 {
      SelectedCap(rowsRaw, n - 1);
      var picked := Selected(rowsRaw, n - 1);
      var r := rowsRaw[n - 1];
      forall key ensures KeyCount(picked + [r], key) == KeyCount(picked, key) + (if ChannelKey(r) == key then 1 else 0) {
        KeyCountSnoc(picked, r, key);
      }
    }
  }

  /** The rows shown are fetched rows, in the order fetched. */
  lemma {:induction false} SelectedSubseq(rowsRaw: seq<CandidateRow>, n: nat)
    requires n <= |rowsRaw|
    ensures Subseq(Selected(rowsRaw, n), rowsRaw[..n])
  {
    if n == 0 {
      SubseqEmpty(rowsRaw[..0]);
    } else {
      SelectedSubseq(rowsRaw, n - 1);
      var picked := Selected(rowsRaw, n - 1);
      assert rowsRaw[..n] == rowsRaw[..n - 1] + [rowsRaw[n - 1]];
      if Selected(rowsRaw, n) == picked {
        SubseqSkip(picked, rowsRaw[..n - 1], rowsRaw[n - 1]);
      } else {
        SubseqKeep(picked, rowsRaw[..n - 1], rowsRaw[n - 1]);
      }
    }
  }

  /** While fewer than 50 rows are taken, every channel key has exactly
      its first three fetched rows taken (all of them when it has fewer):
      a row is skipped only when its channel already has three. */
  lemma {:induction false} SelectedComplete(rowsRaw: seq<CandidateRow>, n: nat)
    requires n <= |rowsRaw|
    ensures |Selected(rowsRaw, n)| < TopK ==>
              forall key :: KeyCount(Selected(rowsRaw, n), key) == Min(PerArtist, KeyCount(rowsRaw[..n], key))
  {
    if n > 0 && |Selected(rowsRaw, n)| < TopK {
      var picked := Selected(rowsRaw, n - 1);
      var r := rowsRaw[n - 1];
      assert |picked| <= |Selected(rowsRaw, n)|;
      SelectedComplete(rowsRaw, n - 1);
      assert rowsRaw[..n] == rowsRaw[..n - 1] + [r];
      forall key
        ensures KeyCount(Selected(rowsRaw, n), key) == Min(PerArtist, KeyCount(rowsRaw[..n], key))
      {
        KeyCountSnoc(rowsRaw[..n - 1], r, key);
        KeyCountSnoc(picked, r, key);
      }
    }
  }

  /** The selection: at most 50 rows, at most 3 per channel key, taken in
      order from the fetched rows; when fewer than 50 are shown, each key
      shows as many rows as it has, up to 3. */
  lemma SelectionProperties(rowsRaw: seq<CandidateRow>)
    ensures var rows := Selection(rowsRaw);
            && |rows| <= TopK
            && (forall key :: KeyCount(rows, key) <= PerArtist)
            && Subseq(rows, rowsRaw)
            && (|rows| < TopK ==> forall key :: KeyCount(rows, key) == Min(PerArtist, KeyCount(rowsRaw, key)))
  {
    var n := |rowsRaw|;
    SelectedBound(rowsRaw, n);
    SelectedCap(rowsRaw, n);
    SelectedSubseq(rowsRaw, n);
    SelectedComplete(rowsRaw, n);
    assert rowsRaw[..n] == rowsRaw;
  }
}
