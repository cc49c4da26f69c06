# Emotion-based Music Diary: a Dafny model of the ranking engine and its list rules

Emotion-based Music Diary recommends music in two ways. From a diary entry,
a language model reads the mood, keywords and genres, and Spotify searches
built from them are scored and capped per artist. From a user's liked YouTube
videos, a language model tokenizes each video into artists and keywords. A
personalised PageRank over the token co-occurrence graph then ranks those
tokens. The ranking synthesises YouTube search queries, and it scores the
candidate videos the searches return. The page shows the top candidates, at
most three per channel.

This project models the core of that pipeline once every API answer, database
read and `JSON.parse` result is given as an input:

- `ppr_graph.dfy` (`PprGraph`) builds the co-occurrence graph and the seed
  weights.
- `ppr_rank.dfy` (`PageRank`) is the power iteration, over `real`.
- `ppr_queries.dfy` (`PprQueries`) holds the query policy of
  `buildQueriesFromLiked` and the candidate scores of `scoreCandidates`.
- `spotify.dfy` (`Spotify`) covers query cleaning, the mood queries,
  deduplication by id and by best score, the track score, the per-artist cap
  and `recommendTracks`.
- `youtube.dfy` (`YouTube`) covers the ISO 8601 duration reader for the
  `PT#H#M#S` form (section 4.4.3.2 of ISO 8601:2004), the shorts filter, the
  liked-id paging and batching, the category and shorts filters of the like
  sync, and the first-wins candidate deduplication of the search.
- `tokenize.dfy` (`Tokenize`) and `responses.dfy` (`Responses`) cover the
  tokenizer: source table choice, the todo filter, chunking, text extraction
  from a Responses API result, the lenient JSON reading, item alignment and
  the per-item caps.
- `openai.dfy` (`OpenAi`) is the diary analysis: list and number
  normalisation, with a record of every fallback kept in a `FallbackLog`
  object, and the fallback queries.
- `reco.dfy` (`Reco`) is the keyword recommender: queries, dedup, score and
  top-K.
- `routes_youtube.dfy` (`YouTubeRoutes`) holds the slice limits of the
  candidate search and the per-channel selection loop of the recommendation
  page.
- `seqs.dfy`, `strings.dfy`, `sorting.dfy`, `json.dfy` and `wrappers.dfy`
  hold the shared pieces:
  - JavaScript's `filter`, `slice`, `trim`, `join`, `indexOf` and
    `lastIndexOf`;
  - the `Set`-based dedups;
  - a stable descending sort;
  - JSON values.

Loops in the source are methods with loop invariants. Each method is proved
to return a specification function of its inputs, and the properties the
code promises are lemmas about those functions.

## Model

| member | source | states |
|---|---|---|
| PprGraph.CoGraphVertices | src/ppr.js:22-42 | the vertices are pairwise distinct, are exactly the tokens of all rows, keep first-seen order (artists then keywords, row by row), and `index` maps each vertex to its own position |
| PprGraph.CoGraphEdges | src/ppr.js:53-67 | the adjacency is symmetric, has no `adj[a][a]` entry, and the weight of `(a, b)` is the number of rows whose token list holds both tokens |
| PprGraph.CoCountSymmetric | src/ppr.js:64-65 | the number of rows holding both `x` and `y` does not depend on their order |
| PprGraph.CoCountSelf | src/ppr.js:55-57 | a token is never paired with itself, because pairs come from a deduplicated row with `j > i` |
| PprGraph.CoRow | src/ppr.js:49-67 | the neighbours of a vertex are vertex numbers with positive weights, each weight the number of rows shared |
| PprGraph.IndexMap | src/ppr.js:42 | the index has exactly the tokens as keys |
| PprGraph.IndexMapInverse | src/ppr.js:39-42 | for distinct tokens, `index` and `tokens` are inverse to each other |
| PprGraph.BumpWeight | src/ppr.js:64-65 | the two updates add one to the weight of `a -> b` and of `b -> a`, and add no other key |
| PprGraph.BumpPair | src/ppr.js:64-65 | the two `set` calls on the adjacency array leave it equal to `Bump` of the old array |
| PprGraph.HitsCount | src/ppr.js:56-57 | the inner loop over `j > i` meets the pair `(x, y)` as often as the later part of the row holds the partner |
| PprGraph.PairsBeforeValue | src/ppr.js:55-57 | in a row without repeats, a pair of different tokens is counted exactly once, and a token with itself never |
| PprGraph.InnerWeight | src/ppr.js:57-66 | the inner loop adds to the weight of `(a, b)` the number of its pairs that match `(a, b)` in either orientation |
| PprGraph.OuterWeight | src/ppr.js:56-67 | the outer loop adds to the weight of `(a, b)` the number of matching pairs `i < j` of the row |
| PprGraph.InnerKeys | src/ppr.js:57-66 | after the inner loop, every key is a vertex number with a positive weight |
| PprGraph.OuterKeys | src/ppr.js:56-67 | after the outer loop, every key is a vertex number with a positive weight |
| PprGraph.RowsWeight | src/ppr.js:53-68 | after all rows, the weight of `(a, b)` is the number of rows holding both tokens |
| PprGraph.RowsKeys | src/ppr.js:53-68 | after all rows, only vertices with a positive weight are keys |
| PprGraph.RowsAdjIsCoGraph | src/ppr.js:49-68 | the adjacency the loops build from empty maps is the one of `CoGraph` |
| PprGraph.CollectTokens | src/ppr.js:22-39 | the vertex collection yields the distinct tokens of all rows in first-seen order |
| PprGraph.AddTokens | src/ppr.js:30-33 | adding one row's tokens keeps the vertex list the distinct tokens seen so far, and the set its members |
| PprGraph.AddRowPairs | src/ppr.js:55-67 | the pair loops for one row leave the adjacency array equal to `OuterAdj` of the old one |
| PprGraph.BuildGraph | src/ppr.js:9-71 | `buildGraph` returns `CoGraph(rows)` |
| PprGraph.CappedCounts | src/ppr.js:150-161 | a token has a weight exactly when it was seen |
| PprGraph.SeedFreqValues | src/ppr.js:152-161 | a token has a seed weight iff it occurs in some row, and the weight is `min(occurrences, 2)`, repeats within a row counted |
| PprGraph.CappedCountsSnoc | src/ppr.js:157-160 | one more token sets its weight to `prev >= 2 ? 2 : prev + 1` |
| PprGraph.BuildSeedFreq | src/ppr.js:141-164 | `buildSeedFreq` returns `SeedFreq(rows)`, with its keys in first-seen order |
| PprGraph.CountTokens | src/ppr.js:156-161 | one row's tokens are counted into the capped map |
| PprGraph.CountToken | src/ppr.js:157-160 | one token is counted into the capped map, a new key appended to the key order |
| PageRank.Zeros | src/ppr.js:117 | a fresh rank vector has one zero per vertex |
| PageRank.SeedVector | src/ppr.js:84-94 | the seed vector has one entry per vertex |
| PageRank.SeedVectorSum | src/ppr.js:85-94 | the seed vector holds `sum`, the total weight of the seeds that are vertices |
| PageRank.SeedVectorAt | src/ppr.js:88-94 | each vertex gets the total weight of its token's seed entries |
| PageRank.Uniform | src/ppr.js:98 | the uniform vector holds `1 / N` for every vertex |
| PageRank.UniformSum | src/ppr.js:98 | the uniform vector sums to 1 |
| PageRank.Personalization | src/ppr.js:84-101 | the personalisation vector has one entry per vertex |
| PageRank.PersonalizationSum | src/ppr.js:96-101 | the personalisation vector sums to 1, whether or not any seed is a vertex |
| PageRank.PersonalizationNonNegative | src/ppr.js:96-101 | with non-negative seed weights the personalisation vector is non-negative |
| PageRank.SeedNonNegative | src/ppr.js:88-94 | with non-negative seed weights the seed vector and its sum are non-negative |
| PageRank.OutDeg | src/ppr.js:109-113 | the out-degree is at least 1, so the division never divides by zero |
| PageRank.FlowZero | src/ppr.js:122 | an edge of weight 0 passes on no rank |
| PageRank.SpreadRow | src/ppr.js:121-123 | spreading a vertex's edges keeps one entry per vertex |
| PageRank.SpreadRowAt | src/ppr.js:121-123 | spreading vertex `i` adds to entry `b` exactly the share `i` passes to `b` |
| PageRank.Spread | src/ppr.js:120-124 | the transfer step keeps one entry per vertex |
| PageRank.SpreadAt | src/ppr.js:120-124 | after the transfer step, entry `b` is the rank flowing into `b` |
| PageRank.AddSeed | src/ppr.js:126 | the personalisation step keeps one entry per vertex |
| PageRank.AddSeedAt | src/ppr.js:126 | the personalisation step adds `alpha * p[b]` to entry `b` |
| PageRank.Round | src/ppr.js:116-128 | one round keeps one entry per vertex |
| PageRank.RoundAt | src/ppr.js:117-127 | a round gives each vertex its inflow over its edges plus `alpha * p[j]` |
| PageRank.Rounds | src/ppr.js:116-128 | `iters` rounds keep one entry per vertex |
| PageRank.InflowNonNegative | src/ppr.js:120-124 | with `alpha <= 1` and a non-negative rank, the inflow is non-negative |
| PageRank.RoundNonNegative | src/ppr.js:116-128 | a round keeps the rank non-negative |
| PageRank.RoundsNonNegative | src/ppr.js:116-128 | any number of rounds keeps the rank non-negative |
| PageRank.Scored | src/ppr.js:131-133 | the output has the entry `(tokens[i], r[i])` at position `i` |
| PageRank.PprScores | src/ppr.js:79-134 | exactly one score per vertex, so an empty map when there are no vertices |
| PageRank.PprScoresProperties | src/ppr.js:79-134 | the scores are in vertex order, one per vertex, none negative |
| PageRank.IsolatedVertexLosesRank | src/ppr.js:109-124 | total rank is not conserved: a lone vertex with out-degree 1 and no edges keeps only the `alpha` share |
| PageRank.SeedLoop | src/ppr.js:84-94 | the seed loop fills `p` with `SeedVector` and `sum` with `SeedSum` |
| PageRank.PersonalizationLoop | src/ppr.js:84-101 | the seed loop and the normalisation fill `p` with `Personalization` |
| PageRank.OutDegrees | src/ppr.js:109-113 | each vertex's out-degree is its total edge weight, or 1 when that is 0 |
| PageRank.SpreadVertex | src/ppr.js:121-123 | the inner transfer loop leaves `nr` equal to `SpreadRow` of the old `nr` |
| PageRank.AddTeleport | src/ppr.js:126 | the personalisation loop leaves `nr` equal to `AddSeed` of the old `nr` |
| PageRank.RoundLoop | src/ppr.js:116-128 | one round of the loop computes `Round` in a fresh array |
| PageRank.Iterate | src/ppr.js:103-128 | `iters` rounds from the uniform vector, with no early exit |
| PageRank.Entries | src/ppr.js:131-133 | the output entries are `Scored(tokens, r)` |
| PageRank.PersonalizedPageRank | src/ppr.js:79-134 | `personalizedPageRank` returns `PprScores` |
| PprQueries.Ranked | src/ppr.js:176-178 | the ranked list has one token per score entry |
| PprQueries.RankedProperties | src/ppr.js:176-178 | the ranked list holds the same tokens, is distinct when they are, and is in non-increasing score order |
| PprQueries.RankedTokens | src/ppr.js:176-178 | a token is ranked iff it has a score entry |
| PprQueries.RankedDistinct | src/ppr.js:176-178 | ranking distinct tokens gives distinct tokens |
| PprQueries.Usage | src/ppr.js:193-196 | the artist usage has at most 4 entries: slot 0 twice, slots 1 and 2 once, each only when truthy |
| PprQueries.Texts | src/ppr.js:202-206 | one query text per usage entry |
| PprQueries.CollectBound | src/ppr.js:202-208 | the query loop keeps at most as many queries as rounds, none empty |
| PprQueries.CollectSaturated | src/ppr.js:203 | once 4 queries are kept, later rounds add nothing |
| PprQueries.QueryPolicyBound | src/ppr.js:202-214 | at most 4 queries, none empty |
| PprQueries.QueryPolicyDistinct | src/ppr.js:211-214 | for a ranked list without repeats, the queries are pairwise distinct |
| PprQueries.QueryPolicyEmpty | src/ppr.js:188-211 | an empty ranked list gives no query; a ranked list whose top token is non-empty gives at least one |
| PprQueries.EmptyTokenGivesNoQuery | src/ppr.js:194-211 | a ranked list holding only the empty token gives no query, since the fallback filters it out |
| PprQueries.QueryPolicyEmptyExact | src/ppr.js:188-211 | for a ranked list without repeats, no query comes back exactly when the list is empty or holds only the empty token |
| PprQueries.SlotsAndKeysDistinct | src/ppr.js:183-190 | for a ranked list without repeats, the slots and the key queue share no token and have none twice; at most 3 slots |
| PprQueries.TopKeysApart | src/ppr.js:183-184 | top artists and top keys are each distinct, and no top key is a top artist |
| PprQueries.QueryStartsWithLead | src/ppr.js:206 | a query starts with its slot token when that has no surrounding blanks |
| PprQueries.LeadQuery | src/ppr.js:187-208 | when the top-ranked token is artist-like, some query starts with it |
| PprQueries.BuildQueries | src/ppr.js:183-214 | the slot, usage and queue loops return `QueryPolicy(ranked)` |
| PprQueries.SlotLoop | src/ppr.js:187-190 | the slot loop yields `Slots` and the remaining key queue |
| PprQueries.UsageOf | src/ppr.js:193-196 | the usage pushes yield `Usage` |
| PprQueries.Shift | src/ppr.js:204-205 | taking from the key queue gives its head, or the empty string when it is empty, and the rest |
| PprQueries.QueueLoop | src/ppr.js:199-208 | the query loop yields `Collect` of the query texts, stopping at 4 |
| PprQueries.QueueRound | src/ppr.js:203-207 | one round takes two keys from the queue and keeps a non-empty query |
| PprQueries.PrMap | src/ppr.js:131-133 | the score map has exactly the ranked tokens as keys |
| PprQueries.PrMapAt | src/ppr.js:131-133 | for distinct tokens, `pr.get(t)` is the score of `t` |
| PprQueries.TokenSumAppend | src/ppr.js:239 | the score sum of `[...artists, ...keywords]` is the sum of both parts |
| PprQueries.TokenSumUnknown | src/ppr.js:239 | a candidate whose tokens are all unknown scores 0 |
| PprQueries.TokenSumLower | src/ppr.js:239 | with non-negative ranks, a candidate scores at least the rank of each of its tokens |
| PprQueries.TokenSumNonNegative | src/ppr.js:239 | with non-negative ranks, every score is non-negative |
| PprQueries.RepeatCountsTwice | src/ppr.js:239 | a token repeated in a candidate is counted twice |
| PprQueries.ScoreRow | src/ppr.js:238-239 | the score loop sums the ranks of the row's tokens, 0 for a missing one |
| PprQueries.ScoreRows | src/ppr.js:235-241 | one `[source_id, score]` update per candidate row, in order |
| PprQueries.SeedEntries | src/ppr.js:171-175 | the seed entries are the `freq` entries in key order |
| PprQueries.LikedScoresProperties | src/ppr.js:171-175 | the ranks are one per distinct liked token, in first-seen order, none negative |
| PprQueries.LikedQueriesProperties | src/ppr.js:170-215 | `buildQueriesFromLiked` returns at most 4 distinct non-empty queries, and none without liked rows |
| PprQueries.CandidateScoresProperties | src/ppr.js:221-241 | each update carries its row's `source_id` and a non-negative score, 0 without liked rows, and at least the rank of each liked token it holds |
| PprQueries.BuildQueriesFromLiked | src/ppr.js:170-215 | the method returns `LikedQueries(liked)` |
| PprQueries.ScoreCandidates | src/ppr.js:221-241 | the method returns `CandidateScores(liked, candidates)` |
| PprQueries.LikedRanks | src/ppr.js:171-175 | seed weights, graph and PageRank with `alpha = 0.2`, `iters = 30` give `LikedScores` |
| PprQueries.PrMapOf | src/ppr.js:224 | the entries become `PrMap(entries)` |
| Spotify.Cleaned | src/spotify.js:103-105 | every kept string is trimmed and non-empty |
| Spotify.CleanedSnoc | src/spotify.js:104-105 | the next element is kept, trimmed, exactly when its trim is non-empty |
| Spotify.CollectUniqStrings | src/spotify.js:99-112 | the `seen`-set loop returns `UniqStrings(arr)` |
| Spotify.UniqStringsClean | src/spotify.js:104-105 | every output string is trimmed and non-empty |
| Spotify.UniqStringsDistinct | src/spotify.js:106-108 | output strings are pairwise distinct under lower-casing |
| Spotify.UniqStringsOrder | src/spotify.js:103-110 | the output keeps input order and loses no lower-cased key |
| Spotify.UniqStringsFirst | src/spotify.js:106-109 | each output string is the first cleaned string with its lower-cased key |
| Spotify.GenreQueries | src/spotify.js:130 | one `genre:k-pop genre:<sub>` query per sub-genre, in order |
| Spotify.BuildMoodQueries | src/spotify.js:114-132 | the method returns `MoodQueries(mood)` |
| Spotify.PushGenreQueries | src/spotify.js:130 | the push loop appends `GenreQueries(subGenres)` |
| Spotify.KrQueryNonEmpty | src/spotify.js:118-119 | the Korean keyword query is non-empty exactly when the mood has Korean keywords |
| Spotify.MoodQueriesShape | src/spotify.js:114-132 | no query for an empty mood; otherwise the four templates in order, the Korean query third when non-empty, then one query per sub-genre, none empty |
| Spotify.DedupByIdLoop | src/spotify.js:153-163 | the loop returns `DedupById(list)` |
| Spotify.DedupByIdStep | src/spotify.js:157-161 | one pass keeps a track with a new non-empty id and records that id |
| Spotify.DedupByIdSnoc | src/spotify.js:157-161 | the next track is appended exactly when its id is non-empty and not seen, and a non-empty id is added to `seen` |
| Spotify.DedupByIdKeys | src/spotify.js:153-163 | output ids are non-empty and pairwise distinct, and every non-empty input id is kept |
| Spotify.DedupByIdOrder | src/spotify.js:157-160 | the output is an order-preserving subsequence of the input |
| Spotify.DedupByIdFirst | src/spotify.js:158 | each output track is the first track with its id |
| Spotify.DedupByIdIdempotent | src/spotify.js:153-163 | deduplicating twice changes nothing |
| Spotify.IdSet | src/spotify.js:169 | no collected id is empty |
| Spotify.BestMap | src/spotify.js:167-172 | the map has exactly the non-empty ids as keys, each with a track of that id |
| Spotify.IdOrderProperties | src/spotify.js:167-173 | the key order has every non-empty id once |
| Spotify.DedupKeepBest | src/spotify.js:165-174 | one output track per distinct id |
| Spotify.DedupKeepBestScore | src/spotify.js:165-174 | the `best`-map loop returns `DedupKeepBest(arr)` |
| Spotify.KeepBestStep | src/spotify.js:169-171 | one pass replaces the kept track of an id only when the new score is strictly higher |
| Spotify.BestIndex | src/spotify.js:170-171 | the kept track of an id is some input track |
| Spotify.BestIndexMax | src/spotify.js:171 | the kept track has the highest score among the tracks with its id |
| Spotify.BestIndexFirst | src/spotify.js:171 | every earlier track with the same id has a strictly lower score, so ties keep the earlier track |
| Spotify.DedupKeepBestIds | src/spotify.js:165-174 | output ids are non-empty and pairwise distinct, and every non-empty input id appears |
| Spotify.DedupKeepBestScores | src/spotify.js:165-174 | each output track is an input track with the maximal score for its id, and the first one with that score |
| Spotify.IsRecentYear | src/spotify.js:176-180 | recent exactly when the string starts with four digits whose year is 2023, 2024 or 2025 |
| Spotify.ScoreTrack | src/spotify.js:182-216 | the accumulation loop returns `TrackScore` |
| Spotify.TrackScoreBounds | src/spotify.js:190-215 | the score is at least `0.5 * popularity` and at most that plus 30, plus 10 per keyword and 5 per genre |
| Spotify.TrackScoreKeyword | src/spotify.js:202-206 | one more keyword adds 10 exactly when it is non-empty after trimming and occurs in the lower-cased title or artists |
| Spotify.TrackScoreIgnoresScore | src/spotify.js:182-216 | the score does not read the track's old score |
| Spotify.ArtistCountSnoc | src/spotify.js:233-234 | appending a track adds one to the count of its main artist only |
| Spotify.PicksSaturated | src/spotify.js:227 | once `topK` tracks are taken nothing more is taken |
| Spotify.ApplyArtistCap | src/spotify.js:218-238 | the method returns `ArtistCap(sorted, topK, maxPerArtist)` |
| Spotify.CapRound | src/spotify.js:227-235 | one pass takes a track whose main artist is empty or under the cap |
| Spotify.PicksLength | src/spotify.js:227 | at most `topK` tracks, none for a negative `topK` |
| Spotify.PicksSubseq | src/spotify.js:226-236 | the picks are an order-preserving subsequence of the input |
| Spotify.PicksCap | src/spotify.js:229-235 | with a positive cap, each non-empty main artist is picked at most `cap` times |
| Spotify.PicksTakes | src/spotify.js:232-234 | a track is taken when there is room and its main artist is empty or under the cap |
| Spotify.ArtistCapProperties | src/spotify.js:218-238 | at most `topK` tracks, an order-preserving subsequence; a cap of at most 0 (or none) gives exactly the `topK` prefix, a positive cap limits each non-empty main artist |
| Spotify.RecommendQueriesFallback | src/spotify.js:264-274 | the query list is never empty and has no empty query; it is exactly the fallback when the cleaned list is empty, and always when `maxQueries` is 0 |
| Spotify.FallbackNonEmpty | src/spotify.js:271-272 | the fallback query is never empty |
| Spotify.RecommendQueriesLimit | src/spotify.js:267 | at most `maxQueries` queries for a positive limit, pairwise distinct under lower-casing |
| Spotify.PrefixUniq | src/spotify.js:267 | a prefix of the unique strings stays non-empty and distinct, no longer than the limit |
| Spotify.Rescored | src/spotify.js:289-296 | rescoring keeps one track per track |
| Spotify.RescoredScores | src/spotify.js:289-296 | each rescored track keeps its id and carries its own `TrackScore` |
| Spotify.MergedProperties | src/spotify.js:282-297 | the merged pool has non-empty pairwise-distinct ids, each track carrying its own score |
| Spotify.SortedMerged | src/spotify.js:299 | the sorted pool keeps distinct ids, is in non-increasing score order, and holds only pool tracks |
| Spotify.RecommendTracksBounds | src/spotify.js:299-302 | at most `topK` tracks, each non-empty main artist at most `maxPerArtist` times |
| Spotify.RecommendTracksOrder | src/spotify.js:299-302 | the result has distinct ids in non-increasing score order |
| Spotify.RecommendTracksScores | src/spotify.js:288-302 | each returned track has an id and carries its own score |
| YouTube.DigitRun | src/youtube.js:21 | `\d+` takes the longest run of leading digits |
| YouTube.FindPT | src/youtube.js:21 | the match starts at the first `PT` of the string, and there is none when no `PT` occurs |
| YouTube.DigitRunOf | src/youtube.js:21 | a digit run followed by a non-digit is read whole |
| YouTube.ComponentPresent | src/youtube.js:21 | a present `<digits><unit>` component is read as its number and consumed |
| YouTube.ComponentAbsent | src/youtube.js:21 | a component for another designator is not consumed and reads as 0 |
| YouTube.ParseFormatDuration | src/youtube.js:19-27 | a `PT#H#M#S` string with any components present parses to `h*3600 + m*60 + s`, missing ones 0 |
| YouTube.ParseLeadingPT | src/youtube.js:21-26 | a string starting with `PT` always parses, since every component is optional |
| YouTube.SecondsOfPieces | src/youtube.js:23-26 | the three components read in order give `h*3600 + m*60 + s` |
| YouTube.HoursStep | src/youtube.js:21-23 | the hours component is read and the rest left for minutes and seconds |
| YouTube.MinutesStep | src/youtube.js:21-24 | the minutes component is read and the rest left for seconds |
| YouTube.SecondsStep | src/youtube.js:21-25 | the seconds component is read |
| YouTube.ParseDurationNull | src/youtube.js:19-22 | the result is null exactly when the input is missing or holds no `PT` anywhere |
| YouTube.ShortsOfFormat | src/youtube.js:29-32 | a formatted duration is shorts-like exactly when its value is at most 90 seconds |
| YouTube.ShortsOfUnreadable | src/youtube.js:29-32 | an unreadable duration is never shorts-like |
| YouTube.Batch | src/youtube.js:55-58 | a page gives only non-empty video ids |
| YouTube.FetchLikedVideoIds | src/youtube.js:40-68 | the paging loop returns `LikedVideoIds(pages, max)` |
| YouTube.PagesRead | src/youtube.js:47-65 | no more pages are read than exist |
| YouTube.GatheredIds | src/youtube.js:47-65 | the gathered ids are the batches of the pages read, in order |
| YouTube.BatchIdsNonEmpty | src/youtube.js:56-60 | every gathered id is non-empty |
| YouTube.LikedVideoIdsProperties | src/youtube.js:47-67 | at most `max` ids, none empty, a prefix of the ids of the pages read |
| YouTube.GatheredEnough | src/youtube.js:47-64 | pages that all go on and are non-empty give at least `max` ids |
| YouTube.RequestBatches | src/youtube.js:83-84 | the slices of 50 concatenate back to the id list, each non-empty with at most 50 ids, all but the last exactly 50 |
| YouTube.Thumbnail | src/youtube.js:104 | the medium thumbnail, else the default one, else null |
| YouTube.MetaOf | src/youtube.js:95-106 | a meta row keeps the id and the parsed duration, and is in the music category exactly when `categoryId` is "10" |
| YouTube.DropShortMetas | src/youtube.js:164-172 | the filter keeps exactly the rows that are not shorts, and `shortsRemoved` counts the rest |
| YouTube.DropShortMetaStep | src/youtube.js:166-171 | one row is either kept or counted as removed |
| YouTube.SyncLikes | src/youtube.js:143-211 | existing rows without `force` skip and report the existing count; otherwise the music rows without shorts are stored and counted |
| YouTube.SyncRowsExact | src/youtube.js:161-172 | the stored rows are an order-preserving subsequence, all music and not shorts, and every such row is stored |
| YouTube.RequestLimit | src/youtube.js:223 | the limit is `min(perQuery, 50)` |
| YouTube.CandidateOf | src/youtube.js:247-255 | a candidate keeps its video id and records the query that found it |
| YouTube.Tagged | src/youtube.js:242-256 | one tagged candidate per search item |
| YouTube.CollectCandidates | src/youtube.js:228-257 | the search loops return `Candidates(responses)` |
| YouTube.CollectResponse | src/youtube.js:242-256 | the items of one response are deduplicated into the map |
| YouTube.CollectAt | src/youtube.js:242-256 | one more item of a response is deduplicated into the map |
| YouTube.CollectItem | src/youtube.js:243-255 | an item without an id or with a seen id is skipped; otherwise it is stored and its id recorded |
| YouTube.CandidatesDistinct | src/youtube.js:242-256 | candidates have pairwise distinct non-empty ids and keep the order of the search results |
| YouTube.CandidatesFirstWins | src/youtube.js:244-254 | each candidate is the first search result with its id, so `sourceQuery` is the first query that returned it |
| YouTube.CandidatesCover | src/youtube.js:242-256 | every search result with an id has a candidate with that id |
| YouTube.DurationMap | src/youtube.js:127-132 | the duration map has exactly the non-empty returned ids as keys |
| YouTube.DurationMapLast | src/youtube.js:128-131 | the duration of an id is the parse of its last returned item |
| YouTube.Annotated | src/youtube.js:265-271 | each candidate gets the duration found for its id |
| YouTube.DropShortCandidates | src/youtube.js:262-272 | the filter keeps exactly the candidates that are not shorts, and `shortsRemoved` counts the rest |
| YouTube.DropShortStep | src/youtube.js:266-271 | one candidate is either kept or counted as removed |
| YouTube.SearchByQueries | src/youtube.js:218-282 | the result is the deduplicated candidates with their durations, without the shorts |
| YouTube.DropShortsExact | src/youtube.js:263-272 | the kept candidates are in order, none shorts-like, and every candidate without a short duration is kept |
| Tokenize.SourceTable | src/tokenize.js:125-129 | "liked" maps to `liked_videos`, "candidate" to `candidates`, and every other kind is the error "invalid kind" |
| Tokenize.SourceTableClosed | src/tokenize.js:125-129 | only the two allowed tables can be chosen, and different kinds choose different tables |
| Tokenize.StepName | src/tokenize.js:257-259 | the step marked done is `tokenized_likes` for liked videos and `tokenized_candidates` otherwise |
| Tokenize.TodoRowsProperties | src/tokenize.js:173-174 | the rows to do are, in order, exactly the rows with a video id not yet tokenized |
| Tokenize.MakeGroups | src/tokenize.js:178 | the grouping returns `Groups(todo, opts)` |
| Tokenize.GroupsProperties | src/tokenize.js:178 | the groups concatenate back to the rows to do; without `forceSingleRequest` each group is non-empty with at most `batchSize` rows |
| Tokenize.OutputTextOrNull | src/tokenize.js:78-91 | a non-blank `output_text` wins; otherwise the gathered text, or null exactly when both are blank |
| Tokenize.GetOutputText | src/tokenize.js:78-91 | the extraction returns `OutputTextOrNull(resp)` |
| Tokenize.NoOutputText | src/tokenize.js:80-90 | with no usable `output_text` and no text part anywhere the result is null |
| Tokenize.StripFencesClean | src/tokenize.js:106 | removing the fences leaves no three backticks in a row |
| Tokenize.StripFencesPlain | src/tokenize.js:106 | text without backticks is kept as it is |
| Tokenize.ParseFenced | src/tokenize.js:99-109 | a body wrapped in a json code fence is parsed once the fences are removed |
| Tokenize.ParseJsonStrict | src/tokenize.js:99-119 | empty input gives null; otherwise the raw text, then the unfenced text, then the outer `{...}` slice is parsed, the first that parses winning, and null when none does |
| Tokenize.ItemsOf | src/tokenize.js:215 | the `items` array, else the parsed array itself, else empty |
| Tokenize.Aligned | src/tokenize.js:223-225 | the items are cut or padded with `{}` to exactly the group's length, keeping the first ones |
| Tokenize.AlignItems | src/tokenize.js:223-225 | the padding and cutting returns `Aligned(items, need)` |
| Tokenize.CapList | src/tokenize.js:236-237 | a non-array gives an empty list, an array its first `max` elements |
| Tokenize.CapListProperties | src/tokenize.js:236-237 | a capped list has at most `max` elements, is a prefix of the array, and is the whole array when it is short enough |
| Tokenize.StoreGroup | src/tokenize.js:230-248 | the transaction writes `StoredRows(...)` and counts them |
| Tokenize.StoredRowsAll | src/tokenize.js:231-244 | when every row of the group has an id, one token row is written per row, from the item at its index |
| Tokenize.StoredRowsFrom | src/tokenize.js:231-244 | every written row comes from a group row with a video id and the item at the same index |
| Tokenize.ProcessGroup | src/tokenize.js:182-253 | one group's request writes `GroupWrites(...)`; an API error, no output or no items writes nothing |
| Tokenize.GroupWritesAll | src/tokenize.js:214-248 | a reply with items writes one row per group row, and rows beyond the items get empty artist and keyword lists |
| Tokenize.TokenizeVideos | src/tokenize.js:144-262 | an invalid kind is an error; nothing to do gives `skipped`; otherwise the groups are written in order and `added` counts them |
| Tokenize.RunGroups | src/tokenize.js:181-254 | the group loop writes the rows of every group in order and `added` is their number |
| Tokenize.WritesUpToWellFormed | src/tokenize.js:230-245 | every row written by the first groups is well formed |
| Tokenize.GroupWellFormed | src/tokenize.js:230-245 | every row a group writes is well formed |
| Tokenize.TokenizeWritesTodo | src/tokenize.js:173-245 | every written row has the kind, a new non-empty source id from the source rows, and lists within the caps |
| Tokenize.TodoId | src/tokenize.js:174 | a row to do has a non-empty id not yet tokenized that comes from the source rows |
| OpenAi.FallbackLog.constructor | src/openai.js:58 | the fallback record starts empty |
| OpenAi.FallbackLog.Push | src/openai.js:159-162 | one `{ field, got, used }` record is appended and the value used is returned |
| OpenAi.TrimmedStrings | src/openai.js:142 | every element is converted to a string and trimmed, one output per element |
| OpenAi.NormList | src/openai.js:138-147 | the normalised list, or the fallback with exactly one fallback record when the value is not an array or nothing is left |
| OpenAi.NormalizedListProperties | src/openai.js:138-147 | a kept list is non-empty, at most `max` long, trimmed and in order; a non-array is never kept; an array with a non-blank element is kept when `max > 0` |
| OpenAi.KeptShape | src/openai.js:141-144 | the trimmed, non-empty, sliced list has at most `max` elements, all trimmed, in their original order |
| OpenAi.KeptSome | src/openai.js:143-146 | one non-empty trimmed element is enough for a non-empty result |
| OpenAi.KeptInOrder | src/openai.js:141-144 | the kept strings keep the order of the array |
| OpenAi.KeptTrimmed | src/openai.js:141-144 | the kept strings are all trimmed |
| OpenAi.Clamp | src/openai.js:150-156 | the number when it is finite and within range; otherwise the default with exactly one fallback record |
| OpenAi.ClampKeepsOrReplaces | src/openai.js:150-156 | the result is the number when it is in `[lo, hi]` and the default otherwise, so a value above `hi` is replaced rather than clamped |
| OpenAi.ExtractJsonObjectProperties | src/openai.js:130-135 | a slice exists exactly when some `{` comes before some `}`; it runs from the first `{` to the last `}` |
| OpenAi.OutputText | src/openai.js:104-117 | a string `output_text` is returned as it is, even when blank; otherwise the text parts are concatenated |
| OpenAi.GetOutputText | src/openai.js:104-117 | the loop returns `OutputText(resp)` |
| OpenAi.FallbackQueriesBound | src/openai.js:165-176 | there are at most three fallback queries, and none when genres and keywords are all empty |
| OpenAi.FallbackQueriesShape | src/openai.js:165-176 | with trimmed genres and keywords, the queries are the joins of the first two, the first three and all of them, each trimmed |
| OpenAi.JoinsTrimmed | src/openai.js:168-175 | the three joins of a non-empty trimmed base survive the filter, trim and slice unchanged |
| OpenAi.Normalize | src/openai.js:58-84 | the normalisation computes `AnalysisOf(json)` and `QueriesOf(json)` |
| OpenAi.AnalyzeDiaryAndBuildSpotify | src/openai.js:24-91 | the whole analysis returns `AnalyzeDiary(text, ...)` |
| OpenAi.AnalyzeDiaryErrors | src/openai.js:26-55 | "Empty diary text" exactly for a missing or blank diary, and "No JSON parsed" exactly when no reading of the reply is an object |
| OpenAi.AnalyzeDiaryPrefix | src/openai.js:29 | only the first 2000 characters of a diary matter |
| OpenAi.AnalysisFields | src/openai.js:61-77 | keywords are 1 to 8 trimmed strings, genres at most 3, energy and valence in `[0, 1]`, tempo null or in `[60, 180]`, and the market upper-cased or "KR" |
| OpenAi.FallbacksBound | src/openai.js:62-80 | at most seven fallbacks are recorded, each naming one of the seven normalised fields |
| OpenAi.QueriesShape | src/openai.js:80-84 | one to three trimmed queries, and the model's own once any of them survives |
| OpenAi.QueriesFromModel | src/openai.js:80-84 | a kept `search_queries` list is used as it is |
| OpenAi.QueriesFromFallback | src/openai.js:84 | without usable model queries, three trimmed fallback queries are built |
| Reco.KeptKeywordsProperties | src/reco.js:38 | at most six keywords are kept, each trimmed and at least two characters long, in their original order |
| Reco.KeptTrimmed | src/reco.js:38 | every kept keyword is trimmed and at least two characters long |
| Reco.BuildQueriesDefault | src/reco.js:37-39 | the default queries are used exactly when no keyword is at least two characters long once trimmed |
| Reco.KeptShort | src/reco.js:38-39 | a kept keyword comes from a keyword at least two characters long once trimmed |
| Reco.KeptLong | src/reco.js:38-39 | one keyword at least two characters long once trimmed is enough to avoid the default |
| Reco.BuildQueriesShape | src/reco.js:40-43 | three trimmed queries, each extending the one before, the last joining every kept keyword |
| Reco.ScoreTrack | src/reco.js:58-71 | the scoring loop returns `Score(t, keywords)` |
| Reco.ScoreBounds | src/reco.js:58-71 | the score is at least a tenth of the popularity and at most that plus 8 per keyword |
| Reco.ScoreKeyword | src/reco.js:64-67 | each keyword adds 8 exactly when it occurs in the lower-cased title or artists |
| Reco.ScoreIgnoresScore | src/reco.js:58-71 | a track's earlier score does not affect its new score |
| Reco.Dedup | src/reco.js:73-83 | the loop keeps the first element of each key: `DedupBy(arr, key)` |
| Reco.PoolMembers | src/reco.js:20-24 | a track is in the pool exactly when one of the queries' searches returned it |
| Reco.Rescored | src/reco.js:30 | scoring keeps one track per track |
| Reco.Recommend | src/reco.js:15-35 | the recommendation returns `Recommended(keywords, search, topK)` |
| Reco.CollectPool | src/reco.js:20-24 | the search loops return `Pool(qList, search)` |
| Reco.RescoreAll | src/reco.js:30 | the loop returns `Rescored(uniq, keywords)` |
| Reco.RescoredScores | src/reco.js:30 | every rescored track keeps its id and carries its own score |
| Reco.TopBound | src/reco.js:33-34 | at most `topK` tracks and no more than the pool holds |
| Reco.TopOrder | src/reco.js:33-34 | the result is sorted by decreasing score and no track left out scores higher than one kept |
| Reco.TopTracks | src/reco.js:27-34 | the tracks have distinct ids, carry their own scores and come from the pool |
| Reco.ScoredFromPool | src/reco.js:27-30 | every deduplicated scored track is a scored pool track |
| Reco.TopComplete | src/reco.js:27-34 | when fewer than `topK` tracks come back, every id of the pool is among them |
| Reco.RescoredKeys | src/reco.js:30 | scoring keeps the set of ids |
| YouTubeRoutes.Responses | src/youtube.js:228-236 | one search response per query, in query order, tagged with its query |
| YouTubeRoutes.SearchAndStoreCandidates | src/routes/youtube.js:25-40 | the first four liked-token queries are searched, at most 200 candidates are stored, and the count is the number stored |
| YouTubeRoutes.SearchLimits | src/routes/youtube.js:27-31 | at most four queries (the slice never shortens the liked-token queries), at most 200 candidates, a prefix of the search results |
| YouTubeRoutes.KeyCountSnoc | src/routes/youtube.js:88-92 | appending a row adds one to its channel's count and leaves the other counts alone |
| YouTubeRoutes.SelectRows | src/routes/youtube.js:85-95 | the per-channel loop returns `Selection(rowsRaw)` |
| YouTubeRoutes.SelectStep | src/routes/youtube.js:87-95 | one row is skipped when its channel already has three, otherwise taken, and the loop stops once 50 rows are taken |
| YouTubeRoutes.SelectedNext | src/routes/youtube.js:87-95 | the next row is taken exactly when fewer than 50 rows and fewer than three of its channel are taken |
| YouTubeRoutes.SeenCountsAdd | src/routes/youtube.js:88-93 | the `seen` map stays the count of taken rows per channel |
| YouTubeRoutes.SelectedSaturated | src/routes/youtube.js:94 | once 50 rows are taken nothing changes, which is why the loop may break |
| YouTubeRoutes.SelectedBound | src/routes/youtube.js:94 | never more than 50 rows |
| YouTubeRoutes.SelectedCap | src/routes/youtube.js:88-90 | never more than three rows per channel key |
| YouTubeRoutes.SelectedSubseq | src/routes/youtube.js:87-95 | the rows taken keep the score order of the database rows |
| YouTubeRoutes.SelectedComplete | src/routes/youtube.js:87-95 | below 50 rows, each channel has exactly the smaller of three and its number of database rows |
| YouTubeRoutes.SelectionProperties | src/routes/youtube.js:85-95 | at most 50 rows, at most three per channel, in order, and short of 50 only when every channel is saturated or exhausted |
| JsonValues.Field | src/openai.js:63 | a property is present exactly when the value is an object holding that key |
| JsonValues.StringOf | src/openai.js:63 | `typeof v === "string"` holds exactly for string values |
| JsonValues.ToNumber | src/openai.js:151 | `Number(v)`: a number is itself, `null` is 0, `undefined` is not a finite number, a string is converted |
| Strings.TrimStart | src/openai.js:142 | leading white space is removed and nothing else |
| Strings.TrimEnd | src/openai.js:142 | trailing white space is removed and nothing else |
| Strings.TrimProperties | src/openai.js:142 | a trimmed string has no white space at either end and is what is left once the white space at both ends is cut |
| Strings.TrimUnchanged | src/openai.js:174 | a string without white space at its ends is its own trim |
| Strings.TrimIdempotent | src/openai.js:174 | trimming twice is trimming once |
| Strings.TrimKeepsLead | src/openai.js:174 | trimming keeps a leading part that has no white space at its ends |
| Strings.Lower | src/reco.js:62 | every character is mapped to lower case and the length is kept |
| Strings.Upper | src/openai.js:74 | every character is mapped to upper case and the length is kept |
| Strings.LowerIdempotent | src/reco.js:62-65 | lower-casing twice is lower-casing once |
| Strings.ContainsAt | src/reco.js:66 | `includes` holds when the needle occurs at some position |
| Strings.IndexOf | src/openai.js:132 | the first position of the character, or -1 exactly when it does not occur |
| Strings.LastIndexOf | src/openai.js:133 | the last position of the character, or -1 exactly when it does not occur |
| Strings.BraceSliceProperties | src/tokenize.js:111-116 | a slice exists exactly when some `{` comes before some `}`, and it runs from the first `{` to the last `}` |
| Strings.BraceSliceFound | src/tokenize.js:111-113 | a slice exists exactly when some `{` comes before some `}` |
| Strings.BraceSliceOfPair | src/tokenize.js:111-113 | any `{` before a `}` is enough for a slice |
| Strings.BraceSliceShape | src/tokenize.js:111-115 | the slice starts with `{`, ends with `}`, and no `{` precedes it nor `}` follows it |
| Strings.JoinPrefix | src/reco.js:40-42 | joining a prefix of the parts gives a prefix of the join of all of them |
| Strings.JoinNonEmpty | src/openai.js:169-171 | a join whose first part is non-empty is non-empty |
| Strings.JoinTrimmed | src/openai.js:169-174 | a join of trimmed non-empty parts with a space is trimmed |
| Strings.GrowingJoinsPrefixes | src/openai.js:169-171 | each of the three joins extends the one before it |
| Strings.GrowingJoinsTrimmed | src/openai.js:169-174 | the three joins of trimmed non-empty parts are trimmed |
| Strings.NatToDigitsValue | src/youtube.js:21-26 | writing a number in decimal and reading it back gives the number |
| Seqs.Filter | src/youtube.js:166-171 | `filter` keeps, in order, the elements that pass and no others |
| Seqs.SliceEnd | src/reco.js:34 | the end index of `slice(0, end)`: at most the length, `min(end, len)` for a non-negative end, counted from the back for a negative one |
| Seqs.PrefixWhole | src/routes/youtube.js:27 | a slice shorter than its bound is the whole sequence |
| Seqs.FilterSubseq | src/youtube.js:166-171 | a filter keeps the order of its input |
| Seqs.PrefixFilterSubseq | src/openai.js:141-144 | filtering then slicing to `n` keeps the input order and at most `n` elements |
| Seqs.FilterConcat | src/youtube.js:166-171 | filtering distributes over concatenation |
| Seqs.KeysOf | src/reco.js:74-79 | the seen-set holds exactly the keys of the elements seen |
| Seqs.DedupBySnoc | src/reco.js:76-81 | the next element is kept exactly when its key has not been seen, and its key joins the seen set |
| Seqs.DedupByOfDistinct | src/reco.js:73-83 | deduplicating elements with distinct keys changes nothing |
| Seqs.DedupByKeys | src/reco.js:73-83 | deduplication keeps every key |
| Seqs.DedupByDistinctKeys | src/reco.js:73-83 | deduplicated elements have pairwise distinct keys |
| Seqs.DedupBySubseq | src/reco.js:73-83 | deduplication keeps the input order |
| Seqs.DedupByFirst | src/reco.js:76-81 | the first element with a key is kept |
| Seqs.DedupByOnlyFirst | src/reco.js:76-81 | only the first element with a key is kept |
| Seqs.UniqueProperties | src/ppr.js:55 | `[...new Set(s)]` has distinct elements, the same members, in first-occurrence order |
| Seqs.UniqueOfDistinct | src/ppr.js:214 | a set spread of distinct elements changes nothing |
| Seqs.SpreadSet | src/ppr.js:55 | the loop that builds the set spread returns `Unique(s)` |
| Seqs.ChunksProperties | src/tokenize.js:54-58 | the chunks concatenate back to the input, each non-empty with at most `n` elements, all but the last exactly `n` |
| Seqs.ChunksMember | src/tokenize.js:54-58 | every element of a chunk is an element of the input |
| Seqs.ChunkLoop | src/tokenize.js:54-58 | the `i += n` loop returns `Chunks(s, n)` |
| Sorting.SortOrderCorrect | src/reco.js:33 | the insertion order is a permutation sorted by decreasing key, equal keys keeping their input order |
| Sorting.SortDescProperties | src/reco.js:33 | the sorted sequence is a stable permutation of its input in decreasing key order |
| Sorting.SortDescSorted | src/reco.js:33 | keys do not increase, and equal keys keep their input order |
| Sorting.SortDescMembers | src/reco.js:33 | sorting keeps the elements |
| Sorting.SortDescPrefix | src/reco.js:33-34 | the first `n` sorted elements are in decreasing key order and none left out has a larger key |
| Sorting.SortDescKeysOf | src/reco.js:33 | sorting keeps the set of ids |
| Sorting.SortDescDistinct | src/reco.js:33 | sorting keeps ids distinct |
| Responses.ConcatOutputText | src/tokenize.js:82-89 | the nested loops over `output` and `content` return `OutputConcat(blocks)` |
| Responses.AppendBlock | src/tokenize.js:85-88 | the inner loop appends exactly the text parts of one block |
| Responses.BlockTextEmpty | src/tokenize.js:86-88 | a block adds no text exactly when no part of it adds a non-empty text |
| Responses.OutputConcatEmpty | src/tokenize.js:84-90 | the gathered text is empty exactly when every block's text is empty |
| Responses.OutputConcatAppend | src/openai.js:110-115 | the gathered text of two runs of blocks is the concatenation of their texts |

## Left out

Input, output and the outside world:
- SQLite access (`db.prepare`, transactions, the `logs` and `step_status` writes) is not modelled; rows read from the database are inputs and rows written are outputs. The candidate score `UPDATE` batch (src/ppr.js:243-249) is left out with it, and so is `upsertCandidates`.
- The YouTube, Spotify and OpenAI clients are left out. Each API answer is an input: a list of pages, a function from query to results, or a model reply. The `fetchVideoMeta` and `fetchVideoDurations` request loops are reduced to the batching of ids and to the answers they gather.
- OAuth, sessions, Express routing and page rendering are not part of this model, nor is the Spotify app-token cache built on `Date.now` (src/spotify.js:4-33) with its `apiGET` wrapper.
- The `Promise.all` fan-out of `recommendTracks` and the ordering of asynchronous calls are not modelled; results are combined in query order, as the code combines them.
- Console and database logging are left out; the fallback record of the diary analysis is modelled because the result carries it.

Built-ins and numbers:
- Floating point is modelled by `real`. Rounding, `NaN` and infinities are not modelled; `Number(v)` gives `None` where the code would see a non-finite number.
- `JSON.parse` is a parameter (`None` when it throws) and `JSON.stringify` of the stored lists is not modelled; stored artist and keyword lists are kept as sequences.
- `String(v)` of a number, and `Number(s)` of a string, are parameters.
- `toLowerCase` and `toUpperCase` map ASCII letters only.
- Strings are sequences of code points, not of UTF-16 units. This affects `.length` and `slice(0, 2000)` only for characters outside the Basic Multilingual Plane.
- The regular expressions of `isArtistLike` and `hasKorean` are written out as character ranges.
- Values of the wrong JavaScript type (a number where a string is expected, for instance) are not modelled beyond the JSON values of the model replies.

Simplifications:
- PageRank.PersonalizedPageRank: the power iteration is modelled over `real` with exact arithmetic; the `Map` iteration order of the adjacency is replaced by index order, which the sums do not depend on.
- YouTube.FetchLikedVideoIds: the API is taken to return no more than `maxResults` items per page; a page the API does not answer is an empty page.
- Tokenize.TokenizeVideos: `batchSize` must be positive unless `forceSingleRequest` is set. With `batchSize` 0 the code would loop forever, and a fractional batch size is not modelled.
- Spotify.BuildMoodQueries: the mood tables are plain object literals, so a mood naming an `Object.prototype` property (`"constructor"`, `"toString"`, `"__proto__"` and the like) finds a function or object there. `krKeywords.slice` then throws a TypeError, and so does `recommendTracks`. The model treats such a mood as an unknown mood and returns the template queries, and so do Spotify.MoodQueriesShape and Spotify.RecommendTracks.
- Spotify.ArtistCap: `topK` is an integer; a fractional `topK` is not modelled. `maxPerArtist` is an integer too; a fractional cap such as 2.5 passes `Number.isFinite` and acts as its ceiling in the code, and the model does not cover it.
- Reco.Recommend: `MOOD_TARGET` and the `mood`, `energy` and `valence` arguments are left out, because the code computes `target` and never uses it.
- Reco.Recommend: `toTrack`'s `url`, `preview` and `albumImg` are left out, because the score and the order never read them.
- Reco.Recommend: the search is a function of the query; `market` and `perQuery` are not modelled.
- Reco.Recommend: the in-place `tr.score = ...` updates and the in-place sort are modelled on sequences of values.
- Reco.Recommend: the sort is modelled as a stable sort by decreasing score, as `Array.prototype.sort` is specified to be.
- Spotify.RecommendTracks: `popularity` is a natural number, with a missing one read as 0; negative, fractional or `NaN` popularity is not modelled.
- YouTubeRoutes.SelectRows: the database rows are given already ordered by score and limited to 200 (the `ORDER BY score DESC LIMIT 200` of `qTopCandidates`); database rows are never null.

What the code does that a reader might not expect (the model follows the code):
- PageRank.PersonalizedPageRank: rank mass is not conserved. An isolated vertex gets out-degree 1 but has no neighbours, so its share `(1 - alpha) * r[i]` is dropped each round.
- PprQueries.ScoreCandidates: a token repeated within a candidate's list is counted once per occurrence.
- PprGraph.SeedFreq: repeats within one row count toward the cap of 2.
- PprQueries.QueryPolicy: with a ranked list holding only the empty token, the result is empty, so the empty result is not confined to an empty ranked list. For a ranked list without repeats these are the only two cases.
- Reco.BuildQueries: with one or two kept keywords the three queries repeat each other.
- Reco.Recommend: scoring uses the untrimmed, unfiltered keywords, not the kept ones.
- YouTubeRoutes.SearchLimits: the slice to `QUERY_MAX = 4` never shortens anything, because the query policy already returns at most four queries.
- YouTubeRoutes.ChannelKey: a channel literally named "unknown" shares its key with rows without a channel title.
- YouTube.ParseDurationSeconds: the `PT` pattern is not anchored, so text before the first `PT` is ignored.
- OpenAi.Clamp: it does not clamp; an out-of-range value is replaced by the default.
- OpenAi.NormList: the fallback record holds the same list that is returned for the field, in the code the same array object; the model has values and does not observe aliasing.
- PprQueries.ScoreCandidates: the token lists are given already parsed. Malformed stored JSON makes `JSON.parse` throw in the code, and the whole scoring fails; that path is not modelled.
